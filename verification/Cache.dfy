/**
  Cache-aside with tag invalidation: entries and tag sets with their own
  deadlines, against functions whose results change when the data does.  Calls,
  changes and invalidations follow one another; time passes in between.
 */
module Cache {
  import opened Options

  type Time = int
  type Tag = string
  type Value = int

  // Redis refuses a lifetime of zero.
  type Lifetime = n: int | n > 0 witness 1

  /******* Keys *******/

  // A decorated function, by module and name.
  datatype FnId = FnId(module_: string, name: string)

  // The digest of the arguments is taken to be injective, so it is the arguments.
  datatype Key = Key(fn: FnId, args: map<string, string>)

  const IGNORED: set<string> := {"self", "cls", "repo", "db"}

  function GenerateKey(fn: FnId, bound: map<string, string>): Key {
    Key(fn, map name | name in bound && name !in IGNORED :: bound[name])
  }

  /******* State *******/

  datatype Fn = Fn(ttl: Option<Lifetime>, tags: seq<Tag>)

  datatype Config = Config(defaultTtl: Lifetime, fns: map<FnId, Fn>)

  datatype Entry = Entry(payload: Value, deadline: Time)

  datatype TagSet = TagSet(members: set<Key>, deadline: Time)

  type TagSets = map<Tag, TagSet>

  // `truth` is what each call would return undecorated.
  datatype State = State(now: Time, entries: map<Key, Entry>, sets: TagSets, truth: map<Key, Value>)

  datatype Event =
    | Tick(dt: nat)
    | Call(key: Key)
    | Change(updates: map<Key, Value>)
    | Invalidate(tags: seq<Tag>)
    | FlushAll

  function Init(truth: map<Key, Value>): State {
    State(0, map[], map[], truth)
  }

  function Ttl(cfg: Config, fn: FnId): Lifetime {
    if fn in cfg.fns && cfg.fns[fn].ttl.Some? then cfg.fns[fn].ttl.value else cfg.defaultTtl
  }

  predicate Carries(cfg: Config, key: Key, tag: Tag) {
    key.fn in cfg.fns && tag in cfg.fns[key.fn].tags
  }

  function Direct(s: State, key: Key): Value {
    if key in s.truth then s.truth[key] else 0
  }

  predicate Live(s: State, key: Key) {
    key in s.entries && s.entries[key].deadline > s.now
  }

  // A tag set past its deadline is gone.
  function Members(sets: TagSets, tag: Tag, now: Time): set<Key> {
    if tag in sets && sets[tag].deadline > now then sets[tag].members else {}
  }

  // SADD then EXPIRE.
  function TagOne(sets: TagSets, tag: Tag, key: Key, now: Time, ttl: Lifetime): TagSets {
    sets[tag := TagSet(Members(sets, tag, now) + {key}, now + ttl)]
  }

  function TagAll(sets: TagSets, tags: seq<Tag>, key: Key, now: Time, ttl: Lifetime): TagSets {
    if tags == [] then sets
    else TagOne(TagAll(sets, tags[..|tags| - 1], key, now, ttl), tags[|tags| - 1], key, now, ttl)
  }

  // What the decorated function returns.
  function Answer(s: State, key: Key): Value {
    if Live(s, key) then s.entries[key].payload else Direct(s, key)
  }

  function Stored(cfg: Config, s: State, key: Key): State
    requires key.fn in cfg.fns
  {
    var ttl := Ttl(cfg, key.fn);
    s.(entries := s.entries[key := Entry(Direct(s, key), s.now + ttl)],
       sets := TagAll(s.sets, cfg.fns[key.fn].tags, key, s.now, ttl))
  }

  function MembersOfAll(sets: TagSets, tags: seq<Tag>, now: Time): set<Key> {
    set tag <- tags, key <- Members(sets, tag, now) :: key
  }

  function AsSet(tags: seq<Tag>): set<Tag> {
    set tag <- tags
  }

  function Invalidated(s: State, tags: seq<Tag>): State {
    s.(entries := s.entries - MembersOfAll(s.sets, tags, s.now), sets := s.sets - AsSet(tags))
  }

  function Step(cfg: Config, s: State, e: Event): State {
    match e
    case Tick(dt) => s.(now := s.now + dt)
    case Call(key) => if key.fn !in cfg.fns || Live(s, key) then s else Stored(cfg, s, key)
    case Change(updates) => s.(truth := s.truth + updates)
    case Invalidate(tags) => Invalidated(s, tags)
    case FlushAll => s.(entries := map[], sets := map[])
  }

  function Run(cfg: Config, truth: map<Key, Value>, events: seq<Event>): State {
    if events == [] then Init(truth)
    else Step(cfg, Run(cfg, truth, events[..|events| - 1]), events[|events| - 1])
  }

  /******* Invariant *******/

  // Functions that share a tag keep their entries equally long.
  ghost predicate Uniform(cfg: Config) {
    forall f <- cfg.fns, g <- cfg.fns, tag <- cfg.fns[f].tags | tag in cfg.fns[g].tags :: Ttl(cfg, f) == Ttl(cfg, g)
  }

  // Each live entry is in each of its tag sets, which outlives it.
  ghost predicate Covered(cfg: Config, s: State, key: Key) {
    Live(s, key) ==> forall tag | Carries(cfg, key, tag) ::
      tag in s.sets && key in s.sets[tag].members && s.sets[tag].deadline >= s.entries[key].deadline
  }

  ghost predicate EntryOk(cfg: Config, s: State, key: Key) {
    key in s.entries ==> key.fn in cfg.fns && s.entries[key].deadline <= s.now + Ttl(cfg, key.fn)
  }

  ghost predicate SetOk(cfg: Config, s: State, tag: Tag) {
    tag in s.sets ==> forall key <- s.sets[tag].members :: Carries(cfg, key, tag)
  }

  ghost predicate Shape(cfg: Config, s: State) {
    (forall key :: EntryOk(cfg, s, key)) && (forall tag :: SetOk(cfg, s, tag))
  }

  ghost predicate Inv(cfg: Config, s: State) {
    Shape(cfg, s) && forall key :: Covered(cfg, s, key)
  }

  // One tag set after storing under all of a function's tags.
  lemma {:induction false} TagAllAt(sets: TagSets, tags: seq<Tag>, key: Key, now: Time, ttl: Lifetime, tag: Tag)
    ensures var after := TagAll(sets, tags, key, now, ttl);
      if tag in tags then
        && tag in after && after[tag].deadline == now + ttl && key in after[tag].members
        && Members(sets, tag, now) <= after[tag].members <= Members(sets, tag, now) + {key}
      else (tag in after <==> tag in sets) && (tag in sets ==> after[tag] == sets[tag])
  {
    if tags != [] {
      var front, last := tags[..|tags| - 1], tags[|tags| - 1];
      assert tags == front + [last];
      TagAllAt(sets, front, key, now, ttl, tag);
    }
  }

  lemma StoredShape(cfg: Config, s: State, key: Key)
    requires Shape(cfg, s) && key.fn in cfg.fns
    ensures Shape(cfg, Stored(cfg, s, key))
  {
    var t := Stored(cfg, s, key);
    forall k ensures EntryOk(cfg, t, k) {
      assert EntryOk(cfg, s, k);
    }
    forall tag ensures SetOk(cfg, t, tag) {
      assert SetOk(cfg, s, tag);
      TagAllAt(s.sets, cfg.fns[key.fn].tags, key, s.now, Ttl(cfg, key.fn), tag);
    }
  }

  lemma StoredCovers(cfg: Config, s: State, key: Key, k: Key)
    requires Uniform(cfg) && key.fn in cfg.fns && Covered(cfg, s, k) && EntryOk(cfg, s, k)
    ensures Covered(cfg, Stored(cfg, s, key), k)
  {
    var t := Stored(cfg, s, key);
    if Live(t, k) {
      forall tag | Carries(cfg, k, tag)
        ensures tag in t.sets && k in t.sets[tag].members && t.sets[tag].deadline >= t.entries[k].deadline
      {
        TagAllAt(s.sets, cfg.fns[key.fn].tags, key, s.now, Ttl(cfg, key.fn), tag);
      }
    }
  }

  lemma InvalidatedInv(cfg: Config, s: State, tags: seq<Tag>)
    requires Inv(cfg, s)
    ensures Inv(cfg, Invalidated(s, tags))
  {
    var t := Invalidated(s, tags);
    forall k ensures EntryOk(cfg, t, k) {
      assert EntryOk(cfg, s, k);
    }
    forall tag ensures SetOk(cfg, t, tag) {
      assert SetOk(cfg, s, tag);
    }
    forall k ensures Covered(cfg, t, k) {
      InvalidatedCovers(cfg, s, tags, k);
    }
  }

  lemma InvalidatedCovers(cfg: Config, s: State, tags: seq<Tag>, k: Key)
    requires Covered(cfg, s, k)
    ensures Covered(cfg, Invalidated(s, tags), k)
  {
    var t := Invalidated(s, tags);
    if Live(t, k) {
      forall tag | Carries(cfg, k, tag)
        ensures tag in t.sets && k in t.sets[tag].members && t.sets[tag].deadline >= t.entries[k].deadline
      {
        assert k in Members(s.sets, tag, s.now);
      }
    }
  }

  lemma StepInv(cfg: Config, s: State, e: Event)
    requires Uniform(cfg) && Inv(cfg, s)
    ensures Inv(cfg, Step(cfg, s, e))
  {
    var t := Step(cfg, s, e);
    match e
    case Call(key) =>
      if key.fn in cfg.fns && !Live(s, key) {
        StoredShape(cfg, s, key);
        forall k ensures Covered(cfg, t, k) {
          assert Covered(cfg, s, k) && EntryOk(cfg, s, k);
          StoredCovers(cfg, s, key, k);
        }
      }
    case Invalidate(tags) => InvalidatedInv(cfg, s, tags);
    case _ =>
      forall k ensures EntryOk(cfg, t, k) && Covered(cfg, t, k) {
        assert EntryOk(cfg, s, k) && Covered(cfg, s, k);
      }
      forall tag ensures SetOk(cfg, t, tag) {
        assert SetOk(cfg, s, tag);
      }
  }

  lemma {:induction false} RunInv(cfg: Config, truth: map<Key, Value>, events: seq<Event>)
    requires Uniform(cfg)
    ensures Inv(cfg, Run(cfg, truth, events))
  {
    if events != [] {
      RunInv(cfg, truth, events[..|events| - 1]);
      StepInv(cfg, Run(cfg, truth, events[..|events| - 1]), events[|events| - 1]);
    }
  }

  /******* Invalidation *******/

  // Invalidating tags removes exactly the live entries that carry one of them.
  lemma InvalidationIsExact(cfg: Config, truth: map<Key, Value>, events: seq<Event>, tags: seq<Tag>, key: Key)
    requires Uniform(cfg)
    ensures var s := Run(cfg, truth, events);
      var t := Run(cfg, truth, events + [Invalidate(tags)]);
      && (Live(t, key) <==> Live(s, key) && !exists tag <- tags :: Carries(cfg, key, tag))
      && (Live(t, key) ==> t.entries[key] == s.entries[key])
  {
    var s := Run(cfg, truth, events);
    assert (events + [Invalidate(tags)])[..|events|] == events;
    RunInv(cfg, truth, events);
    assert Covered(cfg, s, key);
    if tag :| tag in tags && Carries(cfg, key, tag) && Live(s, key) {
      assert key in Members(s.sets, tag, s.now);
    }
    if tag :| tag in tags && key in Members(s.sets, tag, s.now) {
      assert SetOk(cfg, s, tag);
    }
  }

  // An invalidation after some events removes exactly what carries one of its tags.
  ghost predicate Exact(cfg: Config, truth: map<Key, Value>, events: seq<Event>, tags: seq<Tag>, key: Key) {
    var s, t := Run(cfg, truth, events), Run(cfg, truth, events + [Invalidate(tags)]);
    Live(t, key) <==> Live(s, key) && !exists tag <- tags :: Carries(cfg, key, tag)
  }

  /******* Refinement *******/

  ghost function KeysOf(updates: map<Key, Value>): iset<Key> {
    iset key | key in updates
  }

  // The keys changed since the last invalidation of one of their tags.
  ghost function Touched(cfg: Config, events: seq<Event>): iset<Key> {
    if events == [] then iset{}
    else
      var before := Touched(cfg, events[..|events| - 1]);
      match events[|events| - 1]
      case Change(updates) => before + KeysOf(updates)
      case Invalidate(tags) => iset key | key in before && !exists tag <- tags :: Carries(cfg, key, tag)
      case FlushAll => iset{}
      case _ => before
  }

  ghost predicate Faithful(s: State, touched: iset<Key>, key: Key) {
    Live(s, key) && key !in touched ==> s.entries[key].payload == Direct(s, key)
  }

  lemma ChangeFaithful(s: State, updates: map<Key, Value>, touched: iset<Key>, key: Key)
    requires Faithful(s, touched, key)
    ensures Faithful(s.(truth := s.truth + updates), touched + KeysOf(updates), key)
  {
  }

  lemma CallFaithful(cfg: Config, s: State, called: Key, touched: iset<Key>, key: Key)
    requires Faithful(s, touched, key)
    ensures Faithful(Step(cfg, s, Call(called)), touched, key)
  {
  }

  lemma FaithfulStep(cfg: Config, truth: map<Key, Value>, events: seq<Event>, key: Key)
    requires Uniform(cfg) && events != []
    requires Faithful(Run(cfg, truth, events[..|events| - 1]), Touched(cfg, events[..|events| - 1]), key)
    ensures Faithful(Run(cfg, truth, events), Touched(cfg, events), key)
  {
    var front, e := events[..|events| - 1], events[|events| - 1];
    var s, touched := Run(cfg, truth, front), Touched(cfg, front);
    match e
    case Invalidate(tags) =>
      InvalidationIsExact(cfg, truth, front, tags, key);
      assert front + [e] == events;
    case Change(updates) => ChangeFaithful(s, updates, touched, key);
    case Call(called) => CallFaithful(cfg, s, called, touched, key);
    case _ =>
  }

  lemma {:induction false} RunFaithful(cfg: Config, truth: map<Key, Value>, events: seq<Event>, key: Key)
    requires Uniform(cfg)
    ensures Faithful(Run(cfg, truth, events), Touched(cfg, events), key)
  {
    if events != [] {
      RunFaithful(cfg, truth, events[..|events| - 1], key);
      FaithfulStep(cfg, truth, events, key);
    }
  }

  // A call returns what the undecorated function would, unless its data changed and
  // none of its tags has been invalidated since.
  lemma CachedRefinesDirect(cfg: Config, truth: map<Key, Value>, events: seq<Event>, key: Key)
    requires Uniform(cfg) && key !in Touched(cfg, events)
    ensures var s := Run(cfg, truth, events); Answer(s, key) == Direct(s, key)
  {
    RunFaithful(cfg, truth, events, key);
  }

  // Every change is followed at once by invalidating a tag of each key it affects.
  ghost predicate Disciplined(cfg: Config, events: seq<Event>) {
    forall i | 0 <= i < |events| && events[i].Change? ::
      && i + 1 < |events| && events[i + 1].Invalidate?
      && forall key <- events[i].updates :: exists tag <- events[i + 1].tags :: Carries(cfg, key, tag)
  }

  // Nothing is left touched but by a change that comes last.
  lemma {:induction false} DisciplineCleans(cfg: Config, events: seq<Event>, n: nat)
    requires Disciplined(cfg, events) && n <= |events|
    ensures n == 0 || !events[n - 1].Change? ==> Touched(cfg, events[..n]) == iset{}
    ensures n > 0 && events[n - 1].Change? ==> Touched(cfg, events[..n]) == KeysOf(events[n - 1].updates)
  {
    if n > 0 {
      DisciplineCleans(cfg, events, n - 1);
      assert events[..n][..n - 1] == events[..n - 1];
    }
  }

  // In a disciplined program every call answers as if there were no cache.
  lemma CacheIsInvisible(cfg: Config, truth: map<Key, Value>, events: seq<Event>, n: nat)
    requires Uniform(cfg) && Disciplined(cfg, events) && n < |events| && events[n].Call?
    ensures var s := Run(cfg, truth, events[..n]); Answer(s, events[n].key) == Direct(s, events[n].key)
  {
    DisciplineCleans(cfg, events, n);
    CachedRefinesDirect(cfg, truth, events[..n], events[n].key);
  }

  /******* Unequal lifetimes *******/

  lemma RunSnoc(cfg: Config, truth: map<Key, Value>, events: seq<Event>, e: Event)
    ensures Run(cfg, truth, events + [e]) == Step(cfg, Run(cfg, truth, events), e)
  {
    assert (events + [e])[..|events|] == events;
  }

  lemma RunTwo(cfg: Config, truth: map<Key, Value>, a: Event, b: Event)
    ensures Run(cfg, truth, [a, b]) == Step(cfg, Step(cfg, Init(truth), a), b)
  {
    RunSnoc(cfg, truth, [], a);
    RunSnoc(cfg, truth, [a], b);
    assert [] + [a] == [a] && [a] + [b] == [a, b];
  }

  // Two functions that share a tag but not a lifetime break the deadline invariant,
  lemma UnequalLifetimesUncover(cfg: Config, truth: map<Key, Value>, f: Key, g: Key, tag: Tag)
    requires Carries(cfg, f, tag) && Carries(cfg, g, tag) && Ttl(cfg, f.fn) > Ttl(cfg, g.fn)
    ensures !Covered(cfg, Run(cfg, truth, [Call(f), Call(g)]), f)
  {
    var a := Stored(cfg, Init(truth), f);
    RunTwo(cfg, truth, Call(f), Call(g));
    TagAllAt(a.sets, cfg.fns[g.fn].tags, g, a.now, Ttl(cfg, g.fn), tag);
    if !Live(a, g) { assert Step(cfg, a, Call(g)) == Stored(cfg, a, g); }
  }

  // and so the lifetimes agree exactly when the invariant holds in every run.
  lemma CoveredExactlyWhenUniform(cfg: Config)
    ensures Uniform(cfg) <==> forall truth, events, key :: Covered(cfg, Run(cfg, truth, events), key)
  {
    if Uniform(cfg) {
      forall truth, events, key ensures Covered(cfg, Run(cfg, truth, events), key) {
        RunInv(cfg, truth, events);
      }
    } else {
      var f, g, tag :| f in cfg.fns && g in cfg.fns && tag in cfg.fns[f].tags && tag in cfg.fns[g].tags
          && Ttl(cfg, f) != Ttl(cfg, g);
      if Ttl(cfg, f) > Ttl(cfg, g) {
        UnequalLifetimesUncover(cfg, map[], Key(f, map[]), Key(g, map[]), tag);
      } else {
        UnequalLifetimesUncover(cfg, map[], Key(g, map[]), Key(f, map[]), tag);
      }
    }
  }

  // The calls, and the time it takes the shorter lifetime to pass.
  function Outliving(cfg: Config, f: Key, g: Key): seq<Event> {
    [Call(f), Call(g)] + [Tick(Ttl(cfg, g.fn))]
  }

  // The longer-lived entry is then live and the tag's set is gone.
  lemma EntryOutlivesTag(cfg: Config, truth: map<Key, Value>, f: Key, g: Key, tag: Tag)
    requires Carries(cfg, f, tag) && Carries(cfg, g, tag) && Ttl(cfg, f.fn) > Ttl(cfg, g.fn)
    ensures var s := Run(cfg, truth, Outliving(cfg, f, g));
      && Live(s, f) && s.entries[f].payload == Direct(s, f) && s.truth == truth
      && Members(s.sets, tag, s.now) == {}
  {
    var a := Stored(cfg, Init(truth), f);
    var b := Stored(cfg, a, g);
    RunTwo(cfg, truth, Call(f), Call(g));
    assert f != g && Run(cfg, truth, [Call(f), Call(g)]) == b;
    TagAllAt(a.sets, cfg.fns[g.fn].tags, g, a.now, Ttl(cfg, g.fn), tag);
    RunSnoc(cfg, truth, [Call(f), Call(g)], Tick(Ttl(cfg, g.fn)));
  }

  // So the entry survives an invalidation of the tag, and is served though its data
  // changed before.
  lemma UnequalLifetimesServeStale(cfg: Config, truth: map<Key, Value>, f: Key, g: Key, tag: Tag, value: Value)
    requires Carries(cfg, f, tag) && Carries(cfg, g, tag)
    requires Ttl(cfg, f.fn) > Ttl(cfg, g.fn) && value != Direct(Init(truth), f)
    ensures var events := Outliving(cfg, f, g) + [Change(map[f := value])] + [Invalidate([tag])];
      var s := Run(cfg, truth, events);
      f !in Touched(cfg, events) && Answer(s, f) != Direct(s, f)
  {
    var three := Outliving(cfg, f, g);
    var four := three + [Change(map[f := value])];
    EntryOutlivesTag(cfg, truth, f, g, tag);
    RunSnoc(cfg, truth, three, Change(map[f := value]));
    RunSnoc(cfg, truth, four, Invalidate([tag]));
    NothingInvalidated(Run(cfg, truth, four), tag);
    assert (four + [Invalidate([tag])])[..|four|] == four;
    assert tag in [tag] && Carries(cfg, f, tag);
  }

  // Functions that share a tag live equally long if and only if every invalidation in
  // every run is exact.
  lemma ExactExactlyWhenUniform(cfg: Config)
    ensures Uniform(cfg) <==> forall truth, events, tags, key :: Exact(cfg, truth, events, tags, key)
  {
    if Uniform(cfg) {
      forall truth, events, tags, key ensures Exact(cfg, truth, events, tags, key) {
        InvalidationIsExact(cfg, truth, events, tags, key);
      }
    } else {
      var f, g, tag :| f in cfg.fns && g in cfg.fns && tag in cfg.fns[f].tags && tag in cfg.fns[g].tags
        && Ttl(cfg, f) != Ttl(cfg, g);
      if Ttl(cfg, f) > Ttl(cfg, g) {
        UnequalLifetimesMiss(cfg, Key(f, map[]), Key(g, map[]), tag);
      } else {
        UnequalLifetimesMiss(cfg, Key(g, map[]), Key(f, map[]), tag);
      }
    }
  }

  lemma UnequalLifetimesMiss(cfg: Config, f: Key, g: Key, tag: Tag)
    requires Carries(cfg, f, tag) && Carries(cfg, g, tag) && Ttl(cfg, f.fn) > Ttl(cfg, g.fn)
    ensures !Exact(cfg, map[], Outliving(cfg, f, g), [tag], f)
  {
    var three := Outliving(cfg, f, g);
    EntryOutlivesTag(cfg, map[], f, g, tag);
    RunSnoc(cfg, map[], three, Invalidate([tag]));
    NothingInvalidated(Run(cfg, map[], three), tag);
    assert tag in [tag];
  }

  lemma NothingInvalidated(s: State, tag: Tag)
    requires Members(s.sets, tag, s.now) == {}
    ensures Invalidated(s, [tag]).entries == s.entries
  {
    assert MembersOfAll(s.sets, [tag], s.now) == {};
  }

  /******* Staleness *******/

  // The value of an entry was the function's, one lifetime before its deadline.
  ghost predicate Once(cfg: Config, truth: map<Key, Value>, events: seq<Event>, key: Key, entry: Entry, j: nat) {
    && j <= |events|
    && var then_ := Run(cfg, truth, events[..j]);
       entry == Entry(Direct(then_, key), then_.now + Ttl(cfg, key.fn))
  }

  lemma {:induction false} EntriesWereTrue(cfg: Config, truth: map<Key, Value>, events: seq<Event>, key: Key)
    returns (j: nat)
    requires key in Run(cfg, truth, events).entries
    ensures Once(cfg, truth, events, key, Run(cfg, truth, events).entries[key], j)
  {
    var front := events[..|events| - 1];
    var s, t := Run(cfg, truth, front), Run(cfg, truth, events);
    if key in s.entries && s.entries[key] == t.entries[key] {
      j := EntriesWereTrue(cfg, truth, front, key);
      assert events[..j] == front[..j];
    } else {
      j := |front|;
      assert events[|front|].Call? && t == Stored(cfg, s, events[|front|].key);
    }
  }

  // With or without discipline, a call returns what the function would have returned
  // less than one lifetime ago.
  lemma StalenessIsBounded(cfg: Config, truth: map<Key, Value>, events: seq<Event>, key: Key)
    ensures var s := Run(cfg, truth, events);
      exists j | 0 <= j <= |events| ::
        var then_ := Run(cfg, truth, events[..j]);
        Answer(s, key) == Direct(then_, key) && then_.now > s.now - Ttl(cfg, key.fn)
  {
    var s := Run(cfg, truth, events);
    if Live(s, key) {
      var j := EntriesWereTrue(cfg, truth, events, key);
    } else {
      assert events[..|events|] == events;
    }
  }
}
