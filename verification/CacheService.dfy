/**
  The decorator and the invalidation as the code runs them over Redis, and how a
  call's arguments become its key.
 */
module CacheService {
  import opened Options
  import opened Cache

  /******* Binding arguments *******/

  datatype Param = Param(name: string, default: Option<string>)

  type Arguments = map<string, string>

  predicate Accepts(params: seq<Param>, positional: seq<string>, keywords: Arguments) {
    && |positional| <= |params|
    && (forall k <- keywords :: exists i | |positional| <= i < |params| :: params[i].name == k)
    && (forall i | |positional| <= i < |params| :: params[i].name in keywords || params[i].default.Some?)
  }

  // The value of the i-th parameter, as text.
  function ValueOf(params: seq<Param>, positional: seq<string>, keywords: Arguments, i: nat): string
    requires Accepts(params, positional, keywords) && i < |params|
  {
    if i < |positional| then positional[i]
    else if params[i].name in keywords then keywords[params[i].name]
    else params[i].default.value
  }

  // `bind` then `apply_defaults`: names and values in the order of the parameters.
  function Bound(params: seq<Param>, positional: seq<string>, keywords: Arguments): Option<seq<(string, string)>> {
    if Accepts(params, positional, keywords)
    then Some(seq(|params|, (i: nat) requires i < |params| =>
                (params[i].name, ValueOf(params, positional, keywords, i))))
    else None
  }

  function ToMap(items: seq<(string, string)>): Arguments {
    if items == [] then map[]
    else ToMap(items[..|items| - 1])[items[|items| - 1].0 := items[|items| - 1].1]
  }

  predicate Distinct(params: seq<Param>) {
    forall i, j | 0 <= i < j < |params| :: params[i].name != params[j].name
  }

  // An argument given by position or by name is the same argument.
  lemma PositionOrName(params: seq<Param>, positional: seq<string>, keywords: Arguments)
    requires Distinct(params) && 0 < |positional| <= |params| && params[|positional| - 1].name !in keywords
    ensures var n := |positional| - 1;
      Bound(params, positional, keywords) == Bound(params, positional[..n], keywords[params[n].name := positional[n]])
  {
    var n := |positional| - 1;
    var fewer, more := positional[..n], keywords[params[n].name := positional[n]];
    if Accepts(params, positional, keywords) {
      forall k | k in more ensures exists i | n <= i < |params| :: params[i].name == k {
        if k in keywords { var i :| |positional| <= i < |params| && params[i].name == k; }
      }
      assert Accepts(params, fewer, more);
      assert Bound(params, positional, keywords).value == Bound(params, fewer, more).value;
    } else if Accepts(params, fewer, more) {
      forall k | k in keywords ensures exists i | |positional| <= i < |params| :: params[i].name == k {
        assert k in more;
        var i :| n <= i < |params| && params[i].name == k;
      }
    }
  }

  // So is one left to its default or given it.
  lemma DefaultOrSpelled(params: seq<Param>, positional: seq<string>, keywords: Arguments, i: nat)
    requires Distinct(params) && |positional| <= i < |params| && params[i].name !in keywords && params[i].default.Some?
    ensures Bound(params, positional, keywords) ==
      Bound(params, positional, keywords[params[i].name := params[i].default.value])
  {
    var spelled := keywords[params[i].name := params[i].default.value];
    if Accepts(params, positional, keywords) {
      assert Accepts(params, positional, spelled);
      assert Bound(params, positional, keywords).value == Bound(params, positional, spelled).value;
    } else if Accepts(params, positional, spelled) {
      forall k | k in keywords ensures exists j | |positional| <= j < |params| :: params[j].name == k {
        assert k in spelled;
      }
    }
  }

  // Two calls share an entry exactly when they are of one function and agree on
  // every argument but the ignored ones.
  lemma SameKeyExactly(f: FnId, a: Arguments, g: FnId, b: Arguments)
    ensures GenerateKey(f, a) == GenerateKey(g, b) <==>
      && f == g
      && (forall name | name !in IGNORED :: name in a <==> name in b)
      && (forall name | name !in IGNORED && name in a && name in b :: a[name] == b[name])
  {
    var ka, kb := GenerateKey(f, a).args, GenerateKey(g, b).args;
    if ka == kb {
      forall name | name !in IGNORED ensures name in a <==> name in b {
        assert name in ka <==> name in kb;
      }
      forall name | name !in IGNORED && name in a && name in b ensures a[name] == b[name] {
        assert ka[name] == kb[name];
      }
    }
  }

  method GenerateCacheKey(fn: FnId, bound: seq<(string, string)>) returns (key: Key)
    ensures key == GenerateKey(fn, ToMap(bound))
  {
    var cacheKwargs: Arguments := map[];
    for i := 0 to |bound|
      invariant cacheKwargs == GenerateKey(fn, ToMap(bound[..i])).args
    {
      assert bound[..i + 1][..i] == bound[..i];
      var (name, value) := bound[i];
      if name !in IGNORED {
        cacheKwargs := cacheKwargs[name := value];
      }
    }
    assert bound[..|bound|] == bound;
    return Key(fn, cacheKwargs);
  }

  /******* Redis *******/

  class RedisServer {
    var now: Time
    var entries: map<Key, Entry>
    var sets: TagSets

    constructor ()
      ensures now == 0 && entries == map[] && sets == map[]
    {
      now, entries, sets := 0, map[], map[];
    }

    method Get(key: Key) returns (payload: Option<Value>)
      ensures payload == if key in entries && entries[key].deadline > now then Some(entries[key].payload) else None
    {
      if key in entries && entries[key].deadline > now {
        return Some(entries[key].payload);
      }
      return None;
    }

    method Set(key: Key, payload: Value, ttl: Lifetime)
      modifies this`entries
      ensures entries == old(entries)[key := Entry(payload, now + ttl)]
    {
      entries := entries[key := Entry(payload, now + ttl)];
    }

    method SMembers(tag: Tag) returns (members: set<Key>)
      ensures members == Members(sets, tag, now)
    {
      if tag in sets && sets[tag].deadline > now {
        return sets[tag].members;
      }
      return {};
    }

    method SAdd(tag: Tag, key: Key)
      modifies this`sets
      ensures tag in sets && sets == old(sets)[tag := sets[tag]]
      ensures sets[tag].members == Members(old(sets), tag, now) + {key}
    {
      if tag in sets && sets[tag].deadline > now {
        sets := sets[tag := sets[tag].(members := sets[tag].members + {key})];
      } else {
        sets := sets[tag := TagSet({key}, now)];
      }
    }

    method Expire(tag: Tag, ttl: Lifetime)
      requires tag in sets
      modifies this`sets
      ensures sets == old(sets)[tag := old(sets)[tag].(deadline := now + ttl)]
    {
      sets := sets[tag := sets[tag].(deadline := now + ttl)];
    }

    method Delete(keys: set<Key>, tags: seq<Tag>)
      modifies this`entries, this`sets
      ensures entries == old(entries) - keys && sets == old(sets) - AsSet(tags)
    {
      entries := entries - keys;
      sets := sets - AsSet(tags);
    }
  }

  lemma InvalidatingNothing(s: State)
    ensures Invalidated(s, []) == s
  {
    var none: seq<Tag> := [];
    assert AsSet(none) == {};
    assert MembersOfAll(s.sets, none, s.now) == {};
    assert s.entries - {} == s.entries && s.sets - {} == s.sets;
  }

  class CachedProgram {
    const cfg: Config
    const redis: RedisServer
    var truth: map<Key, Value>

    constructor (cfg: Config, truth: map<Key, Value>)
      ensures this.cfg == cfg && Current() == Init(truth) && fresh(redis)
    {
      this.cfg, this.truth := cfg, truth;
      redis := new RedisServer();
    }

    ghost function Current(): State
      reads this, redis
    {
      State(redis.now, redis.entries, redis.sets, truth)
    }

    // The undecorated function.
    method Compute(key: Key) returns (result: Value)
      ensures result == Direct(Current(), key)
    {
      result := if key in truth then truth[key] else 0;
    }

    // The decorator's wrapper.
    method Call(key: Key) returns (result: Value)
      requires key.fn in cfg.fns
      modifies redis
      ensures Current() == Step(cfg, old(Current()), Event.Call(key))
      ensures result == Answer(old(Current()), key)
    {
      var fn := cfg.fns[key.fn];
      var actualTtl := if fn.ttl.Some? then fn.ttl.value else cfg.defaultTtl;
      var cached := redis.Get(key);
      if cached.Some? {
        return cached.value;
      }
      result := Compute(key);
      redis.Set(key, result, actualTtl);
      ghost var sets := redis.sets;
      for i := 0 to |fn.tags|
        invariant redis.sets == TagAll(sets, fn.tags[..i], key, redis.now, actualTtl)
        invariant redis.entries == old(redis.entries)[key := Entry(result, redis.now + actualTtl)]
        invariant redis.now == old(redis.now)
      {
        assert fn.tags[..i + 1][..i] == fn.tags[..i];
        redis.SAdd(fn.tags[i], key);
        redis.Expire(fn.tags[i], actualTtl);
      }
      assert fn.tags[..|fn.tags|] == fn.tags;
    }

    method InvalidateTags(tags: seq<Tag>)
      modifies redis
      ensures Current() == Step(cfg, old(Current()), Invalidate(tags))
    {
      if tags == [] {
        InvalidatingNothing(Current());
        return;
      }
      var keysToDelete: set<Key> := {};
      for i := 0 to |tags|
        invariant Current() == old(Current())
        invariant keysToDelete == MembersOfAll(redis.sets, tags[..i], redis.now)
      {
        assert tags[..i + 1] == tags[..i] + [tags[i]];
        var members := redis.SMembers(tags[i]);
        keysToDelete := keysToDelete + members;
      }
      assert tags[..|tags|] == tags;
      redis.Delete(keysToDelete, tags);
    }

    // The data behind the functions changes.
    method Change(updates: map<Key, Value>)
      modifies this`truth
      ensures Current() == Step(cfg, old(Current()), Event.Change(updates))
    {
      truth := truth + updates;
    }
  }
}
