/**
  Accounts and outbox together: a sign-up or a new link commits its mail's outbox row
  in its own transaction, while relays, cleanup and other transactions do as they like.
 */
module MailDelivery {
  import opened Options
  import T = AuthTables
  import A = AuthProtocol
  import AI = AuthInvariant
  import AT = AuthTheorems
  import O = Outbox
  import OT = OutboxTheorems
  import OS = OutboxService

  datatype Config = Config(auth: A.Config, outbox: O.Config, render: T.Mail -> O.Payload)

  datatype State = State(auth: A.State, outbox: O.State)

  // An account event, with the ids its mail's transaction and row get if it sends one.
  datatype Event = Account(e: A.Event, tx: O.TxId, id: O.RowId) | Delivery(d: O.Event)

  function Init(cfg: Config): State {
    State(A.Init(cfg.auth), O.Init(cfg.outbox))
  }

  // The mail an account event sends.
  function Sent(s: State, e: A.Event): Option<T.Mail> {
    var before, after := s.auth.db.outbox, A.Step(s.auth, e).db.outbox;
    if |after| > |before| then Some(after[|after| - 1]) else None
  }

  predicate Unused(s: State, tx: O.TxId, id: O.RowId) {
    tx !in s.outbox.seenTxs && id !in s.outbox.seenIds
  }

  // What an event does in either system; an event that sends needs unused ids.
  function AccountPart(s: State, event: Event): seq<A.Event> {
    match event
    case Account(e, tx, id) => if Sent(s, e).None? || Unused(s, tx, id) then [e] else []
    case Delivery(_) => []
  }

  function DeliveryPart(cfg: Config, s: State, event: Event): seq<O.Event> {
    match event
    case Account(e, tx, id) =>
      if Sent(s, e).Some? && Unused(s, tx, id) then OS.Mailing(tx, id, cfg.render(Sent(s, e).value)) else []
    case Delivery(d) => [d]
  }

  function Step(cfg: Config, s: State, event: Event): State {
    State(A.Run(s.auth, AccountPart(s, event)), O.Run(s.outbox, DeliveryPart(cfg, s, event)))
  }

  function Run(cfg: Config, events: seq<Event>): State {
    if events == [] then Init(cfg)
    else Step(cfg, Run(cfg, events[..|events| - 1]), events[|events| - 1])
  }

  function AccountEvents(cfg: Config, events: seq<Event>): seq<A.Event> {
    if events == [] then []
    else
      var front := events[..|events| - 1];
      AccountEvents(cfg, front) + AccountPart(Run(cfg, front), events[|events| - 1])
  }

  function DeliveryEvents(cfg: Config, events: seq<Event>): seq<O.Event> {
    if events == [] then []
    else
      var front := events[..|events| - 1];
      DeliveryEvents(cfg, front) + DeliveryPart(cfg, Run(cfg, front), events[|events| - 1])
  }

  // Either half of a joint run is a run of its own system.
  lemma {:induction false} Projections(cfg: Config, events: seq<Event>)
    ensures var s := Run(cfg, events);
      && s.auth == A.Run(A.Init(cfg.auth), AccountEvents(cfg, events))
      && s.outbox == O.Run(O.Init(cfg.outbox), DeliveryEvents(cfg, events))
  {
    if events != [] {
      var front, event := events[..|events| - 1], events[|events| - 1];
      var s := Run(cfg, front);
      Projections(cfg, front);
      A.RunConcat(A.Init(cfg.auth), AccountEvents(cfg, front), AccountPart(s, event));
      OS.RunConcat(O.Init(cfg.outbox), DeliveryEvents(cfg, front), DeliveryPart(cfg, s, event));
    }
  }

  /******* Every mail has its row *******/

  ghost predicate RowFor(cfg: Config, s: State, mail: T.Mail, id: O.RowId) {
    && id in s.outbox.born
    && s.outbox.born[id].task == "send_email_task" && s.outbox.born[id].payload == cfg.render(mail)
  }

  ghost predicate AllCarried(cfg: Config, s: State) {
    forall mail <- s.auth.db.outbox :: exists id :: RowFor(cfg, s, mail, id)
  }

  lemma {:induction false} BornStays(s: O.State, events: seq<O.Event>, id: O.RowId)
    requires O.Inv(s) && id in s.born
    ensures O.Inv(O.Run(s, events)) && id in O.Run(s, events).born && O.Run(s, events).born[id] == s.born[id]
  {
    if events != [] {
      var front, e := events[..|events| - 1], events[|events| - 1];
      BornStays(s, front, id);
      O.StepInv(O.Run(s, front), e);
      OT.BornGrows(O.Run(s, front), e, id);
    }
  }

  // An account event appends the mail it sends, if it sends one.
  lemma OutboxAfter(s: State, e: A.Event)
    ensures A.Step(s.auth, e).db.outbox == s.auth.db.outbox + if Sent(s, e).Some? then [Sent(s, e).value] else []
  {
    AI.StepEffect(s.auth, e);
  }

  lemma CarriedStep(cfg: Config, s: State, event: Event)
    requires O.Inv(s.outbox) && AllCarried(cfg, s)
    ensures AllCarried(cfg, Step(cfg, s, event))
  {
    var t := Step(cfg, s, event);
    forall mail | mail in t.auth.db.outbox ensures exists id :: RowFor(cfg, t, mail, id) {
      if mail in s.auth.db.outbox {
        var id :| RowFor(cfg, s, mail, id);
        BornStays(s.outbox, DeliveryPart(cfg, s, event), id);
        assert RowFor(cfg, t, mail, id);
      } else {
        NewMail(s, event, mail);
        OS.RegisteredEventWaits(s.outbox, event.tx, event.id, cfg.render(mail));
        assert RowFor(cfg, t, mail, event.id);
      }
    }
  }

  lemma NewMail(s: State, event: Event, mail: T.Mail)
    requires mail in A.Run(s.auth, AccountPart(s, event)).db.outbox && mail !in s.auth.db.outbox
    ensures event.Account? && Sent(s, event.e) == Some(mail) && Unused(s, event.tx, event.id)
  {
    if event.Account? && AccountPart(s, event) != [] {
      OutboxAfter(s, event.e);
      A.RunSnoc(s.auth, [], event.e);
      assert [] + [event.e] == [event.e];
    }
  }

  lemma {:induction false} RunCarries(cfg: Config, events: seq<Event>)
    ensures AllCarried(cfg, Run(cfg, events))
  {
    if events != [] {
      var front := events[..|events| - 1];
      RunCarries(cfg, front);
      Projections(cfg, front);
      O.RunInv(cfg.outbox, DeliveryEvents(cfg, front));
      CarriedStep(cfg, Run(cfg, front), events[|events| - 1]);
    }
  }

  // In every run the mail with a user's pending link has an outbox row, and the row is
  // waiting, or was taken by the queue, or is parked.
  lemma PendingLinkIsMailed(cfg: Config, events: seq<Event>, uid: T.UserId, kind: T.LinkKind)
    requires var s := Run(cfg, events); uid in s.auth.db.users && T.Pending(s.auth.db.users[uid], kind).Some?
    ensures var s := Run(cfg, events);
      exists id, place ::
        && RowFor(cfg, s, T.Mail(uid, T.Pending(s.auth.db.users[uid], kind).value), id)
        && OT.At(s.outbox, id, place)
        && (place.Waiting? || place.Parked? || OT.Times(OT.Taking, cfg.outbox, DeliveryEvents(cfg, events), id) >= 1)
  {
    var s := Run(cfg, events);
    Projections(cfg, events);
    AT.AfterInv(cfg.auth, AccountEvents(cfg, events));
    RunCarries(cfg, events);
    var mail := T.Mail(uid, T.Pending(s.auth.db.users[uid], kind).value);
    assert mail in s.auth.db.outbox;
    var id :| RowFor(cfg, s, mail, id);
    OT.PlacedOnce(cfg.outbox, DeliveryEvents(cfg, events), id);
  }
}
