/**
 * One proxy connection joined to one backend: the frames in flight between them, and why talk
 * about a key that both ends have forgotten dies out (proxy/multiplexer.go:115-136 against
 * backend/backend.go:129-145 and 169-174).
 */
module Chatter {
  import opened Envelope
  import opened Multiplexer
  import opened BackendEndpoint

  /**
   * In flight to the backend: `m.queue` and then `m.wire`; to the proxy: `e.responses`.
   * `holders` are the keys some frontend still uses, `connecting` those of a connect that has found
   * its key in the table and not sent its frame yet, `handlers` those a backend handler still
   * serves: closing its responder does not stop it. `elsewhere` are the keys that other connections
   * issued, whose frames may be looked up onto this one after a replacement.
   */
  datatype Link = Link(
    m: Mux, e: Endpoint, holders: set<string>, connecting: set<string>, handlers: set<string>, elsewhere: set<string>)

  datatype Action =
    | BackendReads
    | ProxyReads
    | ReaderDelivers
    | ReaderGivesUp
    | ReaderComplains(here: bool)  // whether the host is still served by this connection
    | WriterWrites
    | NewClient(key: string)
    | NewClientElsewhere(key: string)
    | ClientChecks(key: string)
    | ClientConnects(key: string, url: string, taken: bool)
    | ClientSends(key: string, kind: string, body: string)
    | ClientReleases(key: string)
    | ClientLeaves(key: string)
    | HandlerSends(key: string, kind: string, body: string)
    | HandlerExits(key: string)
    | ShutsDown(step: MuxAction)

  /** Some connection has issued the key, so the random source does not yield it again. */
  predicate Issued(l: Link, key: string) {
    key in Keys(l.m) || key in l.elsewhere
  }

  function Apply(l: Link, a: Action, route: string -> Route): Link {
    match a
    case BackendReads =>
      if l.m.wire == [] then l
      else
        var msg := l.m.wire[0];
        l.(m := l.m.(wire := l.m.wire[1..]),
           e := Dispatch(l.e, msg, route),
           handlers := if msg.kind == CONNECT && route(msg.body) == Found then l.handlers + {msg.key} else l.handlers)
    case ProxyReads =>
      if l.e.responses == [] || l.m.reader != Idle then l
      else l.(m := ApplyMux(l.m, Receive(l.e.responses[0])), e := l.e.(responses := l.e.responses[1..]))
    case ReaderDelivers => l.(m := ApplyMux(l.m, Deliver))
    case ReaderGivesUp => l.(m := ApplyMux(l.m, GiveUp))
    case ReaderComplains(here) =>
      if !l.m.reader.Complaining? then l
      else
        var key, m := l.m.reader.key, ApplyMux(l.m, Complained);
        l.(m := if here then ApplyMux(ApplyMux(m, Enqueue(Message(key, CLOSE, ""))), CloseClient(key)) else m)
    case WriterWrites => l.(m := ApplyMux(l.m, WriteOut))
    case NewClient(key) =>
      if Issued(l, key) then l else l.(m := ApplyMux(l.m, Register(key)), holders := l.holders + {key})
    case NewClientElsewhere(key) =>
      if Issued(l, key) then l else l.(elsewhere := l.elsewhere + {key}, holders := l.holders + {key})
    case ClientChecks(key) =>
      if key in l.holders && key in l.m.frontendChans then l.(connecting := l.connecting + {key}) else l
    case ClientConnects(key, url, taken) =>
      if key !in l.connecting then l
      else if taken then l.(m := ApplyMux(l.m, Enqueue(Message(key, CONNECT, url))), connecting := l.connecting - {key})
      else l.(connecting := l.connecting - {key})
    case ClientSends(key, kind, body) =>
      if key in l.holders && kind != CONNECT then l.(m := ApplyMux(l.m, Enqueue(Message(key, kind, body)))) else l
    case ClientReleases(key) =>
      if key in l.holders then l.(m := ApplyMux(l.m, CloseClient(key))) else l
    case ClientLeaves(key) => l.(holders := l.holders - {key})
    case HandlerSends(key, kind, body) =>
      if key in l.handlers then l.(e := l.e.(responses := l.e.responses + [Message(key, kind, body)])) else l
    case HandlerExits(key) => l.(handlers := l.handlers - {key})
    case ShutsDown(step) =>
      if step in {CloseDone, MarkRemoved, Drain} then l.(m := ApplyMux(l.m, step)) else l
  }

  function Run(l: Link, actions: seq<Action>, route: string -> Route): Link {
    if actions == [] then l
    else Apply(Run(l, actions[..|actions| - 1], route), actions[|actions| - 1], route)
  }

  // ----- the weight of what is in flight about one key -----

  function Weight(frames: seq<Message>, key: string, close: nat, other: nat): nat {
    if frames == [] then 0
    else
      var first := if frames[0].key != key then 0 else if frames[0].kind == CLOSE then close else other;
      first + Weight(frames[1..], key, close, other)
  }

  lemma {:induction false} WeightAppend(a: seq<Message>, b: seq<Message>, key: string, close: nat, other: nat)
    ensures Weight(a + b, key, close, other) == Weight(a, key, close, other) + Weight(b, key, close, other)
    decreases |a|
  {
    if a == [] {
      assert a + b == b;
    } else {
      assert (a + b)[1..] == a[1..] + b;
      WeightAppend(a[1..], b, key, close, other);
    }
  }

  lemma WeightSnoc(a: seq<Message>, msg: Message, key: string, close: nat, other: nat)
    ensures Weight(a + [msg], key, close, other)
         == Weight(a, key, close, other) + (if msg.key != key then 0 else if msg.kind == CLOSE then close else other)
  {
    WeightAppend(a, [msg], key, close, other);
    assert [msg][1..] == [];
  }

  /**
   * To the backend a Close weighs 1 and anything else 2; a pending complaint 2; to the proxy a Close
   * 1, anything else 3.
   */
  function InFlight(l: Link, key: string): nat {
    Weight(l.m.queue, key, 1, 2) + Weight(l.m.wire, key, 1, 2) + Weight(l.e.responses, key, 1, 3)
      + (if l.m.reader == Complaining(key) then 2 else 0)
  }

  /** No channel at the proxy, no responder at the backend, and no Connect in flight. */
  ghost predicate Forgotten(l: Link, key: string) {
    && Issued(l, key)
    && key !in l.m.frontendChans
    && !(l.m.reader.Holding? && l.m.reader.msg.key == key)
    && key !in l.e.responders
    && key !in l.connecting
    && (forall n :: 0 <= n < |l.m.queue| ==> !(l.m.queue[n].key == key && l.m.queue[n].kind == CONNECT))
    && (forall n :: 0 <= n < |l.m.wire| ==> !(l.m.wire[n].key == key && l.m.wire[n].kind == CONNECT))
  }

  /** What a frontend or a handler that still has the key adds to the weight by this step. */
  function Injected(l: Link, a: Action, key: string): nat {
    match a
    case ClientSends(k, kind, _) => if k == key && k in l.holders && kind != CONNECT
      then (if kind == CLOSE then 1 else 2) else 0
    case HandlerSends(k, kind, _) => if k == key && k in l.handlers then (if kind == CLOSE then 1 else 3) else 0
    case _ => 0
  }

  /** The step takes a frame about the key off the link, or acts on a complaint about it. */
  predicate Handles(l: Link, a: Action, key: string) {
    || (a.BackendReads? && l.m.wire != [] && l.m.wire[0].key == key)
    || (a.ProxyReads? && l.e.responses != [] && l.m.reader == Idle && l.e.responses[0].key == key)
    || (a.ReaderComplains? && l.m.reader == Complaining(key))
  }

  lemma EnqueueWeighs(m: Mux, msg: Message, key: string)
    ensures var m' := ApplyMux(m, Enqueue(msg));
      Weight(m'.queue, key, 1, 2) <=
        Weight(m.queue, key, 1, 2) + (if msg.key != key then 0 else if msg.kind == CLOSE then 1 else 2)
  {
    WeightSnoc(m.queue, msg, key, 1, 2);
  }

  /** Whatever the backend reads about the key, the weight falls by exactly 1: a Body is answered by one Close. */
  lemma ForgottenBackendReads(l: Link, key: string, route: string -> Route)
    requires Forgotten(l, key) && l.m.wire != []
    ensures var l' := Apply(l, BackendReads, route);
      && Forgotten(l', key) && l'.m.wire == l.m.wire[1..]
      && InFlight(l', key) == InFlight(l, key) - (if l.m.wire[0].key == key then 1 else 0)
  {
    var msg := l.m.wire[0];
    WeightSnoc(l.e.responses, Message(msg.key, CLOSE, ""), key, 1, 3);
    AnswersAfter(l.e, msg, route);
  }

  /** Whatever the proxy reads about the key, it falls by exactly 1: anything but a Close becomes a complaint. */
  lemma ForgottenProxyReads(l: Link, key: string, route: string -> Route)
    requires Forgotten(l, key) && l.e.responses != [] && l.m.reader == Idle
    ensures var l' := Apply(l, ProxyReads, route);
      && Forgotten(l', key) && l'.e.responses == l.e.responses[1..]
      && InFlight(l', key) == InFlight(l, key) - (if l.e.responses[0].key == key then 1 else 0)
  {
    MuxStepReader(l.m, Receive(l.e.responses[0]));
  }

  /** A complaint turns into at most one Close. */
  lemma ForgottenComplaint(l: Link, key: string)
    requires Forgotten(l, key) && l.m.reader.Complaining?
    ensures var l' := l.(m := ApplyMux(l.m, Complained));
      Forgotten(l', key) && InFlight(l', key) == InFlight(l, key) - (if l.m.reader.key == key then 2 else 0)
  {
    MuxStepMonotone(l.m, Complained);
  }

  lemma ForgottenCloseQueued(l: Link, k: string, key: string)
    requires Forgotten(l, key)
    ensures var l' := l.(m := ApplyMux(l.m, Enqueue(Message(k, CLOSE, ""))));
      Forgotten(l', key)
      && InFlight(l', key) == InFlight(l, key) + (if k == key && Takes(l.m, Message(k, CLOSE, "")) then 1 else 0)
  {
    WeightSnoc(l.m.queue, Message(k, CLOSE, ""), key, 1, 2);
    MuxStepMonotone(l.m, Enqueue(Message(k, CLOSE, "")));
  }

  lemma ForgottenCloseClient(l: Link, k: string, key: string)
    requires Forgotten(l, key)
    ensures var l' := l.(m := ApplyMux(l.m, CloseClient(k)));
      Forgotten(l', key) && InFlight(l', key) == InFlight(l, key)
  {
    MuxStepMonotone(l.m, CloseClient(k));
  }

  /** A complaint about the key is gone, and with it its weight but for the one Close that was queued. */
  lemma ForgottenReaderComplains(l: Link, here: bool, key: string, route: string -> Route)
    requires Forgotten(l, key) && l.m.reader.Complaining?
    ensures var l' := Apply(l, ReaderComplains(here), route);
      && Forgotten(l', key) && l'.m.reader == Idle
      && InFlight(l', key) == InFlight(l, key)
           - (if l.m.reader.key != key then 0 else if here && Takes(l.m, Message(key, CLOSE, "")) then 1 else 2)
  {
    ForgottenComplaint(l, key);
    var l1 := l.(m := ApplyMux(l.m, Complained));
    ForgottenCloseQueued(l1, l.m.reader.key, key);
    ForgottenCloseClient(l1.(m := ApplyMux(l1.m, Enqueue(Message(l.m.reader.key, CLOSE, "")))), l.m.reader.key, key);
  }

  /** Steps that only move the connection itself, without new frames. */
  lemma ForgottenMuxStep(l: Link, step: MuxAction, key: string)
    requires Forgotten(l, key) && step in {Deliver, GiveUp, CloseDone, MarkRemoved, Drain}
    ensures var l' := l.(m := ApplyMux(l.m, step)); Forgotten(l', key) && InFlight(l', key) <= InFlight(l, key)
  {
    MuxStepMonotone(l.m, step);
  }

  lemma ForgottenWriterWrites(l: Link, key: string)
    requires Forgotten(l, key)
    ensures var l' := l.(m := ApplyMux(l.m, WriteOut)); Forgotten(l', key) && InFlight(l', key) == InFlight(l, key)
  {
    MuxStepMonotone(l.m, WriteOut);
    if l.m.queue != [] {
      WeightSnoc(l.m.wire, l.m.queue[0], key, 1, 2);
    }
  }

  /** What the clients do: register, close or send, no Connect for the key among it. */
  lemma ForgottenClientStep(l: Link, step: MuxAction, key: string)
    requires Forgotten(l, key)
    requires (step.Register? && step.key != key) || step.CloseClient? ||
      (step.Enqueue? && (step.frame.key != key || step.frame.kind != CONNECT))
    ensures var l' := l.(m := ApplyMux(l.m, step));
      Forgotten(l', key) && InFlight(l', key) <= InFlight(l, key)
        + if step.Enqueue? && step.frame.key == key then (if step.frame.kind == CLOSE then 1 else 2) else 0
  {
    MuxStepMonotone(l.m, step);
    if step.Enqueue? {
      EnqueueWeighs(l.m, step.frame, key);
    }
  }

  lemma ForgottenQuietStep(l: Link, a: Action, key: string, route: string -> Route)
    requires Forgotten(l, key)
    requires !a.BackendReads? && !a.ProxyReads? && !a.ReaderComplains?
    ensures Forgotten(Apply(l, a, route), key) &&
      InFlight(Apply(l, a, route), key) <= InFlight(l, key) + Injected(l, a, key)
  {
    match a
    case WriterWrites => ForgottenWriterWrites(l, key);
    case ReaderDelivers => ForgottenMuxStep(l, Deliver, key);
    case ReaderGivesUp => ForgottenMuxStep(l, GiveUp, key);
    case ShutsDown(step) => if step in {CloseDone, MarkRemoved, Drain} { ForgottenMuxStep(l, step, key); }
    case NewClient(k) => if k != key { ForgottenClientStep(l, Register(k), key); }
    case ClientConnects(k, url, _) => if k != key { ForgottenClientStep(l, Enqueue(Message(k, CONNECT, url)), key); }
    case ClientSends(k, kind, body) =>
      if kind != CONNECT { ForgottenClientStep(l, Enqueue(Message(k, kind, body)), key); }
    case ClientReleases(k) => ForgottenClientStep(l, CloseClient(k), key);
    case HandlerSends(k, kind, body) => WeightSnoc(l.e.responses, Message(k, kind, body), key, 1, 3);
    case NewClientElsewhere(_) => case ClientChecks(_) => case ClientLeaves(_) => case HandlerExits(_) =>
    case BackendReads => case ProxyReads => case ReaderComplains(_) =>
  }

  /**
   * Every step leaves a forgotten key forgotten; its weight grows by no more than what its own
   * frontend or handler sends, and handling one of its frames or complaints takes at least 1 off.
   */
  lemma ForgottenStep(l: Link, a: Action, key: string, route: string -> Route)
    requires Forgotten(l, key)
    ensures var l' := Apply(l, a, route);
      Forgotten(l', key) && InFlight(l', key) + (if Handles(l, a, key) then 1 else 0)
        <= InFlight(l, key) + Injected(l, a, key)
  {
    match a
    case BackendReads => if l.m.wire != [] { ForgottenBackendReads(l, key, route); }
    case ProxyReads => if l.e.responses != [] && l.m.reader == Idle { ForgottenProxyReads(l, key, route); }
    case ReaderComplains(here) => if l.m.reader.Complaining? { ForgottenReaderComplains(l, here, key, route); }
    case _ => ForgottenQuietStep(l, a, key, route);
  }

  /** How often a run handles something about the key. */
  function TimesHandled(l: Link, actions: seq<Action>, key: string, route: string -> Route): nat {
    if actions == [] then 0
    else
      var before, a := actions[..|actions| - 1], actions[|actions| - 1];
      TimesHandled(l, before, key, route) + if Handles(Run(l, before, route), a, key) then 1 else 0
  }

  /** What the frontend and the handler of the key send in a run. */
  function InjectedBy(l: Link, actions: seq<Action>, key: string, route: string -> Route): nat {
    if actions == [] then 0
    else
      var before, a := actions[..|actions| - 1], actions[|actions| - 1];
      InjectedBy(l, before, key, route) + Injected(Run(l, before, route), a, key)
  }

  /**
   * From the moment both ends have forgotten a key, whatever else they do, and however long its
   * frontend and its handler go on sending: frames and complaints about it are handled no more often
   * than the weight in flight at that moment plus the weight of what those two send.
   */
  lemma {:induction false} ChatterIsPaidFor(l: Link, actions: seq<Action>, key: string, route: string -> Route)
    requires Forgotten(l, key)
    ensures Forgotten(Run(l, actions, route), key)
    ensures TimesHandled(l, actions, key, route) + InFlight(Run(l, actions, route), key)
      <= InFlight(l, key) + InjectedBy(l, actions, key, route)
    decreases |actions|
  {
    if actions == [] {
    } else {
      var before, a := actions[..|actions| - 1], actions[|actions| - 1];
      ChatterIsPaidFor(l, before, key, route);
      ForgottenStep(Run(l, before, route), a, key, route);
    }
  }

  /** Forgotten, and neither a frontend nor a handler has the key any more. */
  ghost predicate Dead(l: Link, key: string) {
    Forgotten(l, key) && key !in l.holders && key !in l.handlers
  }

  lemma {:induction false} DeadInjectsNothing(l: Link, actions: seq<Action>, key: string, route: string -> Route)
    requires Dead(l, key)
    ensures Dead(Run(l, actions, route), key) && InjectedBy(l, actions, key, route) == 0
    decreases |actions|
  {
    ChatterIsPaidFor(l, actions, key, route);
    if actions != [] {
      DeadInjectsNothing(l, actions[..|actions| - 1], key, route);
      var l1, a := Run(l, actions[..|actions| - 1], route), actions[|actions| - 1];
      HoldersAfter(l1, a, key, route);
    }
  }

  /** Nobody takes up a forgotten key again. */
  lemma HoldersAfter(l: Link, a: Action, key: string, route: string -> Route)
    requires Forgotten(l, key)
    ensures key in Apply(l, a, route).holders ==> key in l.holders
    ensures key in Apply(l, a, route).handlers ==> key in l.handlers
  {
  }

  /**
   * So talk about a dead key dies out: it is handled a bounded number of times, the bound being the
   * weight in flight.
   */
  lemma ChatterDiesOut(l: Link, actions: seq<Action>, key: string, route: string -> Route)
    requires Dead(l, key)
    ensures Dead(Run(l, actions, route), key)
    ensures TimesHandled(l, actions, key, route) + InFlight(Run(l, actions, route), key) <= InFlight(l, key)
  {
    ChatterIsPaidFor(l, actions, key, route);
    DeadInjectsNothing(l, actions, key, route);
  }
}
