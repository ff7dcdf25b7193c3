/**
 * A Go channel, reduced to the history of what was done to it. Sending on a closed channel and
 * closing one twice both panic in Go; here both are allowed to happen and show up as an unsafe log.
 */
module Channels {
  datatype Event<+M> = Sent(msg: M) | Closed

  predicate Open<M(==)>(log: seq<Event<M>>) {
    Closed !in log
  }

  /** Closed at most once, and nothing happens afterwards. */
  predicate Safe<M>(log: seq<Event<M>>) {
    forall i :: 0 <= i < |log| - 1 ==> log[i].Sent?
  }
}

/**
 * One backend connection shared by many clients (proxy/multiplexer.go). `Mux` is its state and
 * `ApplyMux` its atomic steps, one for each critical section; the class below runs them in place.
 */
module Multiplexer {
  import opened Prelude
  import opened Channels
  import opened Envelope

  const QUEUE_CAPACITY := 10

  datatype Chan = Chan(key: string, log: seq<Event<Message>>)

  /** How far `shutdown` has come: its three steps are separate. */
  datatype Phase = Running | DoneClosed | Removed | Drained {
    function Rank(): nat {
      match this case Running => 0 case DoneClosed => 1 case Removed => 2 case Drained => 3
    }
  }

  /** The goroutine that reads from the backend: it holds the read lock while it offers a message. */
  datatype Reader = Idle | Holding(msg: Message, chan: nat) | Complaining(key: string)

  datatype Mux = Mux(
    host: string,
    sessionId: string,
    capable: bool,
    phase: Phase,
    frontendChans: map<string, nat>,
    chans: seq<Chan>,
    reader: Reader,
    queue: seq<Message>,
    wire: seq<Message>)

  function NewMux(host: string, sessionId: string, capable: bool): Mux {
    Mux(host, sessionId, capable, Running, map[], [], Idle, [], [])
  }

  /** Every key this multiplexer ever handed out. */
  function Keys(m: Mux): set<string> {
    set c | c in m.chans :: c.key
  }

  /** Channel h is the one registered under its key. */
  predicate Registered(m: Mux, h: nat)
    requires h < |m.chans|
  {
    m.chans[h].key in m.frontendChans && m.frontendChans[m.chans[h].key] == h
  }

  /** Every message sent on the channel was addressed to its key. */
  predicate Addressed(c: Chan) {
    forall i :: 0 <= i < |c.log| && c.log[i].Sent? ==> c.log[i].msg.key == c.key
  }

  function Logged(c: Chan, e: Event<Message>): Chan {
    c.(log := c.log + [e])
  }

  function CloseKey(m: Mux, key: string): Mux {
    if key in m.frontendChans && m.frontendChans[key] < |m.chans| then
      var h := m.frontendChans[key];
      m.(chans := m.chans[h := Logged(m.chans[h], Closed)], frontendChans := m.frontendChans - {key})
    else m
  }

  function DrainAll(m: Mux): Mux {
    m.(chans := seq(|m.chans|, h requires 0 <= h < |m.chans| =>
         if Registered(m, h) then Logged(m.chans[h], Closed) else m.chans[h]),
       frontendChans := map[])
  }

  /** Room in the buffer and within the wire limit; otherwise the caller waits, times out or sees `done`. */
  predicate Takes(m: Mux, f: Message) {
    |Format(f)| <= MAX_WIRE_MESSAGE_BYTES && |m.queue| < QUEUE_CAPACITY
  }

  datatype MuxAction =
    | Register(key: string)     // the locked part of initializeClient
    | CloseClient(key: string)  // the locked part of closeConnection
    | CloseDone                 // shutdown, step 1
    | MarkRemoved               // shutdown, step 2
    | Drain                     // shutdown, step 3
    | Enqueue(frame: Message)   // a send on messagesToBackend that went through
    | Receive(msg: Message)     // read lock and lookup
    | Deliver                   // the client took the message; unlock
    | GiveUp                    // ten seconds passed; unlock
    | Complained                // the reader goes on after asking for a close
    | WriteOut                  // the writer goroutine hands a frame to the socket

  /** One atomic step; a step that is blocked or does not apply changes nothing. */
  function ApplyMux(m: Mux, a: MuxAction): Mux {
    match a
    case Register(key) =>
      if m.reader.Holding? || m.phase != Running then m
      else m.(frontendChans := m.frontendChans[key := |m.chans|], chans := m.chans + [Chan(key, [])])
    case CloseClient(key) =>
      if m.reader.Holding? then m else CloseKey(m, key)
    case CloseDone =>
      if m.phase == Running then m.(phase := DoneClosed) else m
    case MarkRemoved =>
      if m.phase == DoneClosed then m.(phase := Removed) else m
    case Drain =>
      if m.reader.Holding? || m.phase != Removed then m else DrainAll(m).(phase := Drained)
    case Enqueue(f) =>
      if Takes(m, f) then m.(queue := m.queue + [f]) else m
    case Receive(msg) =>
      if m.reader != Idle then m
      else if msg.key in m.frontendChans then m.(reader := Holding(msg, m.frontendChans[msg.key]))
      else if msg.kind != CLOSE then m.(reader := Complaining(msg.key))
      else m
    case Deliver =>
      if m.reader.Holding? && m.reader.chan < |m.chans| then
        m.(chans := m.chans[m.reader.chan := Logged(m.chans[m.reader.chan], Sent(m.reader.msg))], reader := Idle)
      else m
    case GiveUp =>
      if m.reader.Holding? then m.(reader := Complaining(m.reader.msg.key)) else m
    case Complained =>
      if m.reader.Complaining? then m.(reader := Idle) else m
    case WriteOut =>
      if m.queue == [] then m else m.(wire := m.wire + [m.queue[0]], queue := m.queue[1..])
  }

  /** What a caller that waits for the lock finds: a delivery under way is over, taken or given up. */
  function Settled(m: Mux, taken: bool): Mux {
    if m.reader.Holding? then ApplyMux(m, if taken then Deliver else GiveUp) else m
  }

  /** The inductive invariant: open channels are exactly the registered ones, and the reader holds an open one. */
  ghost predicate MuxInv(m: Mux) {
    && KeyedChans(m)
    && (forall h :: 0 <= h < |m.chans| ==> Safe(m.chans[h].log) && (Open(m.chans[h].log) <==> Registered(m, h)))
    && (forall h :: 0 <= h < |m.chans| ==> Addressed(m.chans[h]))
    && (m.phase == Drained ==> m.frontendChans == map[])
    && (m.reader.Holding? ==> m.reader.msg.key in m.frontendChans && m.frontendChans[m.reader.msg.key] == m.reader.chan)
  }

  lemma ClosingAnOpenLog(log: seq<Event<Message>>, e: Event<Message>)
    requires Open(log) && Safe(log)
    ensures Safe(log + [e]) && (Open(log + [e]) <==> e.Sent?)
  {
    assert forall i :: 0 <= i < |log| ==> log[i] in log;
    assert (log + [e])[|log|] == e;
  }

  lemma CloseKeepsInv(m: Mux, key: string)
    requires MuxInv(m) && !m.reader.Holding?
    ensures MuxInv(CloseKey(m, key))
  {
    if key in m.frontendChans {
      ClosingAnOpenLog(m.chans[m.frontendChans[key]].log, Closed);
    }
  }

  lemma DrainKeepsInv(m: Mux)
    requires MuxInv(m) && !m.reader.Holding?
    ensures MuxInv(DrainAll(m).(phase := Drained))
  {
    forall h | 0 <= h < |m.chans| && Registered(m, h)
      ensures Safe(m.chans[h].log + [Closed]) && !Open(m.chans[h].log + [Closed])
    {
      ClosingAnOpenLog(m.chans[h].log, Closed);
    }
  }

  lemma DeliverKeepsInv(m: Mux)
    requires MuxInv(m) && m.reader.Holding?
    ensures MuxInv(ApplyMux(m, Deliver))
  {
    assert Registered(m, m.reader.chan);
    ClosingAnOpenLog(m.chans[m.reader.chan].log, Sent(m.reader.msg));
  }

  lemma RegisterKeepsInv(m: Mux, key: string)
    requires MuxInv(m) && key !in m.frontendChans && !m.reader.Holding? && m.phase == Running
    ensures MuxInv(ApplyMux(m, Register(key)))
  {
  }

  /** The steps that leave the channels alone. */
  lemma OtherStepsKeepInv(m: Mux, a: MuxAction)
    requires MuxInv(m) && !a.Register? && !a.CloseClient? && !a.Drain? && !a.Deliver?
    ensures MuxInv(ApplyMux(m, a))
  {
    var m' := ApplyMux(m, a);
    assert m'.chans == m.chans && m'.frontendChans == m.frontendChans;
    assert forall h :: 0 <= h < |m.chans| ==> Registered(m', h) == Registered(m, h);
  }

  /** Every step keeps the invariant, given that keys are drawn fresh. */
  lemma MuxStepKeepsInv(m: Mux, a: MuxAction)
    requires MuxInv(m)
    requires a.Register? ==> a.key !in m.frontendChans
    ensures MuxInv(ApplyMux(m, a))
  {
    match a
    case Register(key) => if !m.reader.Holding? && m.phase == Running { RegisterKeepsInv(m, key); }
    case CloseClient(key) => if !m.reader.Holding? { CloseKeepsInv(m, key); }
    case Drain => if !m.reader.Holding? { DrainKeepsInv(m); }
    case Deliver => if m.reader.Holding? { DeliverKeepsInv(m); }
    case _ => OtherStepsKeepInv(m, a);
  }

  /** Frames are handed to the socket in the order they were queued, none lost. */
  lemma MuxStepFifo(m: Mux, a: MuxAction)
    ensures m.wire + m.queue <= ApplyMux(m, a).wire + ApplyMux(m, a).queue
  {
    var m' := ApplyMux(m, a);
    if a.WriteOut? && m.queue != [] {
      assert m'.wire + m'.queue == m.wire + m.queue;
    }
  }

  /** The writer hands over the frame that has waited longest. */
  lemma WriterHandsOver(m: Mux)
    requires m.queue != []
    ensures ApplyMux(m, WriteOut) == m.(wire := m.wire + [m.queue[0]], queue := m.queue[1..])
  {
  }

  /** Channels are only ever added, and only by a registration before the drain. */
  lemma MuxStepChans(m: Mux, a: MuxAction)
    ensures var m' := ApplyMux(m, a);
      && |m.chans| <= |m'.chans| && (forall h :: 0 <= h < |m.chans| ==> m'.chans[h].key == m.chans[h].key)
      && (forall h :: |m.chans| <= h < |m'.chans| ==> a.Register? && m.phase == Running && m'.chans[h].key == a.key)
  {
  }

  /** What no step of a multiplexer ever undoes. */
  lemma MuxStepMonotone(m: Mux, a: MuxAction)
    ensures var m' := ApplyMux(m, a);
      && m'.host == m.host && m'.sessionId == m.sessionId && m'.capable == m.capable
      && m.phase.Rank() <= m'.phase.Rank()
      && Keys(m) <= Keys(m') <= Keys(m) + (if a.Register? then {a.key} else {})
      && (m.phase == Drained ==> |m'.chans| == |m.chans|)
      && m.wire + m.queue <= m'.wire + m'.queue
  {
    MuxStepFifo(m, a);
    MuxStepChans(m, a);
    KeysByIndex(m);
    KeysByIndex(ApplyMux(m, a));
  }

  // ----- what a channel carries -----

  /** The messages sent on a channel, in order. */
  function SentOn(log: seq<Event<Message>>): seq<Message> {
    if log == [] then []
    else SentOn(log[..|log| - 1]) + if log[|log| - 1].Sent? then [log[|log| - 1].msg] else []
  }

  lemma SentOnSnoc(log: seq<Event<Message>>, e: Event<Message>)
    ensures SentOn(log + [e]) == if e.Sent? then SentOn(log) + [e.msg] else SentOn(log)
  {
    assert (log + [e])[..|log|] == log;
    assert SentOn(log) + [] == SentOn(log);
  }

  /** What channel h carried; nothing as long as it is not there. */
  function CarriedBy(m: Mux, h: nat): seq<Message> {
    if h < |m.chans| then SentOn(m.chans[h].log) else []
  }

  /** A delivery logs the message held on the channel it is held for; other steps log at most a close. */
  lemma MuxStepLogs(m: Mux, a: MuxAction, h: nat)
    requires m.reader.Holding? ==> m.reader.chan < |m.chans|
    requires h < |m.chans|
    ensures var m' := ApplyMux(m, a);
      && h < |m'.chans|
      && (a.Deliver? && m.reader.Holding? && m.reader.chan == h ==>
            m'.chans[h].log == m.chans[h].log + [Sent(m.reader.msg)])
      && (!(a.Deliver? && m.reader.Holding? && m.reader.chan == h) ==>
            m'.chans[h].log == m.chans[h].log || m'.chans[h].log == m.chans[h].log + [Closed])
  {
  }

  lemma NewChansAreEmpty(m: Mux, a: MuxAction, h: nat)
    requires |m.chans| <= h < |ApplyMux(m, a).chans|
    ensures ApplyMux(m, a).chans[h].log == []
  {
  }

  /** A delivery adds the message held to the channel it is held for; no other step adds or loses one. */
  lemma MuxStepCarries(m: Mux, a: MuxAction, h: nat)
    requires m.reader.Holding? ==> m.reader.chan < |m.chans|
    ensures CarriedBy(ApplyMux(m, a), h)
         == CarriedBy(m, h) + if a.Deliver? && m.reader.Holding? && m.reader.chan == h then [m.reader.msg] else []
  {
    assert CarriedBy(m, h) + [] == CarriedBy(m, h);
    if h < |m.chans| {
      MuxStepLogs(m, a, h);
      SentOnSnoc(m.chans[h].log, Closed);
      if m.reader.Holding? {
        SentOnSnoc(m.chans[h].log, Sent(m.reader.msg));
      }
    } else if h < |ApplyMux(m, a).chans| {
      NewChansAreEmpty(m, a, h);
    }
  }

  /**
   * What the reader holds: the message received while it was idle whose key was in the table, for the
   * channel of that key, until it is taken or given up. A message for an unknown key is complained
   * about unless it is a Close, and so is one that was given up.
   */
  lemma MuxStepReader(m: Mux, a: MuxAction)
    ensures ApplyMux(m, a).reader ==
      match a
      case Receive(msg) =>
        if m.reader != Idle then m.reader
        else if msg.key in m.frontendChans then Holding(msg, m.frontendChans[msg.key])
        else if msg.kind == "2" then Idle else Complaining(msg.key)
      case Deliver => if m.reader.Holding? && m.reader.chan < |m.chans| then Idle else m.reader
      case GiveUp => if m.reader.Holding? then Complaining(m.reader.msg.key) else m.reader
      case Complained => if m.reader.Complaining? then Idle else m.reader
      case _ => m.reader
  {
  }

  /** Closing a key takes it out of the table and closes its channel; the other keys and channels stay. */
  lemma CloseKeyExactly(m: Mux, key: string)
    requires KeyedChans(m)
    ensures var m' := CloseKey(m, key);
      && (forall k :: k in m'.frontendChans <==> k in m.frontendChans && k != key)
      && (forall k :: k in m'.frontendChans ==> m'.frontendChans[k] == m.frontendChans[k])
      && |m'.chans| == |m.chans|
      && (forall h :: 0 <= h < |m.chans| && !(key in m.frontendChans && m.frontendChans[key] == h) ==>
            m'.chans[h] == m.chans[h])
      && (key in m.frontendChans ==>
            m'.chans[m.frontendChans[key]] == Chan(key, m.chans[m.frontendChans[key]].log + [Closed]))
  {
  }

  lemma KeysByIndex(m: Mux)
    ensures forall k :: k in Keys(m) <==> exists h :: 0 <= h < |m.chans| && m.chans[h].key == k
  {
    forall h | 0 <= h < |m.chans| ensures m.chans[h].key in Keys(m) {
      assert m.chans[h] in m.chans;
    }
  }

  ghost predicate KeyedChans(m: Mux) {
    forall k :: k in m.frontendChans ==> m.frontendChans[k] < |m.chans| && m.chans[m.frontendChans[k]].key == k
  }

  /** Draining may begin with any key. */
  lemma DrainOneMore(m: Mux, key: string)
    requires KeyedChans(m) && key in m.frontendChans
    ensures KeyedChans(CloseKey(m, key)) && DrainAll(CloseKey(m, key)) == DrainAll(m)
  {
    var m' := CloseKey(m, key);
    forall h: nat | h < |m.chans| ensures DrainAll(m').chans[h] == DrainAll(m).chans[h] {
      if h == m.frontendChans[key] {
        assert Registered(m, h) && !Registered(m', h);
      } else {
        assert Registered(m, h) <==> Registered(m', h);
      }
    }
    assert DrainAll(m').chans == DrainAll(m).chans;
  }

  /** The multiplexer object: fields updated in place, each method one critical section. */
  class Connection {
    const host: string
    const sessionId: string
    const capable: bool
    var phase: Phase
    var frontendChans: map<string, nat>
    var chans: seq<Chan>
    var reader: Reader
    var messagesToBackend: seq<Message>
    var written: seq<Message>

    function State(): Mux
      reads this
    {
      Mux(host, sessionId, capable, phase, frontendChans, chans, reader, messagesToBackend, written)
    }

    constructor (host: string, sessionId: string, capable: bool)
      ensures State() == NewMux(host, sessionId, capable) && MuxInv(State())
      ensures this.host == host && this.sessionId == sessionId && this.capable == capable && phase == Running
      ensures frontendChans == map[] && messagesToBackend == []
    {
      this.host, this.sessionId, this.capable := host, sessionId, capable;
      phase, frontendChans, chans, reader, messagesToBackend, written := Running, map[], [], Idle, [], [];
    }

    /** Waiting for the write lock: a delivery under way ends, its message taken or not. */
    method AwaitReader(taken: bool)
      requires MuxInv(State())
      modifies this`chans, this`reader
      ensures State() == Settled(old(State()), taken) && MuxInv(State()) && !reader.Holding?
      ensures old(reader).Holding? && taken ==>
        chans == old(chans)[old(reader).chan := Logged(old(chans)[old(reader).chan], Sent(old(reader).msg))]
      ensures !(old(reader).Holding? && taken) ==> chans == old(chans)
    {
      match reader
      case Holding(msg, h) =>
        MuxStepKeepsInv(State(), Deliver);
        MuxStepKeepsInv(State(), GiveUp);
        if taken {
          chans := chans[h := Logged(chans[h], Sent(msg))];
          reader := Idle;
        } else {
          reader := Complaining(msg.key);
        }
      case Idle =>
      case Complaining(_) =>
    }

    /** Registers a fresh key, unless `done` is closed already. */
    method InitializeClient(key: string, taken: bool) returns (r: Result<nat, string>)
      requires MuxInv(State()) && key !in frontendChans
      modifies this
      ensures State() == ApplyMux(Settled(old(State()), taken), Register(key)) && MuxInv(State())
      ensures r.Ok? <==> old(phase) == Running
      ensures r.Ok? ==> r.value < |chans| && Registered(State(), r.value) && chans[r.value] == Chan(key, [])
    {
      AwaitReader(taken);
      MuxStepKeepsInv(State(), Register(key));
      if phase != Running {
        return Err("backend connection is closed");
      }
      frontendChans := frontendChans[key := |chans|];
      chans := chans + [Chan(key, [])];
      return Ok(|chans| - 1);
    }

    method CloseConnection(key: string, taken: bool)
      requires MuxInv(State())
      modifies this
      ensures State() == ApplyMux(Settled(old(State()), taken), CloseClient(key)) && MuxInv(State())
      ensures frontendChans == old(frontendChans) - {key}
      ensures key in old(frontendChans) ==> !Open(chans[old(frontendChans)[key]].log)
    {
      AwaitReader(taken);
      MuxStepKeepsInv(State(), CloseClient(key));
      if key in frontendChans {
        var h := frontendChans[key];
        chans := chans[h := Logged(chans[h], Closed)];
        frontendChans := frontendChans - {key};
      }
    }

    /**
     * One message from the backend, under the read lock: delivered if its client takes it in time.
     * The answer says whether the manager must be asked to close the key.
     */
    method Route(msg: Message, accepted: bool) returns (complain: bool)
      requires MuxInv(State()) && reader == Idle
      modifies this
      ensures MuxInv(State()) && reader == Idle
      ensures State() == if msg.key in frontendChans && accepted
        then ApplyMux(ApplyMux(old(State()), Receive(msg)), Deliver) else old(State())
      ensures complain <==> if msg.key in frontendChans then !accepted else msg.kind != CLOSE
      ensures msg.key in frontendChans && accepted ==>
        var h := frontendChans[msg.key]; chans == old(chans)[h := Chan(msg.key, old(chans)[h].log + [Sent(msg)])]
      ensures !(msg.key in frontendChans && accepted) ==> chans == old(chans)
    {
      if msg.key in frontendChans {
        if accepted {
          ghost var held := ApplyMux(State(), Receive(msg));
          MuxStepKeepsInv(State(), Receive(msg));
          MuxStepKeepsInv(held, Deliver);
          var h := frontendChans[msg.key];
          chans := chans[h := Logged(chans[h], Sent(msg))];
        }
        return !accepted;
      }
      return msg.kind != CLOSE;
    }

    /** One send on the buffered channel; `ready` says whether the select took that case. */
    method Send(frame: Message, ready: bool) returns (ok: bool)
      modifies this
      ensures State() == if ready then ApplyMux(old(State()), Enqueue(frame)) else old(State())
      ensures ok <==> ready && |Format(frame)| <= 16777216 && |old(messagesToBackend)| < 10
      ensures messagesToBackend == if ok then old(messagesToBackend) + [frame] else old(messagesToBackend)
    {
      ok := ready && |Format(frame)| <= MAX_WIRE_MESSAGE_BYTES && |messagesToBackend| < QUEUE_CAPACITY;
      if ok {
        messagesToBackend := messagesToBackend + [frame];
      }
    }

    /** The drain loop: closes and deletes in whatever order the map yields its keys. */
    method DrainLoop()
      requires KeyedChans(State())
      modifies this`chans, this`frontendChans
      ensures State() == DrainAll(old(State()))
    {
      ghost var was := State();
      while frontendChans != map[]
        invariant KeyedChans(State())
        invariant DrainAll(State()) == DrainAll(was)
        decreases frontendChans.Keys
      {
        var key :| key in frontendChans;
        DrainOneMore(State(), key);
        var h := frontendChans[key];
        chans := chans[h := Logged(chans[h], Closed)];
        frontendChans := frontendChans - {key};
      }
      assert chans == DrainAll(State()).chans;
    }

    /** The last step of shutdown, under the write lock. */
    method DrainClients(taken: bool)
      requires MuxInv(State()) && phase == Removed
      modifies this
      ensures State() == ApplyMux(Settled(old(State()), taken), Drain) && MuxInv(State())
    {
      AwaitReader(taken);
      MuxStepKeepsInv(State(), Drain);
      DrainLoop();
      phase := Drained;
    }
  }
}
