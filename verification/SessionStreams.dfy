/** What the clients of a console session are sent: the output stream and who is in control. */
module SessionStreams {
  import opened Prelude
  import opened ReplayBuffer
  import opened Session

  function Outputs(frames: seq<Frame>): seq<Entry> {
    if frames == [] then []
    else Outputs(frames[..|frames| - 1]) + if frames[|frames| - 1].Output? then [frames[|frames| - 1].entry] else []
  }

  lemma {:induction false} OutputsAppend(a: seq<Frame>, b: seq<Frame>)
    ensures Outputs(a + b) == Outputs(a) + Outputs(b)
    decreases |b|
  {
    if b == [] {
      assert a + b == a;
    } else {
      assert (a + b)[..|a + b| - 1] == a + b[..|b| - 1];
      OutputsAppend(a, b[..|b| - 1]);
    }
  }

  lemma OutputsOfOne(f: Frame)
    ensures Outputs([f]) == if f.Output? then [f.entry] else []
  {
    assert [f][..0] == [];
  }

  /** Frames that carry neither output nor a greeting. */
  predicate Quiet(f: Frame) {
    !f.Hello? && !f.Replay? && !f.Output?
  }

  /** Hello, then the replay, then neither again. */
  ghost predicate Opens(frames: seq<Frame>) {
    && |frames| >= 2 && frames[0].Hello? && frames[1].Replay?
    && forall i :: 2 <= i < |frames| ==> !frames[i].Hello? && !frames[i].Replay?
  }

  /** The client was greeted once, with the replay as it stood when it attached. */
  ghost predicate Greeted(c: Client, accepted: seq<Entry>, max: nat) {
    && c.attachedAt.Some? && c.attachedAt.value <= |accepted|
    && |History(c)| >= 2 && Opens(Due(c))
    && IsLongestFit(History(c)[1].entries, accepted[..c.attachedAt.value], max)
  }

  /** `out` is a gapless stretch of the output from `at` on; `current`: up to the present. */
  ghost predicate Stretch(out: seq<Entry>, at: nat, accepted: seq<Entry>, current: bool) {
    && at + |out| <= |accepted|
    && out == accepted[at..at + |out|]
    && (current ==> at + |out| == |accepted|)
  }

  ghost predicate ClientOk(c: Client, accepted: seq<Entry>, max: nat, current: bool) {
    && |c.queue| <= CLIENT_QUEUE_SIZE
    && (c.answering.Some? ==> c.answering.value.Pong? || c.answering.value.Error?)
    && (c.attachedAt.None? ==> !c.open && Due(c) == [] && c.answering.None?)
    && (c.attachedAt.Some? ==>
          Greeted(c, accepted, max) && Stretch(Outputs(Due(c)), c.attachedAt.value, accepted, current))
  }

  /** Attached and not closed. */
  predicate Current(r: Room, h: nat) {
    Attached(r, h) && r.conns[h].open
  }

  ghost predicate ClientsInv(r: Room, accepted: seq<Entry>, max: nat) {
    forall h :: 0 <= h < |r.conns| ==> ClientOk(r.conns[h], accepted, max, Current(r, h))
  }

  // ----- changes of one connection that give it no output -----

  /** The connection was given nothing, or a quiet frame, or (closed) lost the frame it was to be given. */
  ghost predicate QuietDue(c: Client, c': Client) {
    || Due(c') == Due(c)
    || (exists q :: Quiet(q) && c.attachedAt.Some? && Due(c') == History(c) + [q] + Pending(c.offering))
    || (!c'.open && Due(c') == History(c))
  }

  ghost predicate QuietChange(c: Client, c': Client) {
    && c'.id == c.id && c'.attachedAt == c.attachedAt && (c'.open ==> c.open)
    && |c'.queue| <= CLIENT_QUEUE_SIZE
    && (c'.answering.Some? ==>
          c'.answering == c.answering || (c.open && (c'.answering.value.Pong? || c'.answering.value.Error?)))
    && History(c) <= History(c')
    && QuietDue(c, c')
  }

  /** A quiet frame slipped in changes neither the opening nor the output. */
  lemma InsertQuiet(h: seq<Frame>, q: Frame, o: seq<Frame>)
    requires Quiet(q)
    ensures Outputs(h + [q] + o) == Outputs(h + o)
    ensures |h| >= 2 && Opens(h + o) ==> Opens(h + [q] + o)
  {
    OutputsAppend(h, o);
    OutputsAppend(h, [q]);
    OutputsAppend(h + [q], o);
    OutputsOfOne(q);
    assert Outputs(h) + [] == Outputs(h);
    if |h| >= 2 && Opens(h + o) {
      var x, y := h + o, h + [q] + o;
      assert y[0] == x[0] && y[1] == x[1];
      forall i | 2 <= i < |y| ensures !y[i].Hello? && !y[i].Replay? {
        assert y[i] == if i < |h| then x[i] else if i == |h| then q else x[i - 1];
      }
    }
  }

  /** A frame lost at the end shortens the stretch and keeps the opening. */
  lemma LoseLast(c: Client)
    ensures Outputs(History(c)) <= Outputs(Due(c))
    ensures |History(c)| >= 2 && Opens(Due(c)) ==> Opens(History(c))
  {
    OutputsAppend(History(c), Pending(c.offering));
    if |History(c)| >= 2 && Opens(Due(c)) {
      assert forall i :: 0 <= i < |History(c)| ==> History(c)[i] == Due(c)[i];
    }
  }

  lemma ShorterStretch(out: seq<Entry>, out': seq<Entry>, at: nat, accepted: seq<Entry>)
    requires Stretch(out, at, accepted, false) && out' <= out
    ensures Stretch(out', at, accepted, false)
  {
  }

  /** A quiet change keeps the opening, and the output but for a frame lost to a close. */
  lemma QuietDueKeeps(c: Client, c': Client)
    requires QuietDue(c, c') && |History(c)| >= 2 && Opens(Due(c))
    ensures Opens(Due(c'))
    ensures Outputs(Due(c')) == Outputs(Due(c)) || (!c'.open && Outputs(Due(c')) <= Outputs(Due(c)))
  {
    if Due(c') == Due(c) {
    } else if q :| Quiet(q) && Due(c') == History(c) + [q] + Pending(c.offering) {
      InsertQuiet(History(c), q, Pending(c.offering));
    } else {
      LoseLast(c);
    }
  }

  lemma QuietKeepsClient(c: Client, c': Client, accepted: seq<Entry>, max: nat, current: bool, current': bool)
    requires ClientOk(c, accepted, max, current) && QuietChange(c, c') && (current' ==> current && c'.open)
    ensures ClientOk(c', accepted, max, current')
  {
    if c.attachedAt.Some? {
      assert History(c')[1] == History(c)[1];
      QuietDueKeeps(c, c');
      if Outputs(Due(c')) != Outputs(Due(c)) {
        ShorterStretch(Outputs(Due(c)), Outputs(Due(c')), c.attachedAt.value, accepted);
      }
    }
  }

  lemma OfferIsQuiet(c: Client, f: Frame, slow: bool)
    requires Quiet(f) && |c.queue| <= CLIENT_QUEUE_SIZE && c.offering.None? && (c.open ==> c.attachedAt.Some?)
    ensures QuietChange(c, Offer(c, f, slow))
  {
    var c' := Offer(c, f, slow);
    if c.open && (slow || HasRoom(c)) {
      assert Due(c') == History(c) + [f] + Pending(c.offering);
    }
    assert Due(c) == History(c);
  }

  lemma SendOfferIsQuiet(c: Client)
    requires |c.queue| <= CLIENT_QUEUE_SIZE
    ensures QuietChange(c, Offered(c))
  {
    var c' := Offered(c);
    if c.offering.Some? && HasRoom(c) {
      assert Due(c') == c.written + (c.queue + [c.offering.value]) + [] == Due(c);
      assert History(c') == History(c) + [c.offering.value];
    } else {
      assert Due(c') == History(c) + Pending(c'.offering);
    }
  }

  lemma AnswerIsQuiet(c: Client, f: Frame)
    requires (f.Pong? || f.Error?) && |c.queue| <= CLIENT_QUEUE_SIZE
    ensures QuietChange(c, Answer(c, f))
  {
  }

  lemma SendAnswerIsQuiet(c: Client)
    requires |c.queue| <= CLIENT_QUEUE_SIZE
    requires c.answering.Some? ==> c.attachedAt.Some? && Quiet(c.answering.value)
    ensures QuietChange(c, Answered(c))
  {
    var c' := Answered(c);
    if c.answering.Some? && HasRoom(c) {
      assert History(c') == History(c) + [c.answering.value];
      assert Due(c') == History(c) + [c.answering.value] + Pending(c.offering);
    } else {
      assert Due(c') == Due(c);
    }
  }

  lemma WriteIsQuiet(c: Client)
    requires |c.queue| <= CLIENT_QUEUE_SIZE
    ensures QuietChange(c, Written(c)) && QuietChange(c, c) && QuietChange(c, c.(open := false))
    ensures History(Written(c)) == History(c)
  {
    if c.queue != [] {
      assert c.written + [c.queue[0]] + c.queue[1..] == History(c);
    }
    assert Due(c.(open := false)) == Due(c);
  }

  /** Connections changed quietly, and nobody newly attached. */
  ghost predicate QuietRoom(r: Room, r': Room) {
    && |r'.conns| == |r.conns|
    && (forall h :: 0 <= h < |r.conns| ==> QuietChange(r.conns[h], r'.conns[h]))
    && (forall id :: id in r'.clients ==> id in r.clients && r'.clients[id] == r.clients[id])
  }

  lemma QuietRoomKeepsClients(r: Room, r': Room, accepted: seq<Entry>, max: nat)
    requires ClientsInv(r, accepted, max) && QuietRoom(r, r')
    ensures ClientsInv(r', accepted, max)
  {
    forall h | 0 <= h < |r.conns| ensures ClientOk(r'.conns[h], accepted, max, Current(r', h)) {
      QuietKeepsClient(r.conns[h], r'.conns[h], accepted, max, Current(r, h), Current(r', h));
    }
  }

  /** One connection changes quietly. */
  lemma OneKeepsClients(r: Room, h: nat, c: Client, accepted: seq<Entry>, max: nat)
    requires ClientsInv(r, accepted, max) && h < |r.conns| && QuietChange(r.conns[h], c)
    ensures ClientsInv(With(r, h, c), accepted, max)
  {
    forall i | 0 <= i < |r.conns| ensures QuietChange(r.conns[i], With(r, h, c).conns[i]) {
      assert ClientOk(r.conns[i], accepted, max, Current(r, i));
      WriteIsQuiet(r.conns[i]);
    }
    QuietRoomKeepsClients(r, With(r, h, c), accepted, max);
  }

  /** Fewer attached, nothing else changed. */
  lemma FewerKeepClients(r: Room, r': Room, accepted: seq<Entry>, max: nat)
    requires ClientsInv(r, accepted, max) && r'.conns == r.conns
    requires forall id :: id in r'.clients ==> id in r.clients && r'.clients[id] == r.clients[id]
    ensures ClientsInv(r', accepted, max)
  {
    forall i | 0 <= i < |r.conns| ensures QuietChange(r.conns[i], r.conns[i]) {
      assert ClientOk(r.conns[i], accepted, max, Current(r, i));
      WriteIsQuiet(r.conns[i]);
    }
    QuietRoomKeepsClients(r, r', accepted, max);
  }

  lemma BroadcastKeepsClients(r: Room, f: Frame, slow: set<nat>, accepted: seq<Entry>, max: nat)
    requires ClientsInv(r, accepted, max) && Quiet(f) && !Busy(r)
    ensures ClientsInv(Broadcast(r, f, slow), accepted, max)
  {
    var r' := Broadcast(r, f, slow);
    forall i | 0 <= i < |r.conns| ensures QuietChange(r.conns[i], r'.conns[i]) {
      assert ClientOk(r.conns[i], accepted, max, Current(r, i));
      WriteIsQuiet(r.conns[i]);
      OfferIsQuiet(r.conns[i], f, i in slow);
    }
    QuietRoomKeepsClients(r, r', accepted, max);
  }

  // ----- output -----

  /** What a client got stays a true stretch of the output when there is more of it. */
  lemma MoreOutput(c: Client, accepted: seq<Entry>, e: Entry, max: nat)
    requires ClientOk(c, accepted, max, false)
    ensures ClientOk(c, accepted + [e], max, false) && ClientOk(c.(open := false), accepted + [e], max, false)
  {
    if c.attachedAt.Some? {
      var at, out := c.attachedAt.value, Outputs(Due(c));
      assert (accepted + [e])[..at] == accepted[..at];
      assert (accepted + [e])[at..at + |out|] == accepted[at..at + |out|];
    }
    assert Due(c.(open := false)) == Due(c) && History(c.(open := false)) == History(c);
  }

  /** A current client that is given the next output, now or soon, stays current. */
  lemma NextOutput(c: Client, c': Client, accepted: seq<Entry>, e: Entry, max: nat, status: Status)
    requires ClientOk(c, accepted, max, true) && c.attachedAt.Some?
    requires c' == c.(queue := c'.queue, offering := c'.offering) && |c'.queue| <= CLIENT_QUEUE_SIZE
    requires History(c) <= History(c') && Due(c') == Due(c) + [Output(e, status)]
    ensures ClientOk(c', accepted + [e], max, true)
  {
    var at, out := c.attachedAt.value, Outputs(Due(c));
    OutputsAppend(Due(c), [Output(e, status)]);
    OutputsOfOne(Output(e, status));
    assert (accepted + [e])[..at] == accepted[..at];
    assert (accepted + [e])[at..at + |out| + 1] == out + [e];
    assert History(c')[1] == History(c)[1];
  }

  /** One more output: whoever is current gets it or is closed, and everybody else keeps a true stretch. */
  lemma OutputKeepsClient(c: Client, accepted: seq<Entry>, e: Entry, max: nat, status: Status, slow: bool)
    requires ClientOk(c, accepted, max, c.open) && c.offering.None?
    ensures ClientOk(Offer(c, Output(e, status), slow), accepted + [e], max, Offer(c, Output(e, status), slow).open)
  {
    var c' := Offer(c, Output(e, status), slow);
    if c.open && (slow || HasRoom(c)) {
      assert Due(c') == Due(c) + [Output(e, status)];
      NextOutput(c, c', accepted, e, max, status);
    } else {
      MoreOutput(c, accepted, e, max);
    }
  }

  lemma OutputKeepsClients(r: Room, accepted: seq<Entry>, e: Entry, max: nat, status: Status, slow: set<nat>)
    requires ClientsInv(r, accepted, max) && !Busy(r)
    ensures ClientsInv(Broadcast(r, Output(e, status), slow), accepted + [e], max)
  {
    var r' := Broadcast(r, Output(e, status), slow);
    forall h | 0 <= h < |r.conns| ensures ClientOk(r'.conns[h], accepted + [e], max, Current(r', h)) {
      if Attached(r, h) {
        OutputKeepsClient(r.conns[h], accepted, e, max, status, h in slow);
      } else {
        MoreOutput(r.conns[h], accepted, e, max);
      }
    }
  }

  // ----- newcomers -----

  /** A newcomer is greeted with the replay as it stands and owes nothing yet. */
  lemma NewcomerOk(s: Session, id: string)
    requires IsLongestFit(s.buffer.replay, s.buffer.accepted, s.cfg.maxReplayBytes) &&
      s.buffer.nextSequence == |s.buffer.accepted|
    ensures ClientOk(Newcomer(s, id), s.buffer.accepted, s.cfg.maxReplayBytes, true)
  {
    var c := Newcomer(s, id);
    assert Due(c) == History(c) == c.queue;
    GreetingIsSilent(c.queue[0], c.queue[1]);
    assert s.buffer.accepted[..s.buffer.nextSequence] == s.buffer.accepted;
  }

  lemma GreetingIsSilent(f: Frame, g: Frame)
    requires !f.Output? && !g.Output?
    ensures Outputs([f, g]) == []
  {
    OutputsOfOne(f);
    OutputsOfOne(g);
    OutputsAppend([f], [g]);
    assert [f] + [g] == [f, g];
  }

  lemma JoinKeepsOne(r: Room, c: Client, h: nat, accepted: seq<Entry>, max: nat)
    requires h < |r.conns| && ClientOk(r.conns[h], accepted, max, Current(r, h))
    ensures ClientOk(Join(r, c).conns[h], accepted, max, Current(Join(r, c), h))
  {
    WriteIsQuiet(r.conns[h]);
    QuietKeepsClient(r.conns[h], Join(r, c).conns[h], accepted, max, Current(r, h), Current(Join(r, c), h));
  }

  lemma JoinKeepsClients(r: Room, c: Client, accepted: seq<Entry>, max: nat)
    requires ClientsInv(r, accepted, max) && ClientOk(c, accepted, max, true)
    ensures ClientsInv(Join(r, c), accepted, max)
  {
    var r' := Join(r, c);
    forall h | 0 <= h < |r'.conns| ensures ClientOk(r'.conns[h], accepted, max, Current(r', h)) {
      if h < |r.conns| {
        JoinKeepsOne(r, c, h, accepted, max);
      }
    }
  }

  lemma JoinNotBusy(r: Room, c: Client)
    requires !Busy(r) && c.offering.None?
    ensures !Busy(Join(r, c))
  {
  }

  lemma AddKeepsClients(s: Session, id: string, now: int, slow: set<nat>)
    requires !s.revoked ==> IsLongestFit(s.buffer.replay, s.buffer.accepted, s.cfg.maxReplayBytes)
    requires !s.revoked ==> s.buffer.nextSequence == |s.buffer.accepted|
    requires ClientsInv(s.room, s.buffer.accepted, s.cfg.maxReplayBytes) && !Busy(s.room)
    ensures ClientsInv(AddClient(s, id, now, slow).room, s.buffer.accepted, s.cfg.maxReplayBytes)
  {
    if s.revoked {
      var r' := AddClient(s, id, now, slow).room;
      forall h | 0 <= h < |s.room.conns|
        ensures Current(r', h) == Current(s.room, h) && r'.conns[h] == s.room.conns[h] {
      }
      assert !Current(r', |s.room.conns|);
    } else {
      var r := Join(s.room, Newcomer(s, id));
      NewcomerOk(s, id);
      JoinKeepsClients(s.room, Newcomer(s, id), s.buffer.accepted, s.cfg.maxReplayBytes);
      JoinNotBusy(s.room, Newcomer(s, id));
      BroadcastKeepsClients(r, Control(s.life.status, ControllerAfterJoin(s, id)), slow, s.buffer.accepted,
        s.cfg.maxReplayBytes);
    }
  }

  lemma RemoveKeepsClients(s: Session, h: nat, pick: string, slow: set<nat>, accepted: seq<Entry>, max: nat)
    requires ClientsInv(s.room, accepted, max) && h < |s.room.conns| && !Busy(s.room)
    ensures ClientsInv(RemoveClient(s, h, pick, slow).room, accepted, max)
  {
    var room := Leave(s.room, h);
    FewerKeepClients(s.room, room, accepted, max);
    var controller := if room.clients == map[] then "" else pick;
    BroadcastKeepsClients(room, Control(s.life.status, controller), slow, accepted, max);
  }

  // ----- every step -----

  predicate ConnStep(a: Action) {
    a.SendOffer? || a.CloseConn? || a.WriteFrame? || a.TestAnswer? || a.SendAnswer?
  }

  predicate NewsStep(a: Action) {
    a.DoClaimControl? || a.DoTerminate? || a.DoMarkEnded?
  }

  /** What a step on a single connection makes of it. */
  function ConnAfter(c: Client, a: Action): Client
    requires ConnStep(a)
  {
    match a
    case SendOffer(_) => Offered(c)
    case CloseConn(_) => c.(open := false)
    case WriteFrame(_) => Written(c)
    case TestAnswer(_, f) => if f.Pong? || f.Error? then Answer(c, f) else c
    case SendAnswer(_) => Answered(c)
  }

  lemma ConnStepIs(s: Session, a: Action, digest: string -> string)
    requires ConnStep(a)
    ensures Apply(s, a, digest).room == s.room
      || (a.h < |s.room.conns| && Apply(s, a, digest).room == With(s.room, a.h, ConnAfter(s.room.conns[a.h], a)))
    ensures Apply(s, a, digest).life == s.life
  {
  }

  lemma ConnAfterIsQuiet(c: Client, a: Action, accepted: seq<Entry>, max: nat, current: bool)
    requires ConnStep(a) && ClientOk(c, accepted, max, current)
    ensures QuietChange(c, ConnAfter(c, a))
  {
    WriteIsQuiet(c);
    match a
    case SendOffer(_) => SendOfferIsQuiet(c);
    case TestAnswer(_, f) => if f.Pong? || f.Error? { AnswerIsQuiet(c, f); }
    case SendAnswer(_) => SendAnswerIsQuiet(c);
    case CloseConn(_) => case WriteFrame(_) =>
  }

  lemma ConnStepKeepsClients(s: Session, a: Action, digest: string -> string, accepted: seq<Entry>, max: nat)
    requires ClientsInv(s.room, accepted, max) && ConnStep(a)
    ensures ClientsInv(Apply(s, a, digest).room, accepted, max)
  {
    ConnStepIs(s, a, digest);
    if a.h < |s.room.conns| {
      ConnAfterIsQuiet(s.room.conns[a.h], a, accepted, max, Current(s.room, a.h));
      OneKeepsClients(s.room, a.h, ConnAfter(s.room.conns[a.h], a), accepted, max);
    }
  }

  lemma NewsStepKeepsClients(s: Session, a: Action, digest: string -> string, accepted: seq<Entry>, max: nat)
    requires ClientsInv(s.room, accepted, max) && NewsStep(a) && !Busy(s.room)
    ensures ClientsInv(Apply(s, a, digest).room, accepted, max)
  {
    BroadcastKeepsClients(s.room, StatusChange(Closing, s.life.controller), a.slow, accepted, max);
    BroadcastKeepsClients(s.room, StatusChange(Ended, ""), a.slow, accepted, max);
    if a.DoClaimControl? && Attached(s.room, a.h) {
      BroadcastKeepsClients(s.room, Control(s.life.status, s.room.conns[a.h].id), a.slow, accepted, max);
    }
  }

  /** All other steps leave the connections alone. */
  lemma OtherSteps(s: Session, a: Action, digest: string -> string)
    requires !a.DoAppendOutput? && !a.DoAddClient? && !a.DoRemoveClient? && !a.DoDetachAll? && !ConnStep(a) &&
      !NewsStep(a)
    ensures Apply(s, a, digest).room == s.room && Apply(s, a, digest).life.controller == s.life.controller
  {
  }

  /** A step other than an output keeps every stream, and a step that is not enabled keeps everything. */
  lemma StepKeepsClients(s: Session, a: Action, digest: string -> string)
    requires s.buffer.nextSequence == |s.buffer.accepted|
    requires !s.revoked ==> IsLongestFit(s.buffer.replay, s.buffer.accepted, s.cfg.maxReplayBytes)
    requires ClientsInv(s.room, s.buffer.accepted, s.cfg.maxReplayBytes)
    requires !a.DoAppendOutput?
    ensures ClientsInv(Apply(s, a, digest).room, s.buffer.accepted, s.cfg.maxReplayBytes)
  {
    var accepted, max := s.buffer.accepted, s.cfg.maxReplayBytes;
    if !Enabled(s, a) {
    } else if a.DoAddClient? {
      if a.id != "" { AddKeepsClients(s, a.id, a.now, a.slow); }
    } else if a.DoRemoveClient? {
      if CanPick(s, a.h, a.pick) { RemoveKeepsClients(s, a.h, a.pick, a.slow, accepted, max); }
    } else if a.DoDetachAll? {
      FewerKeepClients(s.room, s.room.(clients := map[]), accepted, max);
    } else if ConnStep(a) {
      ConnStepKeepsClients(s, a, digest, accepted, max);
    } else if NewsStep(a) {
      NewsStepKeepsClients(s, a, digest, accepted, max);
    } else {
      OtherSteps(s, a, digest);
    }
  }

  lemma AppendIs(s: Session, data: string, now: int, slow: set<nat>, digest: string -> string)
    ensures var s', e := Apply(s, DoAppendOutput(data, now, slow), digest), Entry(s.buffer.nextSequence + 1, data);
      s' == s || (!Busy(s.room) && s'.room == Broadcast(s.room, Output(e, Connected), slow) &&
        s'.buffer.accepted == s.buffer.accepted + [e])
  {
  }

  lemma AppendKeepsClients(s: Session, data: string, now: int, slow: set<nat>, digest: string -> string)
    requires ClientsInv(s.room, s.buffer.accepted, s.cfg.maxReplayBytes)
    ensures var s' := Apply(s, DoAppendOutput(data, now, slow), digest);
      ClientsInv(s'.room, s'.buffer.accepted, s.cfg.maxReplayBytes)
  {
    AppendIs(s, data, now, slow, digest);
    if Apply(s, DoAppendOutput(data, now, slow), digest) != s {
      OutputKeepsClients(s.room, s.buffer.accepted, Entry(s.buffer.nextSequence + 1, data), s.cfg.maxReplayBytes,
        Connected, slow);
    }
  }

  // ----- after the close -----

  /** The frames that had passed the test of `done` and are still to be sent. */
  ghost function Underway(c: Client): multiset<Frame> {
    multiset(Pending(c.offering)) + multiset(Pending(c.answering))
  }

  /**
   * From the closed connection c to c': closed, everything queued still there, and nothing gained but
   * what was under way.
   */
  ghost predicate OnlyLeftovers(c: Client, c': Client) {
    && !c'.open && History(c) <= History(c')
    && multiset(History(c')) + Underway(c') <= multiset(History(c)) + Underway(c)
  }

  lemma Nothing(c: Client)
    requires !c.open
    ensures OnlyLeftovers(c, c) && OnlyLeftovers(c, Written(c))
  {
    if c.queue != [] {
      assert c.written + [c.queue[0]] + c.queue[1..] == History(c);
    }
  }

  lemma OfferAfterClose(c: Client)
    requires !c.open
    ensures OnlyLeftovers(c, Offered(c))
  {
    var c' := Offered(c);
    if c.offering.Some? {
      assert History(c') == if HasRoom(c) then History(c) + [c.offering.value] else History(c);
      assert Underway(c) == Underway(c') + multiset{c.offering.value};
    }
  }

  lemma AnswerAfterClose(c: Client)
    requires !c.open
    ensures OnlyLeftovers(c, Answered(c))
  {
    var c' := Answered(c);
    if c.answering.Some? {
      assert History(c') == if HasRoom(c) then History(c) + [c.answering.value] else History(c);
      assert Underway(c) == Underway(c') + multiset{c.answering.value};
    }
  }

  lemma ConnAfterClose(c: Client, a: Action)
    requires !c.open && ConnStep(a)
    ensures OnlyLeftovers(c, ConnAfter(c, a))
  {
    match a
    case SendOffer(_) => OfferAfterClose(c);
    case SendAnswer(_) => AnswerAfterClose(c);
    case _ => Nothing(c);
  }

  /** No broadcast reaches a closed connection. */
  lemma ClosedChanges(s: Session, a: Action, digest: string -> string, h: nat)
    requires h < |s.room.conns| && !s.room.conns[h].open
    ensures var r := Apply(s, a, digest).room;
      h < |r.conns| && (r.conns[h] == s.room.conns[h] || (ConnStep(a) && r.conns[h] == ConnAfter(s.room.conns[h], a)))
  {
    if ConnStep(a) {
      ConnStepIs(s, a, digest);
    }
  }

  lemma ClosedStep(s: Session, a: Action, digest: string -> string, h: nat)
    requires h < |s.room.conns| && !s.room.conns[h].open
    ensures var r := Apply(s, a, digest).room; h < |r.conns| && OnlyLeftovers(s.room.conns[h], r.conns[h])
  {
    Nothing(s.room.conns[h]);
    ClosedChanges(s, a, digest, h);
    if ConnStep(a) {
      ConnAfterClose(s.room.conns[h], a);
    }
  }

  // ----- who knows who is in control -----

  /** The controller named by the latest frame that names one. */
  function Announced(frames: seq<Frame>): Option<string> {
    if frames == [] then None
    else
      match frames[|frames| - 1]
      case Hello(_, controller) => Some(controller)
      case Control(_, controller) => Some(controller)
      case StatusChange(_, controller) => Some(controller)
      case _ => Announced(frames[..|frames| - 1])
  }

  lemma {:induction false} AnnouncedAppend(a: seq<Frame>, b: seq<Frame>)
    ensures Announced(a + b) == if Announced(b).Some? then Announced(b) else Announced(a)
    decreases |b|
  {
    if b == [] {
      assert a + b == a;
    } else {
      assert (a + b)[..|a + b| - 1] == a + b[..|b| - 1];
      AnnouncedAppend(a, b[..|b| - 1]);
    }
  }

  /** Every attached, open client was told last, or is just being told, of this controller. */
  ghost predicate Told(r: Room, controller: string) {
    forall h :: 0 <= h < |r.conns| && Current(r, h) ==> Announced(Due(r.conns[h])) == Some(controller)
  }

  lemma OfferTells(c: Client, f: Frame, slow: bool)
    requires c.offering.None? && Offer(c, f, slow).open
    ensures Announced(Due(Offer(c, f, slow))) == if Announced([f]).Some? then Announced([f]) else Announced(Due(c))
  {
    assert Due(Offer(c, f, slow)) == Due(c) + [f];
    AnnouncedAppend(Due(c), [f]);
  }

  lemma BroadcastTells(r: Room, f: Frame, slow: set<nat>, controller: string)
    requires !Busy(r)
    requires Announced([f]) == Some(controller) || (Announced([f]).None? && Told(r, controller))
    ensures Told(Broadcast(r, f, slow), controller)
  {
    var r' := Broadcast(r, f, slow);
    forall h | 0 <= h < |r'.conns| && Current(r', h) ensures Announced(Due(r'.conns[h])) == Some(controller) {
      assert Current(r, h);
      OfferTells(r.conns[h], f, h in slow);
    }
  }

  /** A connection whose record still ends on the same announcement, or that is closed, misleads nobody. */
  lemma ConnTells(r: Room, h: nat, c: Client, controller: string)
    requires Told(r, controller) && h < |r.conns| && c.id == r.conns[h].id
    requires c.open ==> r.conns[h].open && Announced(Due(c)) == Announced(Due(r.conns[h]))
    ensures Told(With(r, h, c), controller)
  {
    var r' := With(r, h, c);
    forall i | 0 <= i < |r'.conns| && Current(r', i) ensures Announced(Due(r'.conns[i])) == Some(controller) {
      assert Current(r, i);
    }
  }

  /** An answer before the frame under way changes no announcement. */
  lemma AnswerTells(h: seq<Frame>, q: Frame, o: seq<Frame>)
    requires q.Pong? || q.Error?
    ensures Announced(h + [q] + o) == Announced(h + o)
  {
    assert [q][..0] == [];
    AnnouncedAppend(h, [q]);
    AnnouncedAppend(h + [q], o);
    AnnouncedAppend(h, o);
  }

  lemma SendAnswerTells(c: Client)
    requires c.answering.Some? ==> c.answering.value.Pong? || c.answering.value.Error?
    ensures Announced(Due(Answered(c))) == Announced(Due(c))
  {
    if c.answering.Some? && HasRoom(c) {
      assert Due(Answered(c)) == History(c) + [c.answering.value] + Pending(c.offering);
      AnswerTells(History(c), c.answering.value, Pending(c.offering));
    } else {
      assert Due(Answered(c)) == Due(c);
    }
  }

  lemma SendOfferTells(c: Client)
    ensures Offered(c).open ==> c.open && Due(Offered(c)) == Due(c)
  {
  }

  lemma ConnAfterTells(c: Client, a: Action)
    requires ConnStep(a) && (c.answering.Some? ==> c.answering.value.Pong? || c.answering.value.Error?)
    ensures ConnAfter(c, a).open ==> c.open && Announced(Due(ConnAfter(c, a))) == Announced(Due(c))
  {
    match a
    case SendOffer(_) => SendOfferTells(c);
    case WriteFrame(_) => if c.queue != [] { assert c.written + [c.queue[0]] + c.queue[1..] == History(c); }
    case SendAnswer(_) => SendAnswerTells(c);
    case TestAnswer(_, _) => case CloseConn(_) =>
  }

  /** Answers are pongs and errors, nothing else. */
  ghost predicate AnswersInv(r: Room) {
    forall h :: 0 <= h < |r.conns| && r.conns[h].answering.Some? ==>
      r.conns[h].answering.value.Pong? || r.conns[h].answering.value.Error?
  }

  lemma ConnStepTells(s: Session, a: Action, digest: string -> string)
    requires ConnStep(a) && AnswersInv(s.room) && Told(s.room, s.life.controller)
    ensures Told(Apply(s, a, digest).room, Apply(s, a, digest).life.controller)
  {
    ConnStepIs(s, a, digest);
    if a.h < |s.room.conns| {
      ConnAfterTells(s.room.conns[a.h], a);
      ConnTells(s.room, a.h, ConnAfter(s.room.conns[a.h], a), s.life.controller);
    }
  }

  lemma AppendTells(s: Session, data: string, now: int, slow: set<nat>)
    requires Told(s.room, s.life.controller) && !Busy(s.room)
    ensures Told(AppendOutput(s, data, now, slow).room, s.life.controller)
  {
    var f := Output(Entry(s.buffer.nextSequence + 1, data), Connected);
    assert [f][..0] == [];
    BroadcastTells(s.room, f, slow, s.life.controller);
  }

  lemma ClaimTells(s: Session, h: nat, now: int, slow: set<nat>)
    requires Told(s.room, s.life.controller) && !Busy(s.room)
    ensures Told(ClaimControl(s, h, now, slow).room, ClaimControl(s, h, now, slow).life.controller)
  {
    if Attached(s.room, h) {
      var id := s.room.conns[h].id;
      BroadcastTells(s.room, Control(s.life.status, id), slow, id);
    }
  }

  lemma TerminateTells(s: Session, now: int, slow: set<nat>)
    requires Told(s.room, s.life.controller) && !Busy(s.room)
    ensures Told(Terminate(s, now, slow).room, Terminate(s, now, slow).life.controller)
  {
    BroadcastTells(s.room, StatusChange(Closing, s.life.controller), slow, s.life.controller);
  }

  lemma EndTells(s: Session, now: int, slow: set<nat>)
    requires Told(s.room, s.life.controller) && !Busy(s.room)
    ensures Told(MarkEnded(s, now, slow).room, MarkEnded(s, now, slow).life.controller)
  {
    BroadcastTells(s.room, StatusChange(Ended, ""), slow, "");
  }

  /** The broadcasts that come with a new state. */
  lemma NewsTells(s: Session, a: Action, digest: string -> string)
    requires NewsStep(a) && !Busy(s.room)
    requires Told(s.room, s.life.controller)
    ensures Told(Apply(s, a, digest).room, Apply(s, a, digest).life.controller)
  {
    match a
    case DoClaimControl(h, now, slow) => ClaimTells(s, h, now, slow);
    case DoTerminate(now, slow) => TerminateTells(s, now, slow);
    case DoMarkEnded(now, slow) => EndTells(s, now, slow);
  }

  lemma AddTells(s: Session, id: string, now: int, slow: set<nat>)
    requires Told(s.room, s.life.controller) && !Busy(s.room)
    ensures Told(AddClient(s, id, now, slow).room, AddClient(s, id, now, slow).life.controller)
  {
    if s.revoked {
      var r' := AddClient(s, id, now, slow).room;
      forall h | 0 <= h < |r'.conns| && Current(r', h) ensures h < |s.room.conns| && Current(s.room, h) {
      }
    } else {
      var controller := ControllerAfterJoin(s, id);
      JoinNotBusy(s.room, Newcomer(s, id));
      BroadcastTells(Join(s.room, Newcomer(s, id)), Control(s.life.status, controller), slow, controller);
    }
  }

  lemma RemoveTells(s: Session, h: nat, pick: string, slow: set<nat>)
    requires Told(s.room, s.life.controller) && CanPick(s, h, pick) && !Busy(s.room)
    ensures Told(RemoveClient(s, h, pick, slow).room, RemoveClient(s, h, pick, slow).life.controller)
  {
    var room := Leave(s.room, h);
    var controller := if room.clients == map[] then "" else pick;
    BroadcastTells(room, Control(s.life.status, controller), slow, controller);
    assert forall i :: 0 <= i < |room.conns| && Current(room, i) ==> Current(s.room, i);
  }

  lemma StepTells(s: Session, a: Action, digest: string -> string)
    requires Told(s.room, s.life.controller) && AnswersInv(s.room)
    ensures Told(Apply(s, a, digest).room, Apply(s, a, digest).life.controller)
  {
    if !Enabled(s, a) {
    } else if a.DoAppendOutput? {
      AppendTells(s, a.data, a.now, a.slow);
    } else if NewsStep(a) {
      NewsTells(s, a, digest);
    } else if a.DoAddClient? {
      if a.id != "" { AddTells(s, a.id, a.now, a.slow); }
    } else if a.DoRemoveClient? {
      if CanPick(s, a.h, a.pick) { RemoveTells(s, a.h, a.pick, a.slow); }
    } else if ConnStep(a) {
      ConnStepTells(s, a, digest);
    } else if a.DoDetachAll? {
      assert Apply(s, a, digest).room.clients == map[];
    } else {
      OtherSteps(s, a, digest);
    }
  }
}
