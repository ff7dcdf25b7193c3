/** What holds in every interleaving of a console session's critical sections. */
module SessionRuns {
  import opened Prelude
  import opened ReplayBuffer
  import opened Session
  import opened SessionStreams

  // ----- replay -----

  ghost predicate ReplayInv(b: Buffer, revoked: bool, max: nat) {
    && b.nextSequence == |b.accepted|
    && (forall i :: 0 <= i < |b.accepted| ==> b.accepted[i].sequence == i + 1)
    && b.replayBytes == Bytes(b.replay) <= max
    && (if revoked then b.replay == [] else IsLongestFit(b.replay, b.accepted, max))
  }

  lemma EmptyReplay(max: nat)
    ensures ReplayInv(Buffer(0, 0, [], []), false, max)
  {
    assert Storable([], max) == [];
    assert CutAt([], [], max, 0);
    assert IsLongestFit([], [], max);
  }

  lemma RecordKeepsReplay(b: Buffer, data: string, max: nat)
    requires ReplayInv(b, false, max)
    ensures ReplayInv(Record(b, data, max), false, max)
    ensures var e := Entry(b.nextSequence + 1, data); FrameBytes(e) <= max ==> e in Record(b, data, max).replay
  {
    AppendKeepsLongestFit(b.replay, b.accepted, Entry(b.nextSequence + 1, data), max);
  }

  /** Only two kinds of step touch the buffer. */
  lemma BufferAfter(s: Session, a: Action, digest: string -> string)
    ensures var s' := Apply(s, a, digest);
      && s'.cfg == s.cfg
      && (s.revoked ==> s'.revoked)
      && (|| (s'.buffer == s.buffer && s'.revoked == s.revoked)
          || (a.DoAppendOutput? && !s.revoked && !s'.revoked &&
                s'.buffer == Record(s.buffer, a.data, s.cfg.maxReplayBytes))
          || (a.DoMarkRevoked? && s'.revoked && s'.buffer == s.buffer.(replay := [], replayBytes := 0)))
  {
  }

  lemma StepKeepsReplay(s: Session, a: Action, digest: string -> string)
    requires ReplayInv(s.buffer, s.revoked, s.cfg.maxReplayBytes)
    ensures var s' := Apply(s, a, digest); ReplayInv(s'.buffer, s'.revoked, s.cfg.maxReplayBytes)
  {
    BufferAfter(s, a, digest);
    if a.DoAppendOutput? && !s.revoked {
      RecordKeepsReplay(s.buffer, a.data, s.cfg.maxReplayBytes);
    }
  }

  // ----- control -----

  ghost predicate RoomInv(r: Room) {
    && "" !in r.clients
    && (forall id :: id in r.clients ==>
          r.clients[id] < |r.conns| && r.conns[r.clients[id]].id == id && r.conns[r.clients[id]].attachedAt.Some?)
    && (forall h :: 0 <= h < |r.conns| ==> r.conns[h].id != "")
  }

  ghost predicate ControlInv(kind: Kind, l: Life, r: Room) {
    && (l.controller != "" ==> l.controller in r.clients && kind == Terminal && l.status != Ended)
    && l.closeRequests <= 1 && (l.closeOnce != Spent ==> l.closeRequests == 0)
  }

  /** Nobody is newly attached and every connection stays what it is. */
  ghost predicate Shrinks(r: Room, r': Room) {
    && |r'.conns| == |r.conns|
    && (forall h :: 0 <= h < |r.conns| ==>
          r'.conns[h].id == r.conns[h].id && r'.conns[h].attachedAt == r.conns[h].attachedAt)
    && (forall id :: id in r'.clients ==> id in r.clients && r'.clients[id] == r.clients[id])
  }

  lemma BroadcastShrinks(r: Room, f: Frame, slow: set<nat>)
    ensures Shrinks(r, Broadcast(r, f, slow)) && Broadcast(r, f, slow).clients == r.clients
  {
  }

  lemma RoomAfterBroadcast(s: Session, a: Action, digest: string -> string)
    requires a.DoAppendOutput? || NewsStep(a)
    ensures Shrinks(s.room, Apply(s, a, digest).room) && Apply(s, a, digest).room.clients == s.room.clients
  {
    var r, l := s.room, s.life;
    match a
    case DoAppendOutput(data, now, slow) =>
      BroadcastShrinks(r, Output(Entry(s.buffer.nextSequence + 1, data), Connected), slow);
    case DoClaimControl(h, now, slow) =>
      if Attached(r, h) { BroadcastShrinks(r, Control(l.status, r.conns[h].id), slow); }
    case DoTerminate(now, slow) => BroadcastShrinks(r, StatusChange(Closing, l.controller), slow);
    case DoMarkEnded(now, slow) => BroadcastShrinks(r, StatusChange(Ended, ""), slow);
  }

  lemma RoomAfterRemove(s: Session, h: nat, pick: string, slow: set<nat>)
    requires h < |s.room.conns|
    ensures Shrinks(s.room, RemoveClient(s, h, pick, slow).room)
  {
    var room := Leave(s.room, h);
    BroadcastShrinks(room, Control(s.life.status, if room.clients == map[] then "" else pick), slow);
  }

  lemma RoomAfter(s: Session, a: Action, digest: string -> string)
    requires !a.DoAddClient?
    ensures Shrinks(s.room, Apply(s, a, digest).room)
    ensures !a.DoRemoveClient? && !a.DoDetachAll? ==> Apply(s, a, digest).room.clients == s.room.clients
  {
    if a.DoAppendOutput? || NewsStep(a) {
      RoomAfterBroadcast(s, a, digest);
    } else if a.DoRemoveClient? {
      if CanPick(s, a.h, a.pick) { RoomAfterRemove(s, a.h, a.pick, a.slow); }
    } else if ConnStep(a) {
      ConnStepIs(s, a, digest);
    } else if !a.DoDetachAll? {
      OtherSteps(s, a, digest);
    }
  }

  lemma JoinKeepsRoom(r: Room, c: Client)
    requires RoomInv(r) && c.id != "" && c.attachedAt.Some?
    ensures RoomInv(Join(r, c)) && Join(r, c).clients.Keys == r.clients.Keys + {c.id}
  {
  }

  lemma AddKeepsRoom(s: Session, id: string, now: int, slow: set<nat>)
    requires RoomInv(s.room) && id != ""
    ensures RoomInv(AddClient(s, id, now, slow).room)
    ensures AddClient(s, id, now, slow).room.clients.Keys == if s.revoked then s.room.clients.Keys
      else s.room.clients.Keys + {id}
  {
    if !s.revoked {
      JoinKeepsRoom(s.room, Newcomer(s, id));
      var r := Join(s.room, Newcomer(s, id));
      BroadcastShrinks(r, Control(s.life.status, ControllerAfterJoin(s, id)), slow);
    }
  }

  lemma StepKeepsRoom(s: Session, a: Action, digest: string -> string)
    requires RoomInv(s.room)
    ensures RoomInv(Apply(s, a, digest).room)
  {
    if a.DoAddClient? {
      if a.id != "" {
        AddKeepsRoom(s, a.id, a.now, a.slow);
      }
    } else {
      RoomAfter(s, a, digest);
    }
  }

  lemma RemoveKeepsControl(s: Session, h: nat, pick: string, slow: set<nat>)
    requires RoomInv(s.room) && ControlInv(s.cfg.kind, s.life, s.room) && CanPick(s, h, pick)
    ensures var s' := RemoveClient(s, h, pick, slow); ControlInv(s.cfg.kind, s'.life, s'.room)
  {
  }

  /** Apart from newcomers and removals, control is claimed by an attached client, given up or kept. */
  lemma ControlAfter(s: Session, a: Action, digest: string -> string)
    requires !a.DoAddClient? && !a.DoRemoveClient? && Enabled(s, a)
    ensures var l, l' := s.life, Apply(s, a, digest).life;
      && (|| l'.controller == ""
          || (l'.controller == l.controller && (l'.status == Ended ==> l.status == Ended) && !a.DoDetachAll?)
          || (a.DoClaimControl? && s.cfg.kind == Terminal && l'.status != Ended && l'.controller in s.room.clients))
  {
  }

  lemma CloseAfter(s: Session, a: Action, digest: string -> string)
    ensures var l, l' := s.life, Apply(s, a, digest).life;
      || (l'.closeOnce == l.closeOnce && l'.closeRequests == l.closeRequests)
      || (l.closeOnce == Unused && l'.closeRequests == l.closeRequests)
      || (l.closeOnce == InFlight && l'.closeOnce == Spent && l'.closeRequests == l.closeRequests + 1)
  {
  }

  lemma AddKeepsControl(s: Session, id: string, now: int, slow: set<nat>)
    requires RoomInv(s.room) && ControlInv(s.cfg.kind, s.life, s.room) && id != ""
    ensures var s' := AddClient(s, id, now, slow); ControlInv(s.cfg.kind, s'.life, s'.room)
  {
    AddKeepsRoom(s, id, now, slow);
    assert AddClient(s, id, now, slow).room.clients.Keys >= s.room.clients.Keys;
  }

  lemma StepKeepsControl(s: Session, a: Action, digest: string -> string)
    requires RoomInv(s.room) && ControlInv(s.cfg.kind, s.life, s.room)
    ensures var s' := Apply(s, a, digest); ControlInv(s.cfg.kind, s'.life, s'.room)
  {
    if !Enabled(s, a) {
    } else if a.DoAddClient? {
      if a.id != "" {
        AddKeepsControl(s, a.id, a.now, a.slow);
      }
    } else if a.DoRemoveClient? {
      if CanPick(s, a.h, a.pick) {
        RemoveKeepsControl(s, a.h, a.pick, a.slow);
      }
    } else {
      RoomAfter(s, a, digest);
      ControlAfter(s, a, digest);
      CloseAfter(s, a, digest);
    }
  }

  // ----- the life of a session -----

  /** The unlocked write at the end of creation lands on a session that is closing or has ended. */
  predicate Races(s: Session, a: Action) {
    a.DoPublish? && !s.life.published && s.life.status.Rank() >= Closing.Rank()
  }

  ghost predicate NoRace(s: Session, actions: seq<Action>, digest: string -> string) {
    forall n :: 0 <= n < |actions| ==> !RacesAt(s, actions, n, digest)
  }

  predicate RacesAt(s: Session, actions: seq<Action>, n: nat, digest: string -> string)
    requires n < |actions|
  {
    Races(Run(s, actions[..n], digest), actions[n])
  }

  /** The n-th step of the run takes the status back. */
  predicate BackAt(s: Session, actions: seq<Action>, n: nat, digest: string -> string)
    requires n < |actions|
  {
    Run(s, actions[..n], digest).life.status.Rank() > Run(s, actions[..n + 1], digest).life.status.Rank()
  }

  /** The status moves forward in every step but one: exactly the racing write takes it back. */
  lemma StatusForwardExactly(s: Session, a: Action, digest: string -> string)
    ensures s.life.status.Rank() <= Apply(s, a, digest).life.status.Rank() <==> !Races(s, a)
  {
  }

  ghost predicate EndInv(l: Life) {
    l.status == Ended <==> l.endedAt.Some?
  }

  lemma StepKeepsEnd(s: Session, a: Action, digest: string -> string)
    requires EndInv(s.life)
    ensures EndInv(Apply(s, a, digest).life) <==> !(Races(s, a) && s.life.status == Ended)
  {
  }

  lemma {:induction false} RunAppend(s: Session, before: seq<Action>, after: seq<Action>, digest: string -> string)
    ensures Run(s, before + after, digest) == Run(Run(s, before, digest), after, digest)
    decreases |after|
  {
    if after == [] {
      assert before + after == before;
    } else {
      var all, a := before + after, after[|after| - 1];
      assert all[..|all| - 1] == before + after[..|after| - 1] && all[|all| - 1] == a;
      RunAppend(s, before, after[..|after| - 1], digest);
      assert Run(s, all, digest) == Apply(Run(s, before + after[..|after| - 1], digest), a, digest);
    }
  }

  lemma RunTwo(s: Session, a: Action, b: Action, digest: string -> string)
    ensures Run(s, [a, b], digest) == Apply(Apply(s, a, digest), b, digest)
  {
    assert [a, b][..1] == [a] && [a][..0] == [];
    assert Run(s, [a], digest) == Apply(s, a, digest);
  }

  /** The watch revokes the grant while creation is still waiting for the backend. */
  lemma RevokedEarly(cfg: Config, now: int, digest: string -> string)
    requires cfg.grant.Some?
    ensures Run(New(cfg, now), [DoMarkRevoked, DoTerminate(now, {})], digest)
         == New(cfg, now).(revoked := true, life := New(cfg, now).life.(status := Closing, closeOnce := InFlight))
  {
    RunTwo(New(cfg, now), DoMarkRevoked, DoTerminate(now, {}), digest);
  }

  /** The backend cannot be asked to close, so termination ends the session itself. */
  lemma EndedEarly(s: Session, now: int, digest: string -> string)
    requires s.revoked && s.room == Room(map[], []) && s.life.closeOnce == InFlight && s.life.status == Closing
    ensures var l := Run(s, [DoRequestClose, DoMarkEnded(now, {})], digest).life;
      l.status == Ended && l.endedAt == Some(now) && l.published == s.life.published
  {
    RunTwo(s, DoRequestClose, DoMarkEnded(now, {}), digest);
  }

  /** The race: so revoked, the session is closing or has ended, and is then called connected. */
  lemma RaceExample(cfg: Config, now: int, digest: string -> string)
    requires cfg.grant.Some?
    ensures Run(New(cfg, now), [DoMarkRevoked, DoTerminate(now, {}), DoPublish(now)], digest).life.status == Connected
    ensures var l := Run(New(cfg, now),
      [DoMarkRevoked, DoTerminate(now, {}), DoRequestClose, DoMarkEnded(now, {}), DoPublish(now)], digest).life;
      l.status == Connected && l.endedAt == Some(now)
  {
    var a, b, c, d, e := DoMarkRevoked, DoTerminate(now, {}), DoRequestClose, DoMarkEnded(now, {}), DoPublish(now);
    assert [a, b, e][..2] == [a, b] && [a, b, c, d, e][..4] == [a, b] + [c, d];
    RevokedEarly(cfg, now, digest);
    RunAppend(New(cfg, now), [a, b], [c, d], digest);
    EndedEarly(Run(New(cfg, now), [a, b], digest), now, digest);
  }

  /** Before it is published nobody is attached, and only a revocation has touched the session. */
  ghost predicate CreationInv(s: Session) {
    && (s.revoked ==> s.cfg.grant.Some?)
    && (!s.life.published ==>
          && s.room == Room(map[], []) && s.life.controller == ""
          && (s.life.status == Connecting || s.revoked))
  }

  lemma StepKeepsCreation(s: Session, a: Action, digest: string -> string)
    requires CreationInv(s)
    ensures CreationInv(Apply(s, a, digest))
  {
    var s' := Apply(s, a, digest);
    BufferAfter(s, a, digest);
    if !s'.life.published && Enabled(s, a) {
      assert s'.room.conns == s.room.conns;
    }
  }

  // ----- runs -----

  ghost predicate Inv(s: Session) {
    && ReplayInv(s.buffer, s.revoked, s.cfg.maxReplayBytes)
    && RoomInv(s.room) && ControlInv(s.cfg.kind, s.life, s.room)
    && ClientsInv(s.room, s.buffer.accepted, s.cfg.maxReplayBytes)
    && Told(s.room, s.life.controller)
    && CreationInv(s)
  }

  lemma StepKeepsInv(s: Session, a: Action, digest: string -> string)
    requires Inv(s)
    ensures Inv(Apply(s, a, digest)) && Apply(s, a, digest).cfg == s.cfg
  {
    BufferAfter(s, a, digest);
    StepKeepsReplay(s, a, digest);
    StepKeepsRoom(s, a, digest);
    StepKeepsControl(s, a, digest);
    if a.DoAppendOutput? {
      AppendKeepsClients(s, a.data, a.now, a.slow, digest);
    } else {
      StepKeepsClients(s, a, digest);
    }
    ClientsAnswer(s.room, s.buffer.accepted, s.cfg.maxReplayBytes);
    StepTells(s, a, digest);
    StepKeepsCreation(s, a, digest);
  }

  lemma ClientsAnswer(r: Room, accepted: seq<Entry>, max: nat)
    requires ClientsInv(r, accepted, max)
    ensures AnswersInv(r)
  {
    forall h | 0 <= h < |r.conns| ensures ClientOk(r.conns[h], accepted, max, Current(r, h)) {
    }
  }

  lemma {:induction false} RunKeepsInv(s: Session, actions: seq<Action>, digest: string -> string)
    requires Inv(s)
    ensures Inv(Run(s, actions, digest)) && Run(s, actions, digest).cfg == s.cfg
    decreases |actions|
  {
    if actions == [] {
    } else {
      RunKeepsInv(s, actions[..|actions| - 1], digest);
      StepKeepsInv(Run(s, actions[..|actions| - 1], digest), actions[|actions| - 1], digest);
    }
  }

  lemma NewInv(cfg: Config, now: int)
    ensures Inv(New(cfg, now))
  {
    EmptyReplay(cfg.maxReplayBytes);
  }

  // ----- the theorems -----

  /**
   * In every run: output is numbered 1, 2, 3, ...; the byte count is exact and within the limit;
   * and until revocation the replay is the longest fitting suffix of all storable output, in
   * increasing order, the newest storable frame included.
   */
  lemma ReplayIsLongestSuffix(cfg: Config, now: int, actions: seq<Action>, digest: string -> string)
    ensures var s := Run(New(cfg, now), actions, digest);
      var b, max := s.buffer, cfg.maxReplayBytes;
      && (forall i :: 0 <= i < |b.accepted| ==> b.accepted[i].sequence == i + 1)
      && b.replayBytes == Bytes(b.replay) <= max
      && (!s.revoked ==> IsLongestFit(b.replay, b.accepted, max) && Increasing(b.replay))
      && (!s.revoked && Storable(b.accepted, max) != [] ==>
            b.replay != [] && b.replay[|b.replay| - 1] == Storable(b.accepted, max)[|Storable(b.accepted, max)| - 1])
  {
    NewInv(cfg, now);
    RunKeepsInv(New(cfg, now), actions, digest);
    var s := Run(New(cfg, now), actions, digest);
    if !s.revoked {
      ReplayIncreasing(s.buffer.replay, s.buffer.accepted, cfg.maxReplayBytes);
      if Storable(s.buffer.accepted, cfg.maxReplayBytes) != [] {
        NewestIsKept(s.buffer.replay, s.buffer.accepted, cfg.maxReplayBytes);
      }
    }
  }

  /**
   * Hello first, then the replay as it stood at the attach, then live output without gap or
   * duplicate, numbered from the attach plus one; for a current client, up to the latest, but for
   * the output that is just being sent.
   */
  ghost predicate Gapless(c: Client, accepted: seq<Entry>, max: nat, current: bool) {
    var out, soon := Outputs(History(c)), Outputs(Pending(c.offering));
    && c.attachedAt.Some? && Opens(History(c))
    && c.attachedAt.value + |out| + |soon| <= |accepted|
    && IsLongestFit(History(c)[1].entries, accepted[..c.attachedAt.value], max)
    && (forall i :: 0 <= i < |out| ==>
          out[i] == accepted[c.attachedAt.value + i] && out[i].sequence == c.attachedAt.value + i + 1)
    && (current ==> c.attachedAt.value + |out| + |soon| == |accepted|)
  }

  lemma StreamIsGapless(c: Client, accepted: seq<Entry>, max: nat, current: bool)
    requires ClientOk(c, accepted, max, current) && c.attachedAt.Some?
    requires forall i :: 0 <= i < |accepted| ==> accepted[i].sequence == i + 1
    ensures Gapless(c, accepted, max, current)
  {
    LoseLast(c);
    OutputsAppend(History(c), Pending(c.offering));
    var at, out, due := c.attachedAt.value, Outputs(History(c)), Outputs(Due(c));
    forall i | 0 <= i < |out| ensures out[i] == accepted[at + i] {
      assert out[i] == due[i] == accepted[at..at + |due|][i];
    }
  }

  /**
   * In every run, every connection that was ever attached was queued a gapless stream; while it is
   * attached and open, nothing is missing.
   */
  lemma ClientSeesGaplessOutput(cfg: Config, now: int, actions: seq<Action>, digest: string -> string, h: nat)
    requires h < |Run(New(cfg, now), actions, digest).room.conns|
    requires Run(New(cfg, now), actions, digest).room.conns[h].attachedAt.Some?
    ensures var s := Run(New(cfg, now), actions, digest);
      Gapless(s.room.conns[h], s.buffer.accepted, cfg.maxReplayBytes, Current(s.room, h))
  {
    NewInv(cfg, now);
    RunKeepsInv(New(cfg, now), actions, digest);
    var s := Run(New(cfg, now), actions, digest);
    StreamIsGapless(s.room.conns[h], s.buffer.accepted, cfg.maxReplayBytes, Current(s.room, h));
  }

  /**
   * A connection that was closed, by overflow or otherwise, stays closed, and of the frames it is
   * queued from then on each is one that had passed the test of `done`: at most the one broadcast
   * frame and the one answer under way at that moment.
   */
  lemma {:induction false} ClosedForGood(s: Session, later: seq<Action>, digest: string -> string, h: nat)
    requires h < |s.room.conns| && !s.room.conns[h].open
    ensures var r := Run(s, later, digest).room; h < |r.conns| && OnlyLeftovers(s.room.conns[h], r.conns[h])
    decreases |later|
  {
    if later == [] {
      Nothing(s.room.conns[h]);
    } else {
      ClosedForGood(s, later[..|later| - 1], digest, h);
      ClosedStep(Run(s, later[..|later| - 1], digest), later[|later| - 1], digest, h);
    }
  }

  /** After a close with nothing under way nothing more is queued, and in any case at most two frames. */
  lemma AtMostTwoAfterClose(s: Session, later: seq<Action>, digest: string -> string, h: nat)
    requires h < |s.room.conns| && !s.room.conns[h].open
    ensures var c, r := s.room.conns[h], Run(s, later, digest).room;
      && h < |r.conns|
      && |History(r.conns[h])| <= |History(c)| + |Pending(c.offering)| + |Pending(c.answering)|
      && (c.offering.None? && c.answering.None? ==> History(r.conns[h]) == History(c))
  {
    ClosedForGood(s, later, digest, h);
    var c, c' := s.room.conns[h], Run(s, later, digest).room.conns[h];
    SubmultisetSize(multiset(History(c')), multiset(History(c)) + Underway(c));
  }

  /** After one more write and the send, the frame under way is in the record. */
  lemma LeftoverArrives(s: Session, digest: string -> string, h: nat) returns (later: seq<Action>)
    requires s.life.published && h < |s.room.conns| && !s.room.conns[h].open &&
      |s.room.conns[h].queue| <= CLIENT_QUEUE_SIZE
    requires s.room.conns[h].offering.Some? || s.room.conns[h].answering.Some?
    ensures var r := Run(s, later, digest).room;
      h < |r.conns| && |History(r.conns[h])| == |History(s.room.conns[h])| + 1
  {
    var c := s.room.conns[h];
    var send := if c.offering.Some? then SendOffer(h) else SendAnswer(h);
    later := [WriteFrame(h), send];
    RunTwo(s, WriteFrame(h), send, digest);
    var s1 := Apply(s, WriteFrame(h), digest);
    WriteIsQuiet(c);
    assert s1.room == With(s.room, h, Written(c)) && HasRoom(Written(c));
    ConnStepIs(s1, send, digest);
    assert Apply(s1, send, digest).room == With(s1.room, h, ConnAfter(Written(c), send));
  }

  /** Nothing more is ever queued for a closed connection if and only if no frame was under way at its close. */
  lemma ClosedExactly(s: Session, digest: string -> string, h: nat)
    requires s.life.published && h < |s.room.conns| && !s.room.conns[h].open &&
      |s.room.conns[h].queue| <= CLIENT_QUEUE_SIZE
    ensures s.room.conns[h].offering.None? && s.room.conns[h].answering.None?
      <==> forall later :: SameRecord(s, later, digest, h)
  {
    var c := s.room.conns[h];
    if c.offering.None? && c.answering.None? {
      forall later ensures SameRecord(s, later, digest, h) {
        AtMostTwoAfterClose(s, later, digest, h);
      }
    } else {
      var later := LeftoverArrives(s, digest, h);
      assert !SameRecord(s, later, digest, h);
    }
  }

  /** The run leaves what was queued for connection h as it was. */
  ghost predicate SameRecord(s: Session, later: seq<Action>, digest: string -> string, h: nat)
    requires h < |s.room.conns|
  {
    var r := Run(s, later, digest).room;
    h < |r.conns| && History(r.conns[h]) == History(s.room.conns[h])
  }

  /** The client just attached, and the announcement of its attach still to be sent to it. */
  lemma AttachedSlowly(cfg: Config, id: string, now: int, digest: string -> string)
    requires cfg.kind == Logs && id != ""
    ensures var s := Run(New(cfg, now), [DoPublish(now), DoAddClient(id, now, {0})], digest);
      && s.life.published && |s.room.conns| == 1 && s.room.conns[0].open && s.room.conns[0].offering.Some?
      && |s.room.conns[0].queue| == 2 && s.room.conns[0].written == []
  {
    RunTwo(New(cfg, now), DoPublish(now), DoAddClient(id, now, {0}), digest);
    var s1 := Apply(New(cfg, now), DoPublish(now), digest);
    var r := Join(s1.room, Newcomer(s1, id));
    assert r.conns == [Newcomer(s1, id)] && Attached(r, 0);
  }

  /** A run that queues a frame for a closed connection: it is closed between the test and the send. */
  lemma LateFrameExample(cfg: Config, id: string, now: int, digest: string -> string)
    requires cfg.kind == Logs && id != ""
    ensures var before := [DoPublish(now), DoAddClient(id, now, {0})];
      var s := Run(New(cfg, now), before + [CloseConn(0)], digest);
      var s' := Run(New(cfg, now), before + [CloseConn(0), SendOffer(0)], digest);
      && |s.room.conns| == 1 == |s'.room.conns| && !s.room.conns[0].open && !s'.room.conns[0].open
      && |History(s'.room.conns[0])| == |History(s.room.conns[0])| + 1
  {
    var before := [DoPublish(now), DoAddClient(id, now, {0})];
    AttachedSlowly(cfg, id, now, digest);
    var s0 := Run(New(cfg, now), before, digest);
    RunAppend(New(cfg, now), before, [CloseConn(0)], digest);
    RunAppend(New(cfg, now), before, [CloseConn(0), SendOffer(0)], digest);
    RunTwo(s0, CloseConn(0), SendOffer(0), digest);
    assert [CloseConn(0)][..0] == [] && Run(s0, [CloseConn(0)], digest) == Apply(s0, CloseConn(0), digest);
  }

  lemma {:induction false} SubmultisetSize(a: multiset<Frame>, b: multiset<Frame>)
    requires a <= b
    ensures |a| <= |b|
  {
    assert b == a + (b - a);
  }

  /**
   * In every run: a controller is an attached client of a terminal session that has not ended, a
   * logs session never has one, and the backend is asked to close at most once.
   */
  lemma ControlAndCloseInvariant(cfg: Config, now: int, actions: seq<Action>, digest: string -> string)
    ensures var s := Run(New(cfg, now), actions, digest);
      && (s.life.controller != "" ==>
            s.life.controller in s.room.clients && s.room.clients[s.life.controller] < |s.room.conns| &&
              cfg.kind == Terminal && s.life.status != Ended)
      && (cfg.kind == Logs ==> s.life.controller == "")
      && s.life.closeRequests <= 1
  {
    NewInv(cfg, now);
    RunKeepsInv(New(cfg, now), actions, digest);
  }

  /**
   * In every run, every attached, open client was last told, or is just being told, of the controller
   * the session has.
   */
  lemma ClientsKnowController(cfg: Config, now: int, actions: seq<Action>, digest: string -> string)
    ensures var s := Run(New(cfg, now), actions, digest); Told(s.room, s.life.controller)
  {
    NewInv(cfg, now);
    RunKeepsInv(New(cfg, now), actions, digest);
  }

  /** In every run, creation's unlocked write lands late only on a session that was revoked, and that has no clients. */
  lemma LateWriteIsRevoked(cfg: Config, now: int, actions: seq<Action>, digest: string -> string, a: Action)
    ensures var s := Run(New(cfg, now), actions, digest);
      Races(s, a) ==> cfg.grant.Some? && s.revoked && s.room.clients == map[] && s.life.controller == ""
  {
    NewInv(cfg, now);
    RunKeepsInv(New(cfg, now), actions, digest);
  }

  /** The status of a session moves forward in all its runs if and only if it is not bound to a grant. */
  lemma ForwardExactlyWithoutGrant(cfg: Config, now: int, digest: string -> string)
    ensures cfg.grant.None? <==> forall actions :: NoRace(New(cfg, now), actions, digest)
  {
    if cfg.grant.None? {
      forall actions ensures NoRace(New(cfg, now), actions, digest) {
        forall n | 0 <= n < |actions| ensures !RacesAt(New(cfg, now), actions, n, digest) {
          LateWriteIsRevoked(cfg, now, actions[..n], digest, actions[n]);
        }
      }
    } else {
      var a, b, c := DoMarkRevoked, DoTerminate(now, {}), DoPublish(now);
      RevokedEarly(cfg, now, digest);
      assert [a, b, c][..2] == [a, b] && [a, b, c][2] == c;
      assert RacesAt(New(cfg, now), [a, b, c], 2, digest);
      assert !NoRace(New(cfg, now), [a, b, c], digest);
    }
  }

  /** A run keeps its status moving forward exactly when creation's unlocked write does not land late. */
  lemma RunForwardExactly(s: Session, actions: seq<Action>, digest: string -> string)
    ensures NoRace(s, actions, digest) <==> forall n :: 0 <= n < |actions| ==> !BackAt(s, actions, n, digest)
  {
    forall n | 0 <= n < |actions| ensures RacesAt(s, actions, n, digest) == BackAt(s, actions, n, digest) {
      assert actions[..n + 1][..n] == actions[..n];
      StatusForwardExactly(Run(s, actions[..n], digest), actions[n], digest);
    }
  }

  /** The n-th step is creation's late write, on a session that has ended. */
  predicate RevivesAt(s: Session, actions: seq<Action>, n: nat, digest: string -> string)
    requires n < |actions|
  {
    RacesAt(s, actions, n, digest) && Run(s, actions[..n], digest).life.status == Ended
  }

  ghost predicate EndInvAt(s: Session, actions: seq<Action>, n: nat, digest: string -> string)
    requires n <= |actions|
  {
    EndInv(Run(s, actions[..n], digest).life)
  }

  lemma EndInvStep(s: Session, actions: seq<Action>, n: nat, digest: string -> string)
    requires n < |actions| && EndInvAt(s, actions, n, digest)
    ensures EndInvAt(s, actions, n + 1, digest) <==> !RevivesAt(s, actions, n, digest)
  {
    assert actions[..n + 1][..n] == actions[..n];
    StepKeepsEnd(Run(s, actions[..n], digest), actions[n], digest);
  }

  lemma {:induction false} EndInvUpTo(s: Session, actions: seq<Action>, n: nat, digest: string -> string)
    requires EndInv(s.life) && n <= |actions| && forall m :: 0 <= m < n ==> !RevivesAt(s, actions, m, digest)
    ensures EndInvAt(s, actions, n, digest)
    decreases n
  {
    if n == 0 {
      assert actions[..0] == [];
    } else {
      EndInvUpTo(s, actions, n - 1, digest);
      EndInvStep(s, actions, n - 1, digest);
    }
  }

  /**
   * All along a run a session has ended exactly when its end time is set, if and only if creation's
   * late write never lands on one that has ended.
   */
  lemma EndedIffEndTime(cfg: Config, now: int, actions: seq<Action>, digest: string -> string)
    ensures (forall n :: 0 <= n <= |actions| ==> EndInvAt(New(cfg, now), actions, n, digest))
      <==> (forall n :: 0 <= n < |actions| ==> !RevivesAt(New(cfg, now), actions, n, digest))
  {
    var s := New(cfg, now);
    if forall n :: 0 <= n < |actions| ==> !RevivesAt(s, actions, n, digest) {
      forall n | 0 <= n <= |actions| ensures EndInvAt(s, actions, n, digest) {
        EndInvUpTo(s, actions, n, digest);
      }
    } else {
      var n :| 0 <= n < |actions| && RevivesAt(s, actions, n, digest);
      if EndInvAt(s, actions, n, digest) {
        EndInvStep(s, actions, n, digest);
        assert !EndInvAt(s, actions, n + 1, digest);
      }
    }
  }

  /**
   * In all its runs a session has ended exactly when its end time is set, if and only if it is not
   * bound to a grant.
   */
  lemma EndedExactlyWithoutGrant(cfg: Config, now: int, digest: string -> string)
    ensures cfg.grant.None? <==> forall actions :: EndInv(Run(New(cfg, now), actions, digest).life)
  {
    if cfg.grant.None? {
      forall actions ensures EndInv(Run(New(cfg, now), actions, digest).life) {
        forall n | 0 <= n < |actions| ensures !RevivesAt(New(cfg, now), actions, n, digest) {
          LateWriteIsRevoked(cfg, now, actions[..n], digest, actions[n]);
        }
        EndInvUpTo(New(cfg, now), actions, |actions|, digest);
        assert actions[..|actions|] == actions;
      }
    } else {
      RaceExample(cfg, now, digest);
      var actions := [DoMarkRevoked, DoTerminate(now, {}), DoRequestClose, DoMarkEnded(now, {}), DoPublish(now)];
      assert !EndInv(Run(New(cfg, now), actions, digest).life);
    }
  }

  /** A terminal in use always has somebody in control. */
  ghost predicate Controlled(kind: Kind, l: Life, r: Room) {
    kind == Terminal && l.status != Ended && r.clients != map[] ==> l.controller != ""
  }

  lemma AddKeepsControlled(s: Session, id: string, now: int, slow: set<nat>)
    requires Controlled(s.cfg.kind, s.life, s.room) && id != ""
    ensures var s' := AddClient(s, id, now, slow); Controlled(s.cfg.kind, s'.life, s'.room)
  {
  }

  lemma RemoveKeepsControlled(s: Session, h: nat, pick: string, slow: set<nat>)
    requires RoomInv(s.room) && Controlled(s.cfg.kind, s.life, s.room) && CanPick(s, h, pick)
    ensures var s' := RemoveClient(s, h, pick, slow); Controlled(s.cfg.kind, s'.life, s'.room)
  {
  }

  lemma OthersKeepControlled(s: Session, a: Action, digest: string -> string)
    requires RoomInv(s.room) && Controlled(s.cfg.kind, s.life, s.room) && CreationInv(s)
    requires !a.DoAddClient? && !a.DoRemoveClient?
    ensures var s' := Apply(s, a, digest); Controlled(s.cfg.kind, s'.life, s'.room)
  {
    RoomAfter(s, a, digest);
  }

  lemma StepKeepsControlled(s: Session, a: Action, digest: string -> string)
    requires RoomInv(s.room) && CreationInv(s) && Controlled(s.cfg.kind, s.life, s.room)
    ensures var s' := Apply(s, a, digest); Controlled(s.cfg.kind, s'.life, s'.room)
  {
    if !Enabled(s, a) {
    } else if a.DoAddClient? {
      if a.id != "" {
        AddKeepsControlled(s, a.id, a.now, a.slow);
      }
    } else if a.DoRemoveClient? {
      if CanPick(s, a.h, a.pick) {
        RemoveKeepsControlled(s, a.h, a.pick, a.slow);
      }
    } else {
      OthersKeepControlled(s, a, digest);
    }
  }

  /** In every run, a terminal that has not ended and has clients has a controller, and it is one of them. */
  lemma {:induction false} OccupiedTerminalIsControlled(cfg: Config, now: int, actions: seq<Action>,
      digest: string -> string)
    ensures var s := Run(New(cfg, now), actions, digest);
      && Controlled(cfg.kind, s.life, s.room)
      && (cfg.kind == Terminal && s.life.status != Ended && s.room.clients != map[] ==>
            s.life.controller in s.room.clients)
    decreases |actions|
  {
    NewInv(cfg, now);
    RunKeepsInv(New(cfg, now), actions, digest);
    if actions != [] {
      var before := actions[..|actions| - 1];
      OccupiedTerminalIsControlled(cfg, now, before, digest);
      RunKeepsInv(New(cfg, now), before, digest);
      StepKeepsControlled(Run(New(cfg, now), before, digest), actions[|actions| - 1], digest);
    }
  }

  // ----- what reaches the backend -----

  ghost predicate Sendable(kind: Kind, c: Command) {
    kind == Terminal && Acceptable(c)
  }

  ghost predicate CommandsOk(kind: Kind, w: Work) {
    && (forall t :: t in w.pending ==> Sendable(kind, w.pending[t]))
    && (forall x :: x in w.sent ==> Sendable(kind, x.command))
  }

  /** Only two kinds of step touch the commands. */
  lemma CommandsAfter(s: Session, a: Action, digest: string -> string)
    ensures var w, w' := s.work, Apply(s, a, digest).work;
      || (w'.pending == w.pending && w'.sent == w.sent)
      || (a.CheckCommand? && MayCommand(s, a.h) && Acceptable(a.c) && w'.pending == w.pending[a.t := a.c] &&
            w'.sent == w.sent)
      || (a.SendCommand? && a.t in w.pending && w'.pending == w.pending - {a.t} &&
            w'.sent == w.sent + [Forwarded(a.t, w.pending[a.t])])
  {
  }

  lemma StepKeepsCommands(s: Session, a: Action, digest: string -> string)
    requires CommandsOk(s.cfg.kind, s.work)
    ensures CommandsOk(s.cfg.kind, Apply(s, a, digest).work)
  {
    CommandsAfter(s, a, digest);
    assert a.CheckCommand? && MayCommand(s, a.h) && Acceptable(a.c) ==> Sendable(s.cfg.kind, a.c);
  }

  /** In every run the backend is sent only well-formed input and sizes, and nothing at all by a logs session. */
  lemma {:induction false} CommandsWellFormed(cfg: Config, now: int, actions: seq<Action>, digest: string -> string)
    ensures var s := Run(New(cfg, now), actions, digest); s.cfg == cfg && CommandsOk(cfg.kind, s.work)
    decreases |actions|
  {
    if actions == [] {
    } else {
      CommandsWellFormed(cfg, now, actions[..|actions| - 1], digest);
      StepKeepsCommands(Run(New(cfg, now), actions[..|actions| - 1], digest), actions[|actions| - 1], digest);
      BufferAfter(Run(New(cfg, now), actions[..|actions| - 1], digest), actions[|actions| - 1], digest);
    }
  }

  /** The k-th step of the run is the check that let command c of task t through, made by the attached controller. */
  ghost predicate CheckedAt(s: Session, actions: seq<Action>, digest: string -> string, t: nat, c: Command, k: nat) {
    && k < |actions| && actions[k].CheckCommand? && actions[k].t == t && actions[k].c == c
    && Acceptable(c) && MayCommand(Run(s, actions[..k], digest), actions[k].h)
  }

  ghost predicate Checked(s: Session, actions: seq<Action>, digest: string -> string, t: nat, c: Command) {
    exists k: nat :: CheckedAt(s, actions, digest, t, c, k)
  }

  lemma StaysChecked(s: Session, actions: seq<Action>, digest: string -> string, t: nat, c: Command)
    requires actions != [] && Checked(s, actions[..|actions| - 1], digest, t, c)
    ensures Checked(s, actions, digest, t, c)
  {
    var before := actions[..|actions| - 1];
    var k: nat :| CheckedAt(s, before, digest, t, c, k);
    assert before[..k] == actions[..k];
    assert CheckedAt(s, actions, digest, t, c, k);
  }

  ghost predicate AllChecked(s: Session, actions: seq<Action>, digest: string -> string, w: Work) {
    && (forall t :: t in w.pending ==> Checked(s, actions, digest, t, w.pending[t]))
    && (forall x :: x in w.sent ==> Checked(s, actions, digest, x.task, x.command))
  }

  lemma AllStayChecked(s: Session, actions: seq<Action>, digest: string -> string, w: Work)
    requires actions != [] && AllChecked(s, actions[..|actions| - 1], digest, w)
    ensures AllChecked(s, actions, digest, w)
  {
    forall t | t in w.pending ensures Checked(s, actions, digest, t, w.pending[t]) {
      StaysChecked(s, actions, digest, t, w.pending[t]);
    }
    forall x | x in w.sent ensures Checked(s, actions, digest, x.task, x.command) {
      StaysChecked(s, actions, digest, x.task, x.command);
    }
  }

  /**
   * In every run, every command that waits or was sent went through a check, at some step of the
   * run, at which its sender was the attached controller of the connected terminal.
   */
  lemma {:induction false} SentWasChecked(s: Session, actions: seq<Action>, digest: string -> string)
    requires s.work.pending == map[] && s.work.sent == []
    ensures AllChecked(s, actions, digest, Run(s, actions, digest).work)
    decreases |actions|
  {
    if actions == [] {
    } else {
      var before, a := actions[..|actions| - 1], actions[|actions| - 1];
      SentWasChecked(s, before, digest);
      var s1 := Run(s, before, digest);
      AllStayChecked(s, actions, digest, s1.work);
      CommandsAfter(s1, a, digest);
      if a.CheckCommand? && MayCommand(s1, a.h) && Acceptable(a.c) {
        assert CheckedAt(s, actions, digest, a.t, a.c, |before|);
        assert Checked(s, actions, digest, a.t, a.c);
      }
    }
  }

  // ----- revocation -----

  ghost predicate Grows<T(!new)>(before: seq<T>, after: seq<T>, allowed: T -> bool) {
    |before| <= |after| && after[..|before|] == before && forall n :: |before| <= n < |after| ==> allowed(after[n])
  }

  /**
   * From a revoked session on: no output, no replay, and no admission but from checks that had read
   * the flag before.
   */
  ghost predicate RevokedSince(s: Session, s': Session) {
    && s'.revoked && s'.buffer.replay == [] && s'.buffer.replayBytes == 0 && s'.buffer.accepted == s.buffer.accepted
    && s'.work.matching <= s.work.matching
    && Grows(s.work.admissions, s'.work.admissions, (x: Admission) => x.task in s.work.matching)
  }

  /** From a revoked session without clients on: nobody attached, and no command but those checked before. */
  ghost predicate EmptySince(s: Session, s': Session) {
    && s'.room.clients == map[]
    && s'.work.pending.Keys <= s.work.pending.Keys
    && Grows(s.work.sent, s'.work.sent, (x: Forwarded) => x.task in s.work.pending)
  }

  lemma RevokedStep(s: Session, s1: Session, a: Action, digest: string -> string)
    requires RevokedSince(s, s1)
    ensures RevokedSince(s, Apply(s1, a, digest))
  {
    BufferAfter(s1, a, digest);
  }

  lemma EmptyStep(s: Session, s1: Session, a: Action, digest: string -> string)
    requires EmptySince(s, s1) && s1.revoked
    ensures EmptySince(s, Apply(s1, a, digest))
  {
  }

  lemma {:induction false} RevokedRun(s: Session, later: seq<Action>, digest: string -> string)
    requires s.revoked && s.buffer.replay == [] && s.buffer.replayBytes == 0
    ensures RevokedSince(s, Run(s, later, digest))
    ensures s.room.clients == map[] ==> EmptySince(s, Run(s, later, digest))
    decreases |later|
  {
    if later == [] {
    } else {
      var before, a := later[..|later| - 1], later[|later| - 1];
      RevokedRun(s, before, digest);
      RevokedStep(s, Run(s, before, digest), a, digest);
      if s.room.clients == map[] {
        EmptyStep(s, Run(s, before, digest), a, digest);
      }
    }
  }

  /** Growth by admissible steps, one stretch after another. */
  lemma GrowsOn<T(!new)>(a: seq<T>, b: seq<T>, c: seq<T>, first: T -> bool, second: T -> bool)
    requires Grows(a, b, first) && Grows(b, c, second) && forall x :: second(x) ==> first(x)
    ensures Grows(a, c, first)
  {
    assert c[..|a|] == b[..|a|];
    forall n | |a| <= n < |c| ensures first(c[n]) {
      if n < |b| {
        assert c[n] == b[n];
      } else {
        assert second(c[n]);
      }
    }
  }

  /** The stages of a revocation keep what every run keeps of the control. */
  lemma {:induction false} RunKeepsControl(s: Session, actions: seq<Action>, digest: string -> string)
    requires RoomInv(s.room) && ControlInv(s.cfg.kind, s.life, s.room)
    ensures var s' := Run(s, actions, digest);
      s'.cfg == s.cfg && RoomInv(s'.room) && ControlInv(s'.cfg.kind, s'.life, s'.room)
    decreases |actions|
  {
    if actions == [] {
    } else {
      var before, a := actions[..|actions| - 1], actions[|actions| - 1];
      RunKeepsControl(s, before, digest);
      BufferAfter(Run(s, before, digest), a, digest);
      StepKeepsRoom(Run(s, before, digest), a, digest);
      StepKeepsControl(Run(s, before, digest), a, digest);
    }
  }

  /**
   * Revocation is absorbing. Whatever ran before it, between its first critical section and its
   * last, and afterwards: in every later state the replay is empty, no client is attached, no
   * output was recorded since the mark; a secret is admitted only by a check that had read the flag
   * before the mark; and the backend is sent only commands checked before the clients were removed.
   */
  lemma RevocationAbsorbs(cfg: Config, now: int, before: seq<Action>, during: seq<Action>, later: seq<Action>,
      digest: string -> string)
    ensures var marked := MarkRevoked(Run(New(cfg, now), before, digest));
      var detached := DetachAll(Run(marked, during, digest));
      var s := Run(detached, later, digest);
      && s.revoked && s.buffer.replay == [] && s.buffer.replayBytes == 0
      && s.buffer.accepted == marked.buffer.accepted
      && s.room.clients == map[] && s.life.controller == ""
      && Grows(marked.work.admissions, s.work.admissions, (x: Admission) => x.task in marked.work.matching)
      && Grows(detached.work.sent, s.work.sent, (x: Forwarded) => x.task in detached.work.pending)
  {
    var marked := MarkRevoked(Run(New(cfg, now), before, digest));
    var detached := DetachAll(Run(marked, during, digest));
    var s := Run(detached, later, digest);
    RevokedRun(marked, during, digest);
    RevokedRun(detached, later, digest);
    GrowsOn(marked.work.admissions, detached.work.admissions, s.work.admissions,
            (x: Admission) => x.task in marked.work.matching, (x: Admission) => x.task in detached.work.matching);
    RunKeepsControl(New(cfg, now), before, digest);
    RunKeepsControl(marked, during, digest);
    RunKeepsControl(detached, later, digest);
  }

  // ----- expiry -----

  /**
   * A session bound to a grant admits its secret only through a live check that both began and
   * ended before the ticket's expiry, in every run and whatever the retention.
   */
  lemma {:induction false} AdmittedOnlyBeforeExpiry(cfg: Config, now: int, actions: seq<Action>,
      digest: string -> string)
    requires cfg.grant.Some?
    ensures var s := Run(New(cfg, now), actions, digest);
      && s.cfg == cfg
      && forall n :: 0 <= n < |s.work.admissions| ==>
           s.work.admissions[n].probe.before < cfg.grant.value.expiresAt &&
             s.work.admissions[n].probe.after < cfg.grant.value.expiresAt
    decreases |actions|
  {
    if actions == [] {
    } else {
      AdmittedOnlyBeforeExpiry(cfg, now, actions[..|actions| - 1], digest);
      BufferAfter(Run(New(cfg, now), actions[..|actions| - 1], digest), actions[|actions| - 1], digest);
    }
  }

  // ----- retention -----

  /** The clock a step reads. */
  function TimeOf(a: Action): Option<int> {
    match a
    case DoPublish(now) => Some(now)
    case DoAppendOutput(_, now, _) => Some(now)
    case DoAddClient(_, now, _) => Some(now)
    case DoClaimControl(_, now, _) => Some(now)
    case Touch(now) => Some(now)
    case DoTerminate(now, _) => Some(now)
    case DoMarkEnded(now, _) => Some(now)
    case _ => None
  }

  /** No step reads a clock before `from` or before an earlier step's. */
  ghost predicate Clocked(actions: seq<Action>, from: int) {
    && (forall n :: 0 <= n < |actions| && TimeOf(actions[n]).Some? ==> from <= TimeOf(actions[n]).value)
    && (forall m, n :: 0 <= m < n < |actions| && TimeOf(actions[m]).Some? && TimeOf(actions[n]).Some? ==>
          TimeOf(actions[m]).value <= TimeOf(actions[n]).value)
  }

  /** A step leaves the time of the last activity, or moves it to its own. */
  lemma ActivityAfter(s: Session, a: Action, digest: string -> string)
    ensures var l, l' := s.life, Apply(s, a, digest).life;
      l'.lastActivity == l.lastActivity || TimeOf(a) == Some(l'.lastActivity)
  {
  }

  /** The n-th step counted as activity. */
  ghost predicate UsedAt(s: Session, actions: seq<Action>, digest: string -> string, n: nat)
    requires n < |actions|
  {
    TimeOf(actions[n]) == Some(Run(s, actions[..n + 1], digest).life.lastActivity)
  }

  lemma UsedBefore(s: Session, actions: seq<Action>, digest: string -> string, m: nat)
    requires actions != [] && m < |actions| - 1
    ensures UsedAt(s, actions[..|actions| - 1], digest, m) == UsedAt(s, actions, digest, m)
  {
    assert actions[..|actions| - 1][..m + 1] == actions[..m + 1];
  }

  /** On a monotone clock the time of the last activity is the latest ever, and that of creation or of a step. */
  lemma {:induction false} ActivityIsLatest(s: Session, actions: seq<Action>, digest: string -> string, n: nat)
    requires Clocked(actions, s.life.lastActivity) && n <= |actions|
    ensures var t := Run(s, actions, digest).life.lastActivity;
      && (|| t == s.life.lastActivity
          || exists m :: 0 <= m < |actions| && UsedAt(s, actions, digest, m) && TimeOf(actions[m]) == Some(t))
      && Run(s, actions[..n], digest).life.lastActivity <= t
    decreases |actions|
  {
    if n == |actions| {
      assert actions[..n] == actions;
    }
    if actions != [] {
      var before, a := actions[..|actions| - 1], actions[|actions| - 1];
      var k := if n < |actions| then n else n - 1;
      assert before[..k] == actions[..k];
      assert forall m :: 0 <= m < |before| ==> before[m] == actions[m];
      ActivityIsLatest(s, before, digest, k);
      ActivityAfter(Run(s, before, digest), a, digest);
      var t, t' := Run(s, before, digest).life.lastActivity, Run(s, actions, digest).life.lastActivity;
      assert TimeOf(a).Some? ==> t <= TimeOf(a).value;
      if t' != t {
        assert actions[..|before| + 1] == actions;
        assert UsedAt(s, actions, digest, |before|);
      } else if t != s.life.lastActivity {
        var m :| 0 <= m < |before| && UsedAt(s, before, digest, m) && TimeOf(before[m]) == Some(t);
        UsedBefore(s, actions, digest, m);
      }
    }
  }

  /** A session has ended by a step that ended it, and keeps that step's time while it stays so. */
  lemma EndAfter(s: Session, a: Action, digest: string -> string)
    ensures var l, l' := s.life, Apply(s, a, digest).life;
      l'.status == Ended ==> if l.status == Ended then l'.endedAt == l.endedAt
        else a.DoMarkEnded? && l'.endedAt == Some(a.now)
  {
  }

  predicate HasEnded(s: Session, actions: seq<Action>, digest: string -> string, m: nat)
    requires m <= |actions|
  {
    Run(s, actions[..m], digest).life.status == Ended
  }

  /** The n-th step ended the session, and it was not revived since. */
  ghost predicate EndedForGoodAt(s: Session, actions: seq<Action>, digest: string -> string, n: nat)
    requires n < |actions|
  {
    && actions[n].DoMarkEnded? && !HasEnded(s, actions, digest, n)
    && forall m :: n < m <= |actions| ==> HasEnded(s, actions, digest, m)
  }

  lemma EndedBefore(s: Session, actions: seq<Action>, digest: string -> string, m: nat)
    requires actions != [] && m < |actions|
    ensures HasEnded(s, actions[..|actions| - 1], digest, m) == HasEnded(s, actions, digest, m)
  {
    assert actions[..|actions| - 1][..m] == actions[..m];
  }

  lemma StaysEnded(s: Session, actions: seq<Action>, digest: string -> string, n: nat)
    requires actions != [] && n < |actions| - 1 && EndedForGoodAt(s, actions[..|actions| - 1], digest, n)
    requires HasEnded(s, actions, digest, |actions|)
    ensures EndedForGoodAt(s, actions, digest, n)
  {
    forall m | n <= m < |actions| ensures HasEnded(s, actions[..|actions| - 1], digest, m)
      == HasEnded(s, actions, digest, m) {
      EndedBefore(s, actions, digest, m);
    }
  }

  lemma EndsNow(s: Session, actions: seq<Action>, digest: string -> string)
    requires actions != [] && actions[|actions| - 1].DoMarkEnded?
    requires Run(s, actions[..|actions| - 1], digest).life.status != Ended &&
      Run(s, actions, digest).life.status == Ended
    ensures EndedForGoodAt(s, actions, digest, |actions| - 1)
  {
    assert actions[..|actions|] == actions;
    assert HasEnded(s, actions, digest, |actions|);
  }

  /** The end time of an ended session is that of the step that ended it for good. */
  lemma {:induction false} EndTimeIsReal(s: Session, actions: seq<Action>, digest: string -> string) returns (n: nat)
    requires s.life.status != Ended && Run(s, actions, digest).life.status == Ended
    ensures n < |actions| && EndedForGoodAt(s, actions, digest, n)
    ensures Run(s, actions, digest).life.endedAt == Some(actions[n].now)
    decreases |actions|
  {
    var before, a := actions[..|actions| - 1], actions[|actions| - 1];
    EndAfter(Run(s, before, digest), a, digest);
    if Run(s, before, digest).life.status == Ended {
      n := EndTimeIsReal(s, before, digest);
      assert actions[..|actions|] == actions;
      StaysEnded(s, actions, digest, n);
    } else {
      n := |before|;
      EndsNow(s, actions, digest);
    }
  }

  lemma EndedOnce(s: Session, actions: seq<Action>, digest: string -> string, m: nat, n: nat)
    requires m < |actions| && EndedForGoodAt(s, actions, digest, m)
    requires n < |actions| && EndedForGoodAt(s, actions, digest, n)
    ensures m == n
  {
  }

  /** The retention of an ended session is over: the step that ended it for good lies that far back. */
  ghost predicate EndedLongAgo(s: Session, actions: seq<Action>, digest: string -> string, now: int, retention: int) {
    exists n :: 0 <= n < |actions| && EndedForGoodAt(s, actions, digest, n) && now - actions[n].now >= retention
  }

  /** The retention of an active one is over: so do its creation and every step that counted as activity. */
  ghost predicate UnusedFor(s: Session, actions: seq<Action>, digest: string -> string, now: int, retention: int) {
    && now - s.life.lastActivity >= retention
    && forall n :: 0 <= n < |actions| && UsedAt(s, actions, digest, n) ==> now - TimeOf(actions[n]).value >= retention
  }

  lemma EndedLongAgoExactly(s: Session, actions: seq<Action>, digest: string -> string, now: int, retention: int)
    requires s.life.status != Ended && Run(s, actions, digest).life.status == Ended
    ensures var t := Run(s, actions, digest).life.endedAt;
      t.Some? && (now - t.value >= retention <==> EndedLongAgo(s, actions, digest, now, retention))
  {
    var n := EndTimeIsReal(s, actions, digest);
    if EndedLongAgo(s, actions, digest, now, retention) {
      var m :| 0 <= m < |actions| && EndedForGoodAt(s, actions, digest, m) && now - actions[m].now >= retention;
      EndedOnce(s, actions, digest, m, n);
    }
  }

  lemma UnusedIfIdle(s: Session, actions: seq<Action>, digest: string -> string, now: int, retention: int)
    requires Clocked(actions, s.life.lastActivity)
    requires now - Run(s, actions, digest).life.lastActivity >= retention
    ensures UnusedFor(s, actions, digest, now, retention)
  {
    ActivityIsLatest(s, actions, digest, 0);
    assert actions[..0] == [] && Run(s, [], digest) == s;
    forall n | 0 <= n < |actions| && UsedAt(s, actions, digest, n) ensures now - TimeOf(actions[n]).value >= retention {
      ActivityIsLatest(s, actions, digest, n + 1);
    }
  }

  lemma IdleIfUnused(s: Session, actions: seq<Action>, digest: string -> string, now: int, retention: int)
    requires Clocked(actions, s.life.lastActivity)
    requires UnusedFor(s, actions, digest, now, retention)
    ensures now - Run(s, actions, digest).life.lastActivity >= retention
  {
    ActivityIsLatest(s, actions, digest, 0);
    var t := Run(s, actions, digest).life.lastActivity;
    if t != s.life.lastActivity {
      var m :| 0 <= m < |actions| && UsedAt(s, actions, digest, m) && TimeOf(actions[m]) == Some(t);
    }
  }

  /**
   * Retention, exactly, on a monotone clock: an ended session may be removed if and only if the step
   * that ended it for good lies at least `endedRetention` back, any other if and only if its creation
   * and every step that counted as activity lie at least `activeRetention` back.
   */
  lemma RemovedExactlyAfterRetention(cfg: Config, created: int, actions: seq<Action>, digest: string -> string,
                                     now: int, activeRetention: int, endedRetention: int)
    requires Clocked(actions, created)
    ensures var l := Run(New(cfg, created), actions, digest).life;
      Expired(l, now, activeRetention, endedRetention).0 <==>
        if l.status == Ended then EndedLongAgo(New(cfg, created), actions, digest, now, endedRetention)
        else UnusedFor(New(cfg, created), actions, digest, now, activeRetention)
  {
    if Run(New(cfg, created), actions, digest).life.status == Ended {
      EndedLongAgoExactly(New(cfg, created), actions, digest, now, endedRetention);
    } else {
      if now - Run(New(cfg, created), actions, digest).life.lastActivity >= activeRetention {
        UnusedIfIdle(New(cfg, created), actions, digest, now, activeRetention);
      } else if UnusedFor(New(cfg, created), actions, digest, now, activeRetention) {
        IdleIfUnused(New(cfg, created), actions, digest, now, activeRetention);
      }
    }
  }
}
