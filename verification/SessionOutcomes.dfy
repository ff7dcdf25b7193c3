/** What the steps of a console session bring about: output accepted, clients attached, control, commands, admission. */
module SessionOutcomes {
  import opened Prelude
  import opened ReplayBuffer
  import opened Delegation
  import opened Session
  import opened SessionStreams
  import SessionRuns

  /** Creation is over and the session's lock is free. */
  predicate Free(s: Session) {
    s.life.published && !Busy(s.room)
  }

  // ----- output -----

  function Data(entries: seq<Entry>): seq<string> {
    seq(|entries|, i requires 0 <= i < |entries| => entries[i].data)
  }

  /** Output arriving now is to be recorded: the session is neither revoked nor closing nor ended. */
  predicate TakesOutput(s: Session) {
    Free(s) && !s.revoked && (s.life.status == Connecting || s.life.status == Connected)
  }

  /** Told from the steps: the output that arrived while the session took it. */
  function Arrived(s: Session, actions: seq<Action>, digest: string -> string): seq<string> {
    if actions == [] then []
    else
      var before, a := actions[..|actions| - 1], actions[|actions| - 1];
      Arrived(s, before, digest)
        + if a.DoAppendOutput? && TakesOutput(Run(s, before, digest)) then [a.data] else []
  }

  lemma AcceptedAfter(s: Session, a: Action, digest: string -> string)
    ensures Data(Apply(s, a, digest).buffer.accepted)
         == Data(s.buffer.accepted) + if a.DoAppendOutput? && TakesOutput(s) then [a.data] else []
  {
    var b, b' := s.buffer, Apply(s, a, digest).buffer;
    SessionRuns.BufferAfter(s, a, digest);
    assert Data(b.accepted) + [] == Data(b.accepted);
    if a.DoAppendOutput? && TakesOutput(s) {
      assert b'.accepted == b.accepted + [Entry(b.nextSequence + 1, a.data)];
    }
  }

  /**
   * In every run the output recorded is exactly the output that arrived while the session took it,
   * whoever was attached, unaltered and in order.
   */
  lemma {:induction false} OutputIsRecorded(cfg: Config, now: int, actions: seq<Action>, digest: string -> string)
    ensures Data(Run(New(cfg, now), actions, digest).buffer.accepted) == Arrived(New(cfg, now), actions, digest)
    decreases |actions|
  {
    if actions == [] {
    } else {
      OutputIsRecorded(cfg, now, actions[..|actions| - 1], digest);
      AcceptedAfter(Run(New(cfg, now), actions[..|actions| - 1], digest), actions[|actions| - 1], digest);
    }
  }

  /** Output connects a session that was still connecting, and counts as activity; nothing else happens to its life. */
  lemma OutputIsActivity(s: Session, data: string, now: int, slow: set<nat>, digest: string -> string)
    ensures var s' := Apply(s, DoAppendOutput(data, now, slow), digest);
      && (TakesOutput(s) ==> s'.life == s.life.(status := Connected, lastActivity := now))
      && (!TakesOutput(s) ==> s' == s)
  {
  }

  /** All the text of a buffer. */
  function Joined(s: seq<Entry>): string {
    if s == [] then "" else s[0].data + Joined(s[1..])
  }

  /** The byte count of a buffer: its text, and 32 for each entry. */
  lemma {:induction false} BytesExactly(s: seq<Entry>)
    ensures Bytes(s) == |Joined(s)| + 32 * |s|
    decreases |s|
  {
    if s == [] {
    } else {
      BytesExactly(s[1..]);
    }
  }

  // ----- clients -----

  /** Control after an attach: a terminal that has not ended and has no controller gives it to the newcomer. */
  function ControllerThen(s: Session, id: string): string {
    if s.cfg.kind == Terminal && s.life.status != Ended && s.life.controller == "" then id else s.life.controller
  }

  /** The new connection of a tab is attached and greeted; an older one of the same tab is closed; other tabs stay. */
  lemma AttachOutcome(s: Session, id: string, now: int, slow: set<nat>, digest: string -> string)
    requires Free(s) && !s.revoked && id != ""
    ensures var s', h := Apply(s, DoAddClient(id, now, slow), digest), |s.room.conns|;
      && |s'.room.conns| == h + 1 && s'.room.clients == s.room.clients[id := h]
      && Current(s'.room, h) && s'.room.conns[h].id == id
      && Due(s'.room.conns[h]) ==
           [Hello(s.life.status, ControllerThen(s, id)), Replay(s.buffer.replay),
             Control(s.life.status, ControllerThen(s, id))]
      && (id in s.room.clients && s.room.clients[id] < h ==> !s'.room.conns[s.room.clients[id]].open)
      && s'.life == s.life.(controller := ControllerThen(s, id), lastActivity := now)
      && s'.buffer == s.buffer
  {
    var c := Newcomer(s, id);
    var r := Join(s.room, c);
    assert r.conns[|s.room.conns|] == c && Attached(r, |s.room.conns|);
    var f := Control(s.life.status, ControllerThen(s, id));
    var c' := Offer(c, f, |s.room.conns| in slow);
    assert Due(c') == c.queue + [f];
  }

  /** After a revocation a newcomer is turned away. */
  lemma TurnedAway(s: Session, id: string, now: int, slow: set<nat>, digest: string -> string)
    requires Free(s) && s.revoked && id != ""
    ensures var s' := Apply(s, DoAddClient(id, now, slow), digest);
      && s'.room.clients == s.room.clients && s'.life == s.life
      && |s'.room.conns| == |s.room.conns| + 1 && !s'.room.conns[|s.room.conns|].open
      && Due(s'.room.conns[|s.room.conns|]) == []
  {
  }

  /** A connection that leaves is no longer attached, other tabs are; control moves only if its tab had it. */
  lemma DetachOutcome(s: Session, h: nat, pick: string, slow: set<nat>, digest: string -> string)
    requires Free(s) && CanPick(s, h, pick)
    ensures var s' := Apply(s, DoRemoveClient(h, pick, slow), digest);
      var id := s.room.conns[h].id;
      && s'.room.clients == (if Attached(s.room, h) then s.room.clients - {id} else s.room.clients)
      && !Attached(s'.room, h)
      && (s.life.controller != id ==> s'.life.controller == s.life.controller)
      && (s.life.controller == id && s'.room.clients == map[] ==> s'.life.controller == "")
      && (s.life.controller == id && s'.room.clients != map[] ==> s'.life.controller in s'.room.clients)
      && s'.life == s.life.(controller := s'.life.controller)
  {
  }

  /**
   * A claim takes control for an attached client of a live terminal, from whichever tab had it; no
   * other claim does anything.
   */
  lemma ClaimOutcome(s: Session, h: nat, now: int, slow: set<nat>, digest: string -> string)
    requires Free(s)
    ensures var s' := Apply(s, DoClaimControl(h, now, slow), digest);
      var may := s.cfg.kind == Terminal && s.life.status != Ended && Attached(s.room, h);
      && (may ==> s'.life == s.life.(controller := s.room.conns[h].id, lastActivity := now))
      && (!may ==> s' == s)
  {
  }

  /** A broadcast comes with the step. */
  predicate Broadcasts(a: Action) {
    a.DoAppendOutput? || a.DoAddClient? || a.DoRemoveClient? || a.DoClaimControl? || a.DoTerminate? || a.DoMarkEnded?
  }

  lemma BroadcastCloses(r: Room, f: Frame, slow: set<nat>, h: nat)
    requires h < |r.conns| && r.conns[h].open && !Broadcast(r, f, slow).conns[h].open
    ensures |r.conns[h].queue| >= 256
  {
  }

  /**
   * A connection closes only because somebody closes it, its tab attaches anew, or its queue of 256 is
   * full when a frame is sent.
   */
  lemma ClosesOnlyWithReason(s: Session, a: Action, digest: string -> string, h: nat)
    requires h < |s.room.conns| && s.room.conns[h].open
    requires h < |Apply(s, a, digest).room.conns| && !Apply(s, a, digest).room.conns[h].open
    ensures
      || a == CloseConn(h)
      || (a.DoAddClient? && a.id in s.room.clients && s.room.clients[a.id] == h)
      || ((a == SendOffer(h) || Broadcasts(a)) && |s.room.conns[h].queue| >= 256)
  {
    if ConnStep(a) {
      ConnStepIs(s, a, digest);
    } else if a.DoAddClient? && !s.revoked {
      var r := Join(s.room, Newcomer(s, a.id));
      if r.conns[h].open {
        BroadcastCloses(r, Control(s.life.status, ControllerAfterJoin(s, a.id)), a.slow, h);
      }
    }
  }

  /** A frame offered to an open client with room is in its record after the send, and the client is still open. */
  lemma OfferArrives(c: Client, f: Frame)
    requires c.open && |c.queue| < 256 && c.offering.None?
    ensures Offer(c, f, false).open && History(Offer(c, f, false)) == History(c) + [f]
    ensures Offered(Offer(c, f, true)).open && History(Offered(Offer(c, f, true))) == History(c) + [f]
  {
    assert c.written + (c.queue + [f]) == History(c) + [f];
  }

  /** A pong or error for an open client with room is in its record after test and send. */
  lemma AnswerOutcome(s: Session, h: nat, f: Frame, digest: string -> string)
    requires s.life.published && h < |s.room.conns| && (f.Pong? || f.Error?)
    requires s.room.conns[h].open && s.room.conns[h].answering.None? && |s.room.conns[h].queue| < 256
    ensures var s' := Run(s, [TestAnswer(h, f), SendAnswer(h)], digest);
      h < |s'.room.conns| && s'.room.conns[h].open && History(s'.room.conns[h]) == History(s.room.conns[h]) + [f]
  {
    SessionRuns.RunTwo(s, TestAnswer(h, f), SendAnswer(h), digest);
    var c := s.room.conns[h];
    assert c.written + (c.queue + [f]) == History(c) + [f];
    var s1 := Apply(s, TestAnswer(h, f), digest);
    assert s1.room.conns[h] == c.(answering := Some(f));
  }

  /** The writer hands over the frame that has waited longest. */
  lemma WriteOutcome(s: Session, h: nat, digest: string -> string)
    requires s.life.published && h < |s.room.conns| && s.room.conns[h].queue != []
    ensures var c, s' := s.room.conns[h], Apply(s, WriteFrame(h), digest);
      && h < |s'.room.conns|
      && s'.room.conns[h] == c.(written := c.written + [c.queue[0]], queue := c.queue[1..])
  {
  }

  lemma CloseOutcome(s: Session, h: nat, digest: string -> string)
    requires s.life.published && h < |s.room.conns|
    ensures var r := Apply(s, CloseConn(h), digest).room; h < |r.conns| && r.conns[h] == s.room.conns[h].(open := false)
  {
  }

  // ----- the life of a session -----

  /** Creation ends with a connected session; this and a touch while connected count as activity. */
  lemma PublishOutcome(s: Session, now: int, digest: string -> string)
    ensures !s.life.published ==>
      Apply(s, DoPublish(now), digest) == s.(life := s.life.(status := Connected, lastActivity := now,
        published := true))
    ensures Free(s) && s.life.status == Connected ==>
      Apply(s, Touch(now), digest) == s.(life := s.life.(lastActivity := now))
  {
  }

  /** The first termination of a session that has not ended announces the closing and asks the backend, once. */
  lemma TerminateOutcome(s: Session, now: int, slow: set<nat>, digest: string -> string)
    requires Free(s)
    ensures var s' := Run(s, [DoTerminate(now, slow), DoRequestClose], digest);
      && (s.life.closeOnce == Unused && s.life.status != Ended ==>
            s'.life == s.life.(status := Closing, lastActivity := now, closeOnce := Spent,
              closeRequests := s.life.closeRequests + 1))
      && (s.life.closeOnce == Unused && s.life.status == Ended ==> s'.life == s.life.(closeOnce := Spent))
      && (s.life.closeOnce == Spent ==> s' == s)
  {
    SessionRuns.RunTwo(s, DoTerminate(now, slow), DoRequestClose, digest);
  }

  /** A session that has not ended ends at that time, without controller. */
  lemma EndOutcome(s: Session, now: int, slow: set<nat>, digest: string -> string)
    requires Free(s)
    ensures var s' := Apply(s, DoMarkEnded(now, slow), digest);
      && s'.life == (if s.life.status == Ended then s.life
                     else s.life.(status := Ended, controller := "", endedAt := Some(now), lastActivity := now))
      && s'.room.clients == s.room.clients
  {
  }

  // ----- commands and admission -----

  /** Exactly which commands go through, from whom. */
  predicate GoesThrough(s: Session, h: nat, c: Command) {
    && s.cfg.kind == Terminal && s.life.status == Connected && h < |s.room.conns|
    && s.room.conns[h].id in s.room.clients && s.room.clients[s.room.conns[h].id] == h
    && s.life.controller == s.room.conns[h].id
    && (c.Input? ==> 1 <= |c.data| <= 98304 && c.base64)
    && (c.Resize? ==> 2 <= c.cols <= 1000 && 2 <= c.rows <= 1000)
  }

  /**
   * Check and send: the command reaches the backend, as it is, exactly if its sender controls the
   * connected terminal.
   */
  lemma CommandOutcome(s: Session, t: nat, h: nat, c: Command, digest: string -> string)
    requires Free(s) && t !in s.work.pending
    ensures Run(s, [CheckCommand(t, h, c), SendCommand(t)], digest).work.sent
         == s.work.sent + if GoesThrough(s, h, c) then [Forwarded(t, c)] else []
  {
    SessionRuns.RunTwo(s, CheckCommand(t, h, c), SendCommand(t), digest);
    assert s.work.sent + [] == s.work.sent;
    var s1 := Apply(s, CheckCommand(t, h, c), digest);
    assert GoesThrough(s, h, c) <==> MayCommand(s, h) && Acceptable(c);
    assert s1 == if GoesThrough(s, h, c) then s.(work := s.work.(pending := s.work.pending[t := c])) else s;
  }

  /** Every command that waits or was sent went through by these very conditions at the step that checked it. */
  lemma CheckedMeansThrough(s: Session, actions: seq<Action>, digest: string -> string, t: nat, c: Command, k: nat)
    requires SessionRuns.CheckedAt(s, actions, digest, t, c, k)
    ensures k < |actions| && actions[k].CheckCommand? && GoesThrough(Run(s, actions[..k], digest), actions[k].h, c)
  {
  }

  /** Compare and check: admitted exactly with the right secret, unrevoked, and a live check that passes. */
  lemma AdmissionOutcome(s: Session, t: nat, candidate: string, probe: Probe, digest: string -> string)
    requires Free(s) && t !in s.work.matching
    ensures Run(s, [ReadRevoked(t, candidate), DecideMatch(t, probe)], digest).work.admissions == s.work.admissions
      + if candidate == s.cfg.secretHash && !s.revoked && Check(s.cfg.token, s.cfg.grant, probe, digest)
        then [Admission(t, probe)] else []
  {
    SessionRuns.RunTwo(s, ReadRevoked(t, candidate), DecideMatch(t, probe), digest);
    assert s.work.admissions + [] == s.work.admissions;
  }

  /** The k-th step found the right secret given and the session not revoked. */
  ghost predicate SecretGivenAt(s: Session, actions: seq<Action>, digest: string -> string, t: nat, k: nat) {
    k < |actions| && actions[k] == ReadRevoked(t, s.cfg.secretHash) && !Run(s, actions[..k], digest).revoked
  }

  ghost predicate SecretGiven(s: Session, actions: seq<Action>, digest: string -> string, t: nat) {
    exists k: nat :: SecretGivenAt(s, actions, digest, t, k)
  }

  lemma StaysGiven(s: Session, actions: seq<Action>, digest: string -> string, t: nat)
    requires actions != [] && SecretGiven(s, actions[..|actions| - 1], digest, t)
    ensures SecretGiven(s, actions, digest, t)
  {
    var k: nat :| SecretGivenAt(s, actions[..|actions| - 1], digest, t, k);
    assert actions[..|actions| - 1][..k] == actions[..k];
    assert SecretGivenAt(s, actions, digest, t, k);
  }

  lemma WorkAfter(s: Session, a: Action, digest: string -> string)
    ensures var w, w' := s.work, Apply(s, a, digest).work;
      && (forall t :: t in w'.matching && t !in w.matching ==> a == ReadRevoked(t, s.cfg.secretHash) && !s.revoked)
      && (|| w'.admissions == w.admissions
          || (&& a.DecideMatch? && a.t in w.matching && Check(s.cfg.token, s.cfg.grant, a.probe, digest)
              && w'.admissions == w.admissions + [Admission(a.t, a.probe)]))
  {
  }

  /**
   * In every run every admission was earned: the right secret was given at some step, before the
   * session was revoked, and the live check of the admission passed.
   */
  lemma {:induction false} AdmissionWasEarned(s: Session, actions: seq<Action>, digest: string -> string)
    requires s.work.matching == {} && s.work.admissions == []
    ensures var s' := Run(s, actions, digest);
      && s'.cfg == s.cfg
      && (forall t :: t in s'.work.matching ==> SecretGiven(s, actions, digest, t))
      && (forall x :: x in s'.work.admissions ==>
            SecretGiven(s, actions, digest, x.task) && Check(s.cfg.token, s.cfg.grant, x.probe, digest))
    decreases |actions|
  {
    if actions == [] {
    } else {
      var before, a := actions[..|actions| - 1], actions[|actions| - 1];
      AdmissionWasEarned(s, before, digest);
      var s1 := Run(s, before, digest);
      WorkAfter(s1, a, digest);
      SessionRuns.BufferAfter(s1, a, digest);
      forall t | SecretGiven(s, before, digest, t) ensures SecretGiven(s, actions, digest, t) {
        StaysGiven(s, actions, digest, t);
      }
      if a.ReadRevoked? && a.candidate == s.cfg.secretHash && !s1.revoked {
        assert SecretGivenAt(s, actions, digest, a.t, |before|);
      }
    }
  }
}
