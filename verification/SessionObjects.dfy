/** The session and manager objects, their fields updated in place under their locks. */
module SessionObjects {
  import opened Prelude
  import opened ReplayBuffer
  import opened Delegation
  import S = Session
  import SessionRuns
  import M = SessionManager

  /** What closing all attached clients leaves of a room. */
  function Emptied(r: S.Room): S.Room {
    S.Room(map[], seq(|r.conns|, h requires 0 <= h < |r.conns| =>
      if S.Attached(r, h) then r.conns[h].(open := false) else r.conns[h]))
  }

  /** Every tab leads to a connection of that tab. */
  ghost predicate Keyed(r: S.Room) {
    forall id :: id in r.clients ==> r.clients[id] < |r.conns| && r.conns[r.clients[id]].id == id
  }

  lemma JoinKeyed(r: S.Room, c: S.Client)
    requires Keyed(r)
    ensures Keyed(S.Join(r, c))
  {
  }

  /** `removeClient` as a whole. */
  ghost function Removed(s: S.Session, h: nat, pick: string): S.Session
    requires h < |s.room.conns|
  {
    var s1 := S.RemoveClient(s, h, pick, {});
    s1.(room := S.Shut(s1.room, h))
  }

  /** `terminate` as a whole: announce, ask the backend, and end at once if it cannot be asked. */
  ghost function Terminated(s: S.Session, now: int, closed: bool): S.Session {
    var begun := S.Terminate(s, now, {});
    var asked := S.RequestClose(begun);
    if begun.life.closeOnce == S.InFlight && !closed then S.MarkEnded(asked, now, {}) else asked
  }

  /** `closeClients` as a whole. */
  ghost function Cleared(s: S.Session): S.Session {
    s.(room := Emptied(s.room), life := s.life.(controller := ""))
  }

  /** `revokeDelegation` as a whole. */
  ghost function Revoked(s: S.Session, now: int, closed: bool): S.Session {
    Cleared(Terminated(S.MarkRevoked(s), now, closed))
  }

  /** What happens to a session that cleanup took out: one that was active is terminated, and its clients are closed. */
  ghost function Dismissed(s: S.Session, active: bool, now: int, closed: bool): S.Session {
    Cleared(if active then Terminated(s, now, closed) else s)
  }

  // ----- what the methods do whole is a run of the transition system -----

  lemma RunOne(s: S.Session, a: S.Action, digest: string -> string)
    ensures S.Run(s, [a], digest) == S.Apply(s, a, digest)
  {
    assert [a][..0] == [] && S.Run(s, [], digest) == s;
  }

  /** Somebody can get at the session: creation is over, or its watch has revoked it. */
  predicate Reachable(s: S.Session) {
    s.life.published || s.revoked
  }

  /** The closing of the clients among the first k connections. */
  ghost function EmptiedBelow(r: S.Room, k: nat): S.Room {
    S.Room(map[], seq(|r.conns|, h requires 0 <= h < |r.conns| =>
      if h < k && S.Attached(r, h) then r.conns[h].(open := false) else r.conns[h]))
  }

  lemma {:induction false} ClosingOneByOne(s: S.Session, k: nat, digest: string -> string)
    returns (actions: seq<S.Action>)
    requires k <= |s.room.conns| && Reachable(s)
    ensures S.Run(S.DetachAll(s), actions, digest) == S.DetachAll(s).(room := EmptiedBelow(s.room, k))
    decreases k
  {
    if k == 0 {
      actions := [];
      assert EmptiedBelow(s.room, 0).conns == s.room.conns;
    } else {
      var before := ClosingOneByOne(s, k - 1, digest);
      if S.Attached(s.room, k - 1) {
        actions := before + [S.CloseConn(k - 1)];
        SessionRuns.RunAppend(S.DetachAll(s), before, [S.CloseConn(k - 1)], digest);
        RunOne(S.DetachAll(s).(room := EmptiedBelow(s.room, k - 1)), S.CloseConn(k - 1), digest);
        assert S.Shut(EmptiedBelow(s.room, k - 1), k - 1).conns == EmptiedBelow(s.room, k).conns;
      } else {
        actions := before;
        assert EmptiedBelow(s.room, k - 1).conns == EmptiedBelow(s.room, k).conns;
      }
    }
  }

  lemma ClearedIsARun(s: S.Session, digest: string -> string) returns (actions: seq<S.Action>)
    requires Reachable(s) && !S.Busy(s.room)
    ensures S.Run(s, actions, digest) == Cleared(s)
  {
    var closing := ClosingOneByOne(s, |s.room.conns|, digest);
    RunOne(s, S.DoDetachAll, digest);
    SessionRuns.RunAppend(s, [S.DoDetachAll], closing, digest);
    actions := [S.DoDetachAll] + closing;
    assert EmptiedBelow(s.room, |s.room.conns|).conns == Emptied(s.room).conns;
  }

  /** A broadcast that reaches everybody at once leaves none under way. */
  lemma BroadcastNotBusy(r: S.Room, f: S.Frame)
    requires !S.Busy(r)
    ensures !S.Busy(S.Broadcast(r, f, {}))
  {
  }

  /** Announcing and asking. */
  lemma AskedIsARun(s: S.Session, now: int, digest: string -> string)
    requires Reachable(s) && !S.Busy(s.room)
    ensures var asked := S.RequestClose(S.Terminate(s, now, {}));
      && S.Run(s, [S.DoTerminate(now, {}), S.DoRequestClose], digest) == asked
      && Reachable(asked) && !S.Busy(asked.room)
  {
    SessionRuns.RunTwo(s, S.DoTerminate(now, {}), S.DoRequestClose, digest);
    BroadcastNotBusy(s.room, S.StatusChange(S.Closing, s.life.controller));
  }

  lemma EndApplies(s: S.Session, now: int, digest: string -> string)
    requires Reachable(s) && !S.Busy(s.room)
    ensures S.Apply(s, S.DoMarkEnded(now, {}), digest) == S.MarkEnded(s, now, {})
  {
  }

  lemma TerminatedIsARun(s: S.Session, now: int, closed: bool, digest: string -> string)
    returns (actions: seq<S.Action>)
    requires Reachable(s) && !S.Busy(s.room)
    ensures S.Run(s, actions, digest) == Terminated(s, now, closed)
  {
    actions := [S.DoTerminate(now, {}), S.DoRequestClose];
    AskedIsARun(s, now, digest);
    if S.Terminate(s, now, {}).life.closeOnce == S.InFlight && !closed {
      var asked := S.RequestClose(S.Terminate(s, now, {}));
      SessionRuns.RunAppend(s, actions, [S.DoMarkEnded(now, {})], digest);
      RunOne(asked, S.DoMarkEnded(now, {}), digest);
      EndApplies(asked, now, digest);
      actions := actions + [S.DoMarkEnded(now, {})];
    }
  }

  /**
   * A revocation run through is the mark, a run, the detachment and a run: what holds in every run
   * holds after it, and revocation being absorbing applies to it.
   */
  lemma RevokedIsARun(s: S.Session, now: int, closed: bool, digest: string -> string)
    returns (during: seq<S.Action>, later: seq<S.Action>)
    requires !S.Busy(s.room)
    ensures S.Run(S.DetachAll(S.Run(S.MarkRevoked(s), during, digest)), later, digest) == Revoked(s, now, closed)
  {
    during := TerminatedIsARun(S.MarkRevoked(s), now, closed, digest);
    var s1 := Terminated(S.MarkRevoked(s), now, closed);
    later := ClosingOneByOne(s1, |s1.room.conns|, digest);
    assert EmptiedBelow(s1.room, |s1.room.conns|).conns == Emptied(s1.room).conns;
  }

  lemma RemovedIsARun(s: S.Session, h: nat, pick: string, digest: string -> string)
    requires S.CanPick(s, h, pick) && s.life.published && !S.Busy(s.room)
    ensures S.Run(s, [S.DoRemoveClient(h, pick, {}), S.CloseConn(h)], digest) == Removed(s, h, pick)
  {
    SessionRuns.RunTwo(s, S.DoRemoveClient(h, pick, {}), S.CloseConn(h), digest);
    RemoveApplies(s, h, pick, digest);
    CloseApplies(S.RemoveClient(s, h, pick, {}), h, digest);
  }

  lemma RemoveApplies(s: S.Session, h: nat, pick: string, digest: string -> string)
    requires S.CanPick(s, h, pick) && s.life.published && !S.Busy(s.room)
    ensures S.Apply(s, S.DoRemoveClient(h, pick, {}), digest) == S.RemoveClient(s, h, pick, {})
    ensures S.RemoveClient(s, h, pick, {}).life.published
  {
  }

  lemma CloseApplies(s: S.Session, h: nat, digest: string -> string)
    requires Reachable(s)
    ensures S.Apply(s, S.CloseConn(h), digest) == s.(room := S.Shut(s.room, h))
  {
  }

  /** Control goes to `pick`, or to nobody, and this is announced. */
  ghost function Passed(s: S.Session, pick: string): S.Session {
    var controller := if s.room.clients == map[] then "" else pick;
    S.Informed(s.(life := s.life.(controller := controller)), S.Control(s.life.status, controller), {})
  }

  class PersistentSession {
    const kind: S.Kind
    const secretHash: string
    const maxReplayBytes: nat
    const token: string
    const grant: Option<Grant>
    var status: S.Status
    var controller: string
    var endedAt: Option<int>
    var lastActivity: int
    var closeOnce: S.Once
    var nextSequence: nat
    var replayBytes: int
    var replay: seq<Entry>
    var clients: map<string, nat>
    var conns: seq<S.Client>
    var delegationRevoked: bool
    ghost var published: bool
    ghost var closeRequests: nat
    ghost var accepted: seq<Entry>
    ghost var work: S.Work

    function RoomState(): S.Room
      reads this
    {
      S.Room(clients, conns)
    }

    ghost function LifeState(): S.Life
      reads this
    {
      S.Life(status, controller, endedAt, lastActivity, closeOnce, published, closeRequests)
    }

    ghost function State(): S.Session
      reads this
    {
      S.Session(S.Config(kind, secretHash, maxReplayBytes, token, grant), LifeState(), delegationRevoked,
                S.Buffer(nextSequence, replayBytes, replay, accepted), RoomState(), work)
    }

    constructor (cfg: S.Config, now: int)
      ensures State() == S.New(cfg, now) && Keyed(RoomState())
    {
      kind, secretHash, maxReplayBytes, token, grant := cfg.kind, cfg.secretHash, cfg.maxReplayBytes, cfg.token,
        cfg.grant;
      status, controller, endedAt, lastActivity, closeOnce := S.Connecting, "", None, now, S.Unused;
      nextSequence, replayBytes, replay := 0, 0, [];
      clients, conns, delegationRevoked := map[], [], false;
      published, closeRequests, accepted, work := false, 0, [], S.Work(map[], [], {}, []);
    }

    /** The write that ends creation. */
    method FinishCreation(now: int)
      requires !published
      modifies this`status, this`lastActivity, this`published
      ensures State() == S.Publish(old(State()), now)
    {
      status, lastActivity, published := S.Connected, now, true;
    }

    /** `broadcastLocked`, in whatever order the map yields the clients. */
    method BroadcastLocked(f: S.Frame)
      requires Keyed(RoomState())
      modifies this`conns
      ensures State() == S.Informed(old(State()), f, {}) && Keyed(RoomState())
    {
      ghost var was := RoomState();
      var pending := clients.Keys;
      while pending != {}
        invariant pending <= clients.Keys && |conns| == |was.conns|
        invariant forall h :: 0 <= h < |conns| ==>
          conns[h] == (if S.Attached(was, h) && was.conns[h].id !in pending then S.Offer(was.conns[h], f, false)
            else was.conns[h])
        decreases pending
      {
        var id :| id in pending;
        pending := pending - {id};
        var h := clients[id];
        assert S.Attached(was, h);
        conns := conns[h := S.Offer(conns[h], f, false)];
      }
      assert conns == S.Broadcast(was, f, {}).conns;
    }

    /** The eviction loop of `appendOutput`. */
    method EvictLoop()
      modifies this`replay, this`replayBytes
      ensures (replay, replayBytes) == Evict(old(replay), old(replayBytes), maxReplayBytes)
    {
      while replayBytes > maxReplayBytes && |replay| > 0
        invariant Evict(replay, replayBytes, maxReplayBytes) == Evict(old(replay), old(replayBytes), maxReplayBytes)
        decreases |replay|
      {
        var removed := replay[0];
        replay := replay[1..];
        replayBytes := replayBytes - (|removed.data| + 32);
      }
    }

    /** Stores an entry if it is small enough, and evicts. */
    method Store(entry: Entry)
      modifies this`replay, this`replayBytes
      ensures (replay, replayBytes) == Stored(old(replay), old(replayBytes), entry, maxReplayBytes)
    {
      var frameBytes := |entry.data| + 32;
      if frameBytes <= maxReplayBytes {
        replay, replayBytes := replay + [entry], replayBytes + frameBytes;
        EvictLoop();
      }
    }

    /** The part of `appendOutput` before the broadcast. */
    method RecordOutput(data: string, now: int)
      modifies this`status, this`lastActivity, this`nextSequence, this`replay, this`replayBytes, this`accepted
      ensures State() == S.Recorded(old(State()), data, now)
    {
      NumberOutput(data, now);
      Store(Entry(nextSequence, data));
    }

    method NumberOutput(data: string, now: int)
      modifies this`status, this`lastActivity, this`nextSequence, this`accepted
      ensures status == S.Connected && lastActivity == now && nextSequence == old(nextSequence) + 1
      ensures accepted == old(accepted) + [Entry(nextSequence, data)]
    {
      status, lastActivity := S.Connected, now;
      nextSequence := nextSequence + 1;
      accepted := accepted + [Entry(nextSequence, data)];
    }

    method AppendOutput(data: string, now: int)
      requires Keyed(RoomState())
      modifies this`status, this`lastActivity, this`nextSequence, this`replay, this`replayBytes, this`accepted,
        this`conns
      ensures State() == S.AppendOutput(old(State()), data, now, {}) && Keyed(RoomState())
    {
      if status == S.Ended || status == S.Closing || delegationRevoked {
        return;
      }
      RecordOutput(data, now);
      BroadcastLocked(S.Output(Entry(nextSequence, data), status));
    }

    /** Replaces an older connection of the tab and enters the new one with its greeting. */
    method Enter(id: string)
      requires Keyed(RoomState())
      modifies this`clients, this`conns
      ensures RoomState() == S.Join(old(RoomState()),
        S.Client(id, true, [S.Hello(status, controller), S.Replay(replay)], [], Some(nextSequence), None, None))
      ensures Keyed(RoomState())
    {
      JoinKeyed(RoomState(), S.Client(id, true, [S.Hello(status, controller), S.Replay(replay)], [],
        Some(nextSequence), None, None));
      if id in clients {
        var previous := clients[id];
        conns := conns[previous := conns[previous].(open := false)];
      }
      clients := clients[id := |conns|];
      conns := conns + [S.Client(id, true, [S.Hello(status, controller), S.Replay(replay)], [], Some(nextSequence),
        None, None)];
    }

    /** A newcomer gets control of a terminal that has no controller. */
    method TakeControl(id: string, now: int)
      modifies this`controller, this`lastActivity
      ensures controller == S.ControllerAfterJoin(old(State()), id) && lastActivity == now
    {
      lastActivity := now;
      if kind == S.Terminal && controller == "" && status != S.Ended {
        controller := id;
      }
    }

    /** `addClient` of a session that is not revoked. */
    method Admit(id: string, now: int)
      requires Keyed(RoomState()) && !delegationRevoked
      modifies this`controller, this`lastActivity, this`clients, this`conns
      ensures State() == S.AddClient(old(State()), id, now, {}) && Keyed(RoomState())
    {
      TakeControl(id, now);
      Enter(id);
      BroadcastLocked(S.Control(status, controller));
    }

    method AddClient(id: string, now: int)
      requires Keyed(RoomState())
      modifies this`controller, this`lastActivity, this`clients, this`conns
      ensures State() == S.AddClient(old(State()), id, now, {}) && Keyed(RoomState())
    {
      if delegationRevoked {
        conns := conns + [S.Client(id, false, [], [], None, None, None)];
      } else {
        Admit(id, now);
      }
    }

    /** Takes a connection out of the table, if it still stands for its tab. */
    method Vacate(h: nat)
      requires Keyed(RoomState()) && h < |conns|
      modifies this`clients
      ensures State() == old(State()).(room := S.Leave(old(RoomState()), h)) && Keyed(RoomState())
    {
      var id := conns[h].id;
      if id in clients && clients[id] == h {
        clients := clients - {id};
      }
    }

    /** Gives control to whichever tab the map yields first, or to nobody. */
    method PassControl() returns (ghost pick: string)
      requires Keyed(RoomState())
      modifies this`controller, this`conns
      ensures clients != map[] ==> pick in clients
      ensures State() == Passed(old(State()), pick) && Keyed(RoomState())
    {
      pick, controller := "", "";
      if clients != map[] {
        var next :| next in clients;
        controller, pick := next, next;
      }
      BroadcastLocked(S.Control(status, controller));
    }

    /** The locked part of `removeClient`. */
    method Detach(h: nat) returns (ghost pick: string)
      requires Keyed(RoomState()) && h < |conns|
      modifies this`clients, this`controller, this`conns
      ensures S.CanPick(old(State()), h, pick)
      ensures State() == S.RemoveClient(old(State()), h, pick, {}) && Keyed(RoomState())
    {
      pick := "";
      var id := conns[h].id;
      Vacate(h);
      if controller == id {
        pick := PassControl();
      }
    }

    /** Detaches and closes a connection; `pick` is the tab the map yielded for control. */
    method RemoveClient(h: nat) returns (ghost pick: string)
      requires Keyed(RoomState()) && h < |conns|
      modifies this`clients, this`controller, this`conns
      ensures S.CanPick(old(State()), h, pick)
      ensures State() == Removed(old(State()), h, pick) && Keyed(RoomState())
    {
      pick := Detach(h);
      conns := conns[h := conns[h].(open := false)];
    }

    method ClaimControl(h: nat, now: int)
      requires Keyed(RoomState()) && h < |conns|
      modifies this`controller, this`lastActivity, this`conns
      ensures State() == S.ClaimControl(old(State()), h, now, {}) && Keyed(RoomState())
    {
      if kind == S.Terminal && status != S.Ended && conns[h].id in clients && clients[conns[h].id] == h {
        controller := conns[h].id;
        lastActivity := now;
        BroadcastLocked(S.Control(status, controller));
      }
    }

    /** writeInput and resize up to the send: only the attached controller of a connected terminal gets through. */
    method CheckCommand(h: nat, c: S.Command) returns (forward: bool)
      requires h < |conns|
      ensures forward <==> S.MayCommand(State(), h) && S.Acceptable(c)
    {
      forward := kind == S.Terminal && status == S.Connected && controller == conns[h].id
        && conns[h].id in clients && clients[conns[h].id] == h && S.Acceptable(c);
    }

    method MarkEnded(now: int)
      requires Keyed(RoomState())
      modifies this`status, this`controller, this`endedAt, this`lastActivity, this`conns
      ensures State() == S.MarkEnded(old(State()), now, {}) && Keyed(RoomState())
    {
      if status == S.Ended {
        return;
      }
      status, controller, endedAt, lastActivity := S.Ended, "", Some(now), now;
      BroadcastLocked(S.StatusChange(status, ""));
    }

    /** The first, locked part of `terminate`. */
    method BeginTerminate(now: int)
      requires Keyed(RoomState())
      modifies this`status, this`lastActivity, this`closeOnce, this`conns
      ensures State() == S.Terminate(old(State()), now, {}) && Keyed(RoomState())
    {
      if closeOnce != S.Unused {
        return;
      }
      if status == S.Ended {
        closeOnce := S.Spent;
        return;
      }
      status, lastActivity, closeOnce := S.Closing, now, S.InFlight;
      BroadcastLocked(S.StatusChange(status, controller));
    }

    /**
     * Once: announce the closing, ask the backend, and end at once if the backend cannot be asked. A
     * call that finds another one in between waits for it; `closed` is then what that one is told.
     */
    method Terminate(now: int, closed: bool)
      requires Keyed(RoomState())
      modifies this
      ensures Keyed(RoomState())
      ensures State() == Terminated(old(State()), now, closed)
    {
      BeginTerminate(now);
      if closeOnce == S.InFlight {
        closeOnce, closeRequests := S.Spent, closeRequests + 1;
        if !closed {
          MarkEnded(now);
        }
      }
    }

    method CloseClients()
      requires Keyed(RoomState())
      modifies this`clients, this`controller, this`conns
      ensures State() == Cleared(old(State())) && Keyed(RoomState())
    {
      ghost var was := RoomState();
      var pending := clients.Keys;
      var handles := clients;
      clients, controller := map[], "";
      while pending != {}
        invariant pending <= handles.Keys && |conns| == |was.conns|
        invariant forall h :: 0 <= h < |conns| ==>
          conns[h] == (if S.Attached(was, h) && was.conns[h].id !in pending then was.conns[h].(open := false)
            else was.conns[h])
        invariant clients == map[] && controller == ""
        decreases pending
      {
        var id :| id in pending;
        pending := pending - {id};
        assert S.Attached(was, handles[id]);
        conns := conns[handles[id] := conns[handles[id]].(open := false)];
      }
      assert conns == Emptied(was).conns;
    }

    /** The first, locked part of `revokeDelegation`. */
    method MarkRevoked()
      modifies this`delegationRevoked, this`replay, this`replayBytes
      ensures State() == S.MarkRevoked(old(State()))
    {
      delegationRevoked, replay, replayBytes := true, [], 0;
    }

    /** Mark, terminate, detach: the three parts of a revocation run through. */
    method RevokeDelegation(now: int, closed: bool)
      requires Keyed(RoomState())
      modifies this
      ensures Keyed(RoomState())
      ensures State() == Revoked(old(State()), now, closed)
    {
      MarkRevoked();
      Terminate(now, closed);
      CloseClients();
    }

    /** The part of cleanup that follows outside the manager's lock. */
    method Dismiss(active: bool, now: int, closed: bool)
      requires Keyed(RoomState())
      modifies this
      ensures State() == Dismissed(old(State()), active, now, closed) && Keyed(RoomState())
    {
      if active {
        Terminate(now, closed);
      }
      CloseClients();
    }

    /**
     * Accepts the right secret of a session that is not revoked and still passes its live check; a
     * failed check revokes.
     */
    method MatchesSecretHash(candidate: string, probe: Probe, digest: string -> string, now: int, closed: bool)
      returns (ok: bool)
      requires Keyed(RoomState())
      modifies this
      ensures Keyed(RoomState())
      ensures ok <==> candidate == secretHash && !old(delegationRevoked) && Check(token, grant, probe, digest)
      ensures State() == if ok || candidate != secretHash || old(delegationRevoked) then old(State())
        else Revoked(old(State()), now, closed)
    {
      if candidate != secretHash || delegationRevoked {
        return false;
      }
      if !Check(token, grant, probe, digest) {
        RevokeDelegation(now, closed);
        return false;
      }
      return true;
    }

    method Expired(now: int, activeRetention: int, endedRetention: int) returns (remove: bool, active: bool)
      ensures (remove, active) == S.Expired(LifeState(), now, activeRetention, endedRetention)
    {
      if status == S.Ended {
        return endedAt.Some? && now - endedAt.value >= endedRetention, false;
      }
      return now - lastActivity >= activeRetention, true;
    }
  }

  datatype CreateError = Conflict | LimitReached | Unavailable

  /** What the backend and the Engine answer during one creation, and the clock when the backend has connected. */
  datatype Circumstances = Circumstances(probe: Probe, closed: bool, initialized: bool, connected: bool, later: int)

  /** A session on its way out of the manager. */
  datatype Leaving = Leaving(id: string, session: PersistentSession, active: bool)

  /** The list holds each of the ids once, with its session and whether it was active. */
  ghost predicate AllLeave(list: seq<Leaving>, sessions: map<string, PersistentSession>, ids: set<string>,
      active: set<string>)
  {
    && (forall n :: 0 <= n < |list| ==>
          list[n].id in ids && list[n].id in sessions && list[n].session == sessions[list[n].id] &&
            list[n].active == (list[n].id in active))
    && (forall id :: id in ids ==> exists n :: 0 <= n < |list| && list[n].id == id)
    && (forall m, n :: 0 <= m < n < |list| ==> list[m].id != list[n].id)
  }

  lemma OneMoreLeaves(list: seq<Leaving>, sessions: map<string, PersistentSession>, ids: set<string>,
      active: set<string>, l: Leaving)
    requires AllLeave(list, sessions, ids, active)
    requires l.id in sessions && l.id !in ids && l.session == sessions[l.id] && l.active == (l.id in active)
    ensures AllLeave(list + [l], sessions, ids + {l.id}, active)
  {
    var list' := list + [l];
    forall id | id in ids + {l.id} ensures exists n :: 0 <= n < |list'| && list'[n].id == id {
      if id == l.id {
        assert list'[|list|].id == id;
      } else {
        var n :| 0 <= n < |list| && list[n].id == id;
        assert list'[n].id == id;
      }
    }
  }

  /** The second loop of cleanup, after the lock is released. */
  method DismissAll(list: seq<Leaving>, now: int, closed: string -> bool)
    requires forall n :: 0 <= n < |list| ==> Keyed(list[n].session.RoomState())
    requires forall m, n :: 0 <= m < n < |list| ==> list[m].session != list[n].session
    modifies set n | 0 <= n < |list| :: list[n].session
    ensures forall n :: 0 <= n < |list| ==>
      list[n].session.State() == Dismissed(old(list[n].session.State()), list[n].active, now, closed(list[n].id))
  {
    ghost var was :=
      seq(|list|, n requires 0 <= n < |list| reads set l | l in list :: l.session => list[n].session.State());
    ghost var goal := seq(|list|, n requires 0 <= n < |list| =>
      Dismissed(was[n], list[n].active, now, closed(list[n].id)));
    for n := 0 to |list|
      invariant forall m :: n <= m < |list| ==> list[m].session.State() == was[m]
      invariant forall m :: 0 <= m < n ==> list[m].session.State() == goal[m]
    {
      assert list[n].session.State() == was[n];
      list[n].session.Dismiss(list[n].active, now, closed(list[n].id));
    }
  }

  /** A creation run through without interference. */
  ghost function Created(m: M.Manager, id: string, cfg: S.Config, now: int, around: Circumstances): M.Manager {
    M.Finished(M.Begun(m, id, cfg, now, around.initialized), around.connected, around.later)
  }

  lemma CreatedCases(m: M.Manager, id: string, cfg: S.Config, now: int, around: Circumstances)
    requires m.creating.None? && id !in m.sessions
    ensures Created(m, id, cfg, now, around) ==
      if |M.Active(m)| < m.maxSessions && around.initialized && around.connected
      then m.(sessions := m.sessions[id := S.Publish(S.New(cfg, now), around.later)])
      else m
  {
    if |M.Active(m)| < m.maxSessions && around.initialized {
      var begun := M.Begun(m, id, cfg, now, around.initialized);
      assert begun.sessions[id := S.Publish(S.New(cfg, now), around.later)]
        == m.sessions[id := S.Publish(S.New(cfg, now), around.later)];
      assert begun.sessions - {id} == m.sessions;
    }
  }

  /** Without the stale ids the map is what cleanup leaves. */
  lemma StaleExactly(was: map<string, S.Session>, now: int, activeRetention: int, endedRetention: int,
      stale: set<string>)
    requires forall id :: id in stale <==> id in was && S.Expired(was[id].life, now, activeRetention, endedRetention).0
    ensures was - stale == M.Cleaned(was, now, activeRetention, endedRetention)
  {
  }

  class PersistentSessionManager {
    const maxSessions: nat
    var sessions: map<string, PersistentSession>

    constructor (maxSessions: nat)
      ensures Valid() && sessions == map[] && this.maxSessions == maxSessions
    {
      this.maxSessions, sessions := maxSessions, map[];
    }

    ghost predicate Valid()
      reads this, sessions.Values
    {
      && (forall id :: id in sessions ==> Keyed(sessions[id].RoomState()))
      && (forall a, b :: a in sessions && b in sessions && a != b ==> sessions[a] != sessions[b])
    }

    ghost function ActiveIds(): set<string>
      reads this, sessions.Values
    {
      set id | id in sessions && sessions[id].status != S.Ended
    }

    /** The manager stands, between two creations, in state m of its transition system. */
    ghost predicate Mirrors(m: M.Manager)
      reads this, sessions.Values
    {
      && m.maxSessions == maxSessions && m.creating.None? && m.sessions.Keys == sessions.Keys
      && forall id :: id in sessions ==> sessions[id].State() == m.sessions[id]
    }

    lemma ActiveAgrees(m: M.Manager)
      requires Mirrors(m)
      ensures M.Active(m) == ActiveIds()
    {
    }

    method ActiveSessionCount() returns (count: nat)
      ensures count == |ActiveIds()|
    {
      count := 0;
      ghost var counted: set<string> := {};
      var pending := sessions.Keys;
      while pending != {}
        invariant pending <= sessions.Keys
        invariant counted == set id | id in sessions && id !in pending && sessions[id].status != S.Ended
        invariant count == |counted|
        decreases pending
      {
        var id :| id in pending;
        pending := pending - {id};
        if sessions[id].status != S.Ended {
          count := count + 1;
          counted := counted + {id};
        }
      }
      assert counted == ActiveIds();
    }

    /** The branch of creation for an id that is not in use. */
    method CreateNew(id: string, cfg: S.Config, now: int, around: Circumstances)
      returns (r: Result<PersistentSession, CreateError>)
      requires Valid() && id !in sessions
      modifies this`sessions
      ensures Valid()
      ensures r == Err(LimitReached) <==> old(|ActiveIds()|) >= maxSessions
      ensures sessions == if r.Ok? then old(sessions)[id := r.value] else old(sessions)
      ensures r.Ok? ==> around.initialized && around.connected
      ensures r.Ok? ==> fresh(r.value) && r.value.State() == S.Publish(S.New(cfg, now), around.later)
      ensures r.Err? && r != Err(LimitReached) ==> !around.initialized || !around.connected
    {
      var active := ActiveSessionCount();
      if active >= maxSessions {
        return Err(LimitReached);
      }
      if !around.initialized {
        return Err(Unavailable);
      }
      var session := Enroll(id, cfg, now, around);
      return if session.Some? then Ok(session.value) else Err(Unavailable);
    }

    /** The session is entered, connected, and published or taken out again. */
    method Enroll(id: string, cfg: S.Config, now: int, around: Circumstances) returns (r: Option<PersistentSession>)
      requires Valid() && id !in sessions
      modifies this`sessions
      ensures Valid() && (r.Some? <==> around.connected)
      ensures sessions == if r.Some? then old(sessions)[id := r.value] else old(sessions)
      ensures r.Some? ==> fresh(r.value) && r.value.State() == S.Publish(S.New(cfg, now), around.later)
    {
      var session := new PersistentSession(cfg, now);
      sessions := sessions[id := session];
      if !around.connected {
        sessions := sessions - {id};
        assert sessions == old(sessions);
        return None;
      }
      session.FinishCreation(around.later);
      return Some(session);
    }

    /** Creation under a free id is the two steps of the manager's transition system. */
    method CreateFree(id: string, cfg: S.Config, now: int, around: Circumstances, ghost m: M.Manager)
      returns (r: Result<PersistentSession, CreateError>)
      requires Valid() && Mirrors(m) && id !in sessions
      modifies this`sessions
      ensures Valid() && Mirrors(Created(m, id, cfg, now, around))
      ensures r == Err(LimitReached) <==> old(|ActiveIds()|) >= maxSessions
      ensures sessions == if r.Ok? then old(sessions)[id := r.value] else old(sessions)
      ensures r.Ok? ==> fresh(r.value) && r.value.State() == S.Publish(S.New(cfg, now), around.later)
    {
      ActiveAgrees(m);
      CreatedCases(m, id, cfg, now, around);
      r := CreateNew(id, cfg, now, around);
    }

    /** Hands back the existing session, or creates one within the limit; a failure leaves the map as it was. */
    method Create(id: string, cfg: S.Config, now: int, around: Circumstances, digest: string -> string,
        ghost m: M.Manager)
      returns (r: Result<PersistentSession, CreateError>, created: bool)
      requires Valid() && Mirrors(m)
      modifies this, if id in sessions then {sessions[id]} else {}
      ensures Valid()
      ensures created <==> r.Ok? && id !in old(sessions)
      ensures sessions == if created then old(sessions)[id := r.value] else old(sessions)
      ensures created ==> fresh(r.value) && r.value.State() == S.Publish(S.New(cfg, now), around.later)
      ensures created ==> old(|ActiveIds()|) < maxSessions
      ensures id in old(sessions) ==>
        (r.Ok? <==> && old(sessions)[id].secretHash == cfg.secretHash && old(sessions)[id].kind == cfg.kind
                    && !old(sessions[id].delegationRevoked) &&
                       Check(old(sessions)[id].token, old(sessions)[id].grant, around.probe, digest))
      ensures id in old(sessions) && r.Ok? ==> r.value == old(sessions)[id]
      ensures id in old(sessions) ==> var e := old(sessions)[id];
        e.State() == if e.secretHash == cfg.secretHash && !old(e.delegationRevoked) &&
          !Check(e.token, e.grant, around.probe, digest)
          then Revoked(old(e.State()), now, around.closed) else old(e.State())
      ensures id !in old(sessions) || r.Ok? ==> Mirrors(Created(m, id, cfg, now, around))
    {
      created := false;
      if id in sessions {
        var existing := sessions[id];
        var matches := existing.MatchesSecretHash(cfg.secretHash, around.probe, digest, now, around.closed);
        if !matches || existing.kind != cfg.kind {
          return Err(Conflict), false;
        }
        return Ok(existing), false;
      }
      r := CreateFree(id, cfg, now, around, m);
      created := r.Ok?;
    }

    ghost predicate IsExpired(s: PersistentSession, now: int, activeRetention: int, endedRetention: int)
      reads s
    {
      S.Expired(s.LifeState(), now, activeRetention, endedRetention).0
    }

    ghost function ExpiredIds(now: int, activeRetention: int, endedRetention: int): set<string>
      reads this, sessions.Values
    {
      set id | id in sessions && IsExpired(sessions[id], now, activeRetention, endedRetention)
    }

    /** The cleanup pass under the lock: what is removed is handed on, with whether it was active. */
    method Sweep(now: int, activeRetention: int, endedRetention: int) returns (expired: seq<Leaving>)
      modifies this`sessions
      ensures sessions == old(sessions) - old(ExpiredIds(now, activeRetention, endedRetention))
      ensures AllLeave(expired, old(sessions), old(ExpiredIds(now, activeRetention, endedRetention)), old(ActiveIds()))
    {
      expired := [];
      var pending := sessions.Keys;
      ghost var was, stale, active := sessions, ExpiredIds(now, activeRetention, endedRetention), ActiveIds();
      ghost var gone: set<string> := {};
      while pending != {}
        invariant pending <= was.Keys && gone == stale - pending
        invariant sessions == was - gone
        invariant AllLeave(expired, was, gone, active)
        decreases pending
      {
        var id :| id in pending;
        var session := sessions[id];
        var remove, busy := session.Expired(now, activeRetention, endedRetention);
        assert remove == (id in stale) && busy == (id in active);
        if remove {
          sessions := sessions - {id};
          OneMoreLeaves(expired, was, gone, active, Leaving(id, session, busy));
          expired := expired + [Leaving(id, session, busy)];
          gone := gone + {id};
        }
        pending := pending - {id};
      }
      assert gone == stale;
    }

    /**
     * The two loops of cleanup: the expired sessions leave the map, are terminated if they were active and lose their
     * clients; the others are untouched. `closed` says for which the backend could be asked to close.
     */
    method Retire(now: int, activeRetention: int, endedRetention: int, closed: string -> bool)
      requires Valid()
      modifies this`sessions, sessions.Values
      ensures sessions == old(sessions) - old(ExpiredIds(now, activeRetention, endedRetention))
      ensures forall id :: id in sessions ==> sessions[id].State() == old(sessions[id].State())
      ensures forall id :: id in old(ExpiredIds(now, activeRetention, endedRetention)) ==>
        old(sessions)[id].State() == Dismissed(old(sessions[id].State()), old(sessions[id].status != S.Ended), now,
          closed(id))
    {
      ghost var was, stale, active := sessions, ExpiredIds(now, activeRetention, endedRetention), ActiveIds();
      var expired := Sweep(now, activeRetention, endedRetention);
      forall id, n | id in sessions && 0 <= n < |expired| ensures expired[n].session != sessions[id] {
        assert expired[n].id in stale && id !in stale;
      }
      DismissAll(expired, now, closed);
      forall id | id in stale
        ensures was[id].State() == Dismissed(old(was[id].State()), id in active, now, closed(id))
      {
        var n :| 0 <= n < |expired| && expired[n].id == id;
      }
    }

    /** Cleanup is the step of the manager's transition system, and dismisses what it takes out. */
    method Cleanup(now: int, activeRetention: int, endedRetention: int, closed: string -> bool, ghost m: M.Manager)
      requires Valid() && Mirrors(m)
      modifies this`sessions, sessions.Values
      ensures Valid() && Mirrors(M.Swept(m, now, activeRetention, endedRetention))
      ensures sessions == old(sessions) - old(ExpiredIds(now, activeRetention, endedRetention))
      ensures forall id :: id in old(ExpiredIds(now, activeRetention, endedRetention)) ==>
        old(sessions)[id].State() == Dismissed(old(sessions[id].State()), old(sessions[id].status != S.Ended), now,
          closed(id))
    {
      ghost var stale := ExpiredIds(now, activeRetention, endedRetention);
      StaleExactly(m.sessions, now, activeRetention, endedRetention, stale);
      Retire(now, activeRetention, endedRetention, closed);
    }
  }
}
