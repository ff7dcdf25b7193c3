/**
 * The manager of console sessions (proxy/persistent_session_handler.go:386-490) as a transition
 * system: creation holds the manager's lock from its check to its last write, while the session it
 * has already published in the map, and all others, go on taking steps of their own.
 */
module SessionManager {
  import opened Prelude
  import S = Session
  import SessionRuns

  /** `creating` is the session whose creation holds the manager's lock. */
  datatype Manager = Manager(maxSessions: nat, sessions: map<string, S.Session>, creating: Option<string>)

  function NewManager(maxSessions: nat): Manager {
    Manager(maxSessions, map[], None)
  }

  /** `activeSessionCountLocked` counts these. */
  function Active(m: Manager): set<string> {
    set id | id in m.sessions && m.sessions[id].life.status != S.Ended
  }

  /** Removes exactly the sessions whose retention is over at `now`. */
  function Cleaned(sessions: map<string, S.Session>, now: int, activeRetention: int, endedRetention: int)
    : map<string, S.Session>
  {
    map id | id in sessions && !S.Expired(sessions[id].life, now, activeRetention, endedRetention).0 :: sessions[id]
  }

  datatype Action =
    | BeginCreate(id: string, cfg: S.Config, now: int, initialized: bool)
    | FinishCreate(connected: bool, now: int)
    | SessionStep(id: string, step: S.Action)
    | Cleanup(now: int, activeRetention: int, endedRetention: int)

  /** Creation up to the connect: the lock is taken, the id is free, there is room, and a key was issued. */
  function Begun(m: Manager, id: string, cfg: S.Config, now: int, initialized: bool): Manager {
    if m.creating.Some? || id in m.sessions || |Active(m)| >= m.maxSessions || !initialized then m
    else m.(sessions := m.sessions[id := S.New(cfg, now)], creating := Some(id))
  }

  /** Creation after the connect: the session is published, or taken out again. */
  function Finished(m: Manager, connected: bool, now: int): Manager {
    if m.creating.None? || m.creating.value !in m.sessions then m
    else if connected then
      m.(sessions := m.sessions[m.creating.value := S.Publish(m.sessions[m.creating.value], now)], creating := None)
    else m.(sessions := m.sessions - {m.creating.value}, creating := None)
  }

  function Swept(m: Manager, now: int, activeRetention: int, endedRetention: int): Manager {
    if m.creating.Some? then m else m.(sessions := Cleaned(m.sessions, now, activeRetention, endedRetention))
  }

  function Apply(m: Manager, a: Action, digest: string -> string): Manager {
    match a
    case BeginCreate(id, cfg, now, initialized) => Begun(m, id, cfg, now, initialized)
    case FinishCreate(connected, now) => Finished(m, connected, now)
    case SessionStep(id, step) =>
      if id in m.sessions && !step.DoPublish?
        then m.(sessions := m.sessions[id := S.Apply(m.sessions[id], step, digest)]) else m
    case Cleanup(now, activeRetention, endedRetention) => Swept(m, now, activeRetention, endedRetention)
  }

  function Run(m: Manager, actions: seq<Action>, digest: string -> string): Manager {
    if actions == [] then m
    else Apply(Run(m, actions[..|actions| - 1], digest), actions[|actions| - 1], digest)
  }

  // ----- the session limit -----

  /** The active sessions, and the one being created whatever its status. */
  ghost function Reserved(m: Manager): set<string> {
    Active(m) + if m.creating.Some? then {m.creating.value} else {}
  }

  ghost predicate Inv(m: Manager) {
    |Reserved(m)| <= m.maxSessions && (m.creating.Some? ==> m.creating.value in m.sessions)
  }

  lemma SessionStepReserves(m: Manager, id: string, step: S.Action, digest: string -> string)
    requires id in m.sessions && !step.DoPublish?
    ensures Active(m.(sessions := m.sessions[id := S.Apply(m.sessions[id], step, digest)])) <= Active(m)
  {
    SessionRuns.StatusForwardExactly(m.sessions[id], step, digest);
  }

  lemma CleanupReserves(m: Manager, now: int, activeRetention: int, endedRetention: int)
    ensures Active(m.(sessions := Cleaned(m.sessions, now, activeRetention, endedRetention))) <= Active(m)
  {
  }

  /** Only a creation that found room reserves more than before. */
  lemma ReservedAfter(m: Manager, a: Action, digest: string -> string)
    requires m.creating.Some? ==> m.creating.value in m.sessions
    ensures var m' := Apply(m, a, digest);
      && m'.maxSessions == m.maxSessions
      && (m'.creating.Some? ==> m'.creating.value in m'.sessions)
      && (Reserved(m') <= Reserved(m) ||
            (a.BeginCreate? && |Active(m)| < m.maxSessions && Reserved(m') <= Active(m) + {a.id}))
  {
    match a
    case SessionStep(id, step) =>
      if id in m.sessions && !step.DoPublish? {
        SessionStepReserves(m, id, step, digest);
      }
    case Cleanup(now, activeRetention, endedRetention) => CleanupReserves(m, now, activeRetention, endedRetention);
    case BeginCreate(id, cfg, now, initialized) =>
    case FinishCreate(connected, now) =>
  }

  lemma StepKeepsLimit(m: Manager, a: Action, digest: string -> string)
    requires Inv(m)
    ensures Inv(Apply(m, a, digest))
  {
    var m' := Apply(m, a, digest);
    ReservedAfter(m, a, digest);
    if Reserved(m') <= Reserved(m) {
      SubsetSize(Reserved(m'), Reserved(m));
    } else {
      SubsetSize(Reserved(m'), Active(m) + {a.id});
    }
  }

  /**
   * In every run the sessions that have not ended are at most `maxSessions`, also when a session
   * under creation is ended and then called connected again. Ended sessions are not counted.
   */
  lemma {:induction false} ActiveWithinLimit(maxSessions: nat, actions: seq<Action>, digest: string -> string)
    ensures var m := Run(NewManager(maxSessions), actions, digest);
      Inv(m) && m.maxSessions == maxSessions && |Active(m)| <= maxSessions
    decreases |actions|
  {
    var m := Run(NewManager(maxSessions), actions, digest);
    if actions == [] {
      assert Reserved(m) == {};
    } else {
      var before := Run(NewManager(maxSessions), actions[..|actions| - 1], digest);
      ActiveWithinLimit(maxSessions, actions[..|actions| - 1], digest);
      StepKeepsLimit(before, actions[|actions| - 1], digest);
      ReservedAfter(before, actions[|actions| - 1], digest);
    }
    SubsetSize(Active(m), Reserved(m));
  }

  // ----- creation -----

  ghost predicate OnlySessionSteps(actions: seq<Action>) {
    forall n :: 0 <= n < |actions| ==> actions[n].SessionStep?
  }

  lemma {:induction false} SessionStepsKeepMap(m: Manager, actions: seq<Action>, digest: string -> string, id: string)
    requires OnlySessionSteps(actions)
    ensures var m' := Run(m, actions, digest);
      && m'.sessions.Keys == m.sessions.Keys && m'.creating == m.creating && m'.maxSessions == m.maxSessions
      && ((forall n :: 0 <= n < |actions| ==> actions[n].id != id) && id in m.sessions ==>
            m'.sessions[id] == m.sessions[id])
    decreases |actions|
  {
    if actions == [] {
    } else {
      SessionStepsKeepMap(m, actions[..|actions| - 1], digest, id);
      assert actions[|actions| - 1].SessionStep?;
    }
  }

  /**
   * A creation that fails after its session was put in the map leaves the map as it was: the same
   * ids, and every other session exactly as its own steps left it.
   */
  lemma FailedCreateRestoresMap(m: Manager, id: string, cfg: S.Config, now: int, steps: seq<Action>, later: int,
      digest: string -> string)
    requires m.creating.None? && id !in m.sessions && |Active(m)| < m.maxSessions && OnlySessionSteps(steps)
    ensures var m1 := Apply(m, BeginCreate(id, cfg, now, true), digest);
      var m2 := Run(m1, steps, digest);
      var m3 := Apply(m2, FinishCreate(false, later), digest);
      && id in m1.sessions && m3.creating.None?
      && m3.sessions.Keys == m.sessions.Keys
      && (forall other :: other in m.sessions ==> other in m2.sessions && m3.sessions[other] == m2.sessions[other])
      && (steps == [] ==> m3 == m)
  {
    var m1 := Apply(m, BeginCreate(id, cfg, now, true), digest);
    SessionStepsKeepMap(m1, steps, digest, id);
    if steps == [] {
      assert m1.sessions - {id} == m.sessions;
    }
  }

  // ----- what the manager's map holds -----

  /** The session went through these steps of its own since it was created. */
  ghost predicate Lived(s: S.Session, cfg: S.Config, now: int, steps: seq<S.Action>, digest: string -> string) {
    s == S.Run(S.New(cfg, now), steps, digest)
  }

  ghost predicate IsARun(s: S.Session, digest: string -> string) {
    exists cfg, now, steps :: Lived(s, cfg, now, steps, digest)
  }

  lemma NewIsARun(cfg: S.Config, now: int, digest: string -> string)
    ensures IsARun(S.New(cfg, now), digest)
  {
    assert Lived(S.New(cfg, now), cfg, now, [], digest);
  }

  lemma OneStepMore(s: S.Session, a: S.Action, digest: string -> string)
    requires IsARun(s, digest)
    ensures IsARun(S.Apply(s, a, digest), digest)
  {
    var cfg, now, steps :| Lived(s, cfg, now, steps, digest);
    assert (steps + [a])[..|steps|] == steps;
    assert Lived(S.Apply(s, a, digest), cfg, now, steps + [a], digest);
  }

  /**
   * In every run of the manager every session in its map is a run of the session's own transition
   * system from its creation, so whatever holds of all those runs holds of it.
   */
  lemma {:induction false} EverySessionIsARun(maxSessions: nat, actions: seq<Action>, digest: string -> string,
      id: string)
    requires id in Run(NewManager(maxSessions), actions, digest).sessions
    ensures IsARun(Run(NewManager(maxSessions), actions, digest).sessions[id], digest)
    decreases |actions|
  {
    if actions == [] {
    } else {
      var before, a := actions[..|actions| - 1], actions[|actions| - 1];
      var m := Run(NewManager(maxSessions), before, digest);
      if id in m.sessions {
        EverySessionIsARun(maxSessions, before, digest, id);
        match a
        case SessionStep(_, step) => OneStepMore(m.sessions[id], step, digest);
        case FinishCreate(_, now) => OneStepMore(m.sessions[id], S.DoPublish(now), digest);
        case BeginCreate(_, _, _, _) => case Cleanup(_, _, _) =>
      } else {
        assert a.BeginCreate? && a.id == id;
        NewIsARun(a.cfg, a.now, digest);
      }
    }
  }

  /** The n-th step is a cleanup that finds the session, its retention over. */
  ghost predicate ExpiredAt(m: Manager, actions: seq<Action>, digest: string -> string, id: string, n: nat)
    requires n < |actions|
  {
    var before := Run(m, actions[..n], digest);
    && actions[n].Cleanup? && id in before.sessions
    && S.Expired(before.sessions[id].life, actions[n].now, actions[n].activeRetention, actions[n].endedRetention).0
  }

  /**
   * A session whose creation is over stays in the map, whatever is created meanwhile, under its own
   * configuration, until a cleanup finds it expired.
   */
  lemma {:induction false} StaysUntilExpired(m: Manager, actions: seq<Action>, digest: string -> string, id: string)
    requires id in m.sessions && m.creating != Some(id)
    ensures var m' := Run(m, actions, digest);
      || (id in m'.sessions && m'.creating != Some(id) && m'.sessions[id].cfg == m.sessions[id].cfg)
      || exists n :: 0 <= n < |actions| && ExpiredAt(m, actions, digest, id, n)
    decreases |actions|
  {
    if actions == [] {
    } else {
      var before, a := actions[..|actions| - 1], actions[|actions| - 1];
      StaysUntilExpired(m, before, digest, id);
      if n :| 0 <= n < |before| && ExpiredAt(m, before, digest, id, n) {
        assert before[..n] == actions[..n];
        assert ExpiredAt(m, actions, digest, id, n);
      } else {
        StepKeepsSession(Run(m, before, digest), a, digest, id);
        if id !in Run(m, actions, digest).sessions {
          assert ExpiredAt(m, actions, digest, id, |before|);
        }
      }
    }
  }

  lemma StepKeepsSession(m: Manager, a: Action, digest: string -> string, id: string)
    requires id in m.sessions && m.creating != Some(id)
    ensures var m' := Apply(m, a, digest);
      && m'.creating != Some(id)
      && (id in m'.sessions ==> m'.sessions[id].cfg == m.sessions[id].cfg)
      && (id !in m'.sessions ==>
            a.Cleanup? && S.Expired(m.sessions[id].life, a.now, a.activeRetention, a.endedRetention).0)
  {
    if a.SessionStep? {
      SessionRuns.BufferAfter(m.sessions[id], a.step, digest);
    }
  }
}
