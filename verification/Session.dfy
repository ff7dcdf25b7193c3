/**
 * A persistent console session (proxy/persistent_session_handler.go): its state, one function for
 * each critical section, and the transition system in which those sections interleave. The status
 * "error", which the source tests for but never assigns, is left out.
 */
module Session {
  import opened Prelude
  import opened ReplayBuffer
  import opened Delegation

  const CLIENT_QUEUE_SIZE := 256
  const MAX_CLIENT_FRAME := 98304

  datatype Status = Connecting | Connected | Closing | Ended {
    function Rank(): nat {
      match this case Connecting => 0 case Connected => 1 case Closing => 2 case Ended => 3
    }
  }

  datatype Kind = Terminal | Logs

  datatype Frame =
    | Hello(status: Status, controller: string)
    | Replay(entries: seq<Entry>)
    | Output(entry: Entry, status: Status)
    | Control(status: Status, controller: string)
    | StatusChange(status: Status, controller: string)
    | Error(code: string)
    | Pong

  /**
   * A browser connection: `queue` waits in its channel, `written` has left it. `enqueue` tests
   * whether the connection is closed and then sends: `offering` is a broadcast frame, `answering` a
   * direct answer, that has passed the test and is not sent yet.
   */
  datatype Client = Client(
    id: string, open: bool, queue: seq<Frame>, written: seq<Frame>, attachedAt: Option<nat>,
    offering: Option<Frame>, answering: Option<Frame>)

  /** A sync.Once around the backend close. */
  datatype Once = Unused | InFlight | Spent

  datatype Command = Input(data: string, base64: bool) | Resize(cols: int, rows: int)

  predicate Acceptable(c: Command) {
    match c
    case Input(data, base64) => 0 < |data| <= MAX_CLIENT_FRAME && base64
    case Resize(cols, rows) => 2 <= cols <= 1000 && 2 <= rows <= 1000
  }

  datatype Forwarded = Forwarded(task: nat, command: Command)

  datatype Admission = Admission(task: nat, probe: Probe)

  /** What a session is created with. */
  datatype Config = Config(kind: Kind, secretHash: string, maxReplayBytes: nat, token: string, grant: Option<Grant>)

  /** `published` and `closeRequests` record that creation finished and how often the backend was asked to close. */
  datatype Life = Life(
    status: Status, controller: string, endedAt: Option<int>, lastActivity: int,
    closeOnce: Once, published: bool, closeRequests: nat)

  /** `accepted` is the history of all output, kept or not. */
  datatype Buffer = Buffer(nextSequence: nat, replayBytes: int, replay: seq<Entry>, accepted: seq<Entry>)

  /** `clients` maps a tab to its connection's handle in `conns`, which remembers all of them. */
  datatype Room = Room(clients: map<string, nat>, conns: seq<Client>)

  /**
   * Work in progress outside the lock: commands checked but not yet sent, and sent; secret checks
   * that have read `revoked`, and the admissions they ended in.
   */
  datatype Work = Work(pending: map<nat, Command>, sent: seq<Forwarded>, matching: set<nat>, admissions: seq<Admission>)

  datatype Session = Session(cfg: Config, life: Life, revoked: bool, buffer: Buffer, room: Room, work: Work)

  /** As creation leaves it before the backend is connected. */
  function New(cfg: Config, now: int): Session {
    Session(cfg, Life(Connecting, "", None, now, Unused, false, 0), false, Buffer(0, 0, [], []), Room(map[], []),
      Work(map[], [], {}, []))
  }

  // ----- client queues -----

  function History(c: Client): seq<Frame> {
    c.written + c.queue
  }

  function Pending(f: Option<Frame>): seq<Frame> {
    if f.Some? then [f.value] else []
  }

  /** What was queued, and the broadcast frame about to be. */
  function Due(c: Client): seq<Frame> {
    History(c) + Pending(c.offering)
  }

  predicate HasRoom(c: Client) {
    |c.queue| < CLIENT_QUEUE_SIZE
  }

  /** The send of a broadcast frame: a client without room is closed. */
  function Put(c: Client, f: Frame): Client {
    if HasRoom(c) then c.(queue := c.queue + [f]) else c.(open := false)
  }

  /** A broadcast to one client: nothing if it is closed, the send at once, or (`slow`) later. */
  function Offer(c: Client, f: Frame, slow: bool): Client {
    if !c.open then c else if slow then c.(offering := Some(f)) else Put(c, f)
  }

  function Offered(c: Client): Client {
    if c.offering.Some? then Put(c.(offering := None), c.offering.value) else c
  }

  /** The test of a direct answer; its send, which drops the answer when there is no room. */
  function Answer(c: Client, f: Frame): Client {
    if c.open && c.answering.None? then c.(answering := Some(f)) else c
  }

  function Answered(c: Client): Client {
    if c.answering.Some? && HasRoom(c) then c.(queue := c.queue + [c.answering.value], answering := None)
      else c.(answering := None)
  }

  predicate Attached(r: Room, h: nat) {
    h < |r.conns| && r.conns[h].id in r.clients && r.clients[r.conns[h].id] == h
  }

  /** One frame to all attached clients; to the `slow` ones it is still to be sent. */
  function Broadcast(r: Room, f: Frame, slow: set<nat>): Room {
    r.(conns := seq(|r.conns|, h requires 0 <= h < |r.conns| =>
         if Attached(r, h) then Offer(r.conns[h], f, h in slow) else r.conns[h]))
  }

  /** A broadcast is under way, and with it the session's lock held. */
  predicate Busy(r: Room) {
    exists h :: 0 <= h < |r.conns| && r.conns[h].offering.Some?
  }

  /** Connection h after a step of its own. */
  function With(r: Room, h: nat, c: Client): Room
    requires h < |r.conns|
  {
    r.(conns := r.conns[h := c])
  }

  function Shut(r: Room, h: nat): Room {
    if h < |r.conns| then With(r, h, r.conns[h].(open := false)) else r
  }

  /** A newcomer takes the place of an older connection of the same tab, which is closed. */
  function Join(r: Room, c: Client): Room {
    var older := if c.id in r.clients then Shut(r, r.clients[c.id]) else r;
    Room(r.clients[c.id := |r.conns|], older.conns + [c])
  }

  function Leave(r: Room, h: nat): Room {
    if Attached(r, h) then r.(clients := r.clients - {r.conns[h].id}) else r
  }

  // ----- the critical sections -----

  function Record(b: Buffer, data: string, max: nat): Buffer {
    var entry := Entry(b.nextSequence + 1, data);
    var stored := Stored(b.replay, b.replayBytes, entry, max);
    Buffer(b.nextSequence + 1, stored.1, stored.0, b.accepted + [entry])
  }

  /** The output is numbered and stored. */
  function Recorded(s: Session, data: string, now: int): Session {
    s.(life := s.life.(status := Connected, lastActivity := now),
      buffer := Record(s.buffer, data, s.cfg.maxReplayBytes))
  }

  function Informed(s: Session, f: Frame, slow: set<nat>): Session {
    s.(room := Broadcast(s.room, f, slow))
  }

  function AppendOutput(s: Session, data: string, now: int, slow: set<nat>): Session {
    if s.life.status == Ended || s.life.status == Closing || s.revoked then s
    else Informed(Recorded(s, data, now), Output(Entry(s.buffer.nextSequence + 1, data), Connected), slow)
  }

  /** Control goes to a newcomer when a terminal has no controller. */
  function ControllerAfterJoin(s: Session, id: string): string {
    if s.cfg.kind == Terminal && s.life.controller == "" && s.life.status != Ended then id else s.life.controller
  }

  function Newcomer(s: Session, id: string): Client {
    Client(id, true, [Hello(s.life.status, ControllerAfterJoin(s, id)), Replay(s.buffer.replay)], [],
      Some(s.buffer.nextSequence), None, None)
  }

  /** A new browser connection; after revocation it is closed at once. */
  function AddClient(s: Session, id: string, now: int, slow: set<nat>): Session {
    if s.revoked then s.(room := s.room.(conns := s.room.conns + [Client(id, false, [], [], None, None, None)]))
    else
      var controller := ControllerAfterJoin(s, id);
      s.(life := s.life.(controller := controller, lastActivity := now),
         room := Broadcast(Join(s.room, Newcomer(s, id)), Control(s.life.status, controller), slow))
  }

  /** Detaches; if the tab had control, `pick` is whichever remaining tab the map yields first. */
  function RemoveClient(s: Session, h: nat, pick: string, slow: set<nat>): Session
    requires h < |s.room.conns|
  {
    var room := Leave(s.room, h);
    if s.life.controller == s.room.conns[h].id then
      var controller := if room.clients == map[] then "" else pick;
      s.(life := s.life.(controller := controller), room := Broadcast(room, Control(s.life.status, controller), slow))
    else s.(room := room)
  }

  function ClaimControl(s: Session, h: nat, now: int, slow: set<nat>): Session {
    if s.cfg.kind == Terminal && s.life.status != Ended && Attached(s.room, h) then
      var id := s.room.conns[h].id;
      s.(life := s.life.(controller := id, lastActivity := now),
        room := Broadcast(s.room, Control(s.life.status, id), slow))
    else s
  }

  /** The locked check of writeInput and resize. */
  predicate MayCommand(s: Session, h: nat) {
    s.cfg.kind == Terminal && s.life.status == Connected && Attached(s.room, h) &&
      s.life.controller == s.room.conns[h].id
  }

  /** Entering `terminate`; the backend is asked afterwards, outside the lock. */
  function Terminate(s: Session, now: int, slow: set<nat>): Session {
    if s.life.closeOnce != Unused then s
    else if s.life.status == Ended then s.(life := s.life.(closeOnce := Spent))
    else s.(life := s.life.(status := Closing, lastActivity := now, closeOnce := InFlight),
            room := Broadcast(s.room, StatusChange(Closing, s.life.controller), slow))
  }

  function RequestClose(s: Session): Session {
    if s.life.closeOnce == InFlight then s.(life := s.life.(closeOnce := Spent,
      closeRequests := s.life.closeRequests + 1)) else s
  }

  function MarkEnded(s: Session, now: int, slow: set<nat>): Session {
    if s.life.status == Ended then s
    else s.(life := s.life.(status := Ended, controller := "", endedAt := Some(now), lastActivity := now),
            room := Broadcast(s.room, StatusChange(Ended, ""), slow))
  }

  function MarkRevoked(s: Session): Session {
    s.(revoked := true, buffer := s.buffer.(replay := [], replayBytes := 0))
  }

  function DetachAll(s: Session): Session {
    s.(room := s.room.(clients := map[]), life := s.life.(controller := ""))
  }

  /** The unlocked write at the end of creation. */
  function Publish(s: Session, now: int): Session {
    if s.life.published then s else s.(life := s.life.(status := Connected, lastActivity := now, published := true))
  }

  /** Whether retention is over, and whether the session was still active. */
  function Expired(l: Life, now: int, activeRetention: int, endedRetention: int): (bool, bool) {
    if l.status == Ended then (l.endedAt.Some? && now - l.endedAt.value >= endedRetention, false)
    else (now - l.lastActivity >= activeRetention, true)
  }

  // ----- interleaving -----

  datatype Action =
    | DoPublish(now: int)
    | DoAppendOutput(data: string, now: int, slow: set<nat>)
    | DoAddClient(id: string, now: int, slow: set<nat>)
    | DoRemoveClient(h: nat, pick: string, slow: set<nat>)
    | DoClaimControl(h: nat, now: int, slow: set<nat>)
    | SendOffer(h: nat)               // a broadcast reaches a slow client
    | CloseConn(h: nat)               // client.close(), by whichever goroutine
    | WriteFrame(h: nat)              // the client's writer takes a frame
    | TestAnswer(h: nat, f: Frame)    // pong or error: the test
    | SendAnswer(h: nat)              // and the send
    | CheckCommand(t: nat, h: nat, c: Command)
    | SendCommand(t: nat)
    | Touch(now: int)
    | DoTerminate(now: int, slow: set<nat>)
    | DoRequestClose
    | DoMarkEnded(now: int, slow: set<nat>)
    | DoMarkRevoked
    | DoDetachAll
    | ReadRevoked(t: nat, candidate: string)  // matchesSecretHash up to its unlock
    | DecideMatch(t: nat, probe: Probe)       // the live check and the answer

  function Written(c: Client): Client {
    if c.queue == [] then c else c.(written := c.written + [c.queue[0]], queue := c.queue[1..])
  }

  /** The map may yield `pick` as the next controller when connection h leaves. */
  predicate CanPick(s: Session, h: nat, pick: string) {
    h < |s.room.conns| && (s.life.controller == s.room.conns[h].id && Leave(s.room, h).clients != map[] ==>
      pick in Leave(s.room, h).clients)
  }

  /** The step takes the session's lock. */
  predicate Locks(a: Action) {
    match a
    case DoPublish(_) => false
    case SendOffer(_) => false
    case CloseConn(_) => false
    case WriteFrame(_) => false
    case TestAnswer(_, _) => false
    case SendAnswer(_) => false
    case SendCommand(_) => false
    case DoRequestClose => false
    case DecideMatch(_, _) => false
    case _ => true
  }

  /**
   * Creation holds the manager's lock until it publishes the session, so that nobody finds the
   * session before. Only the watch on its grant, if it has one, may revoke it meanwhile.
   */
  predicate Early(s: Session, a: Action) {
    || a.DoPublish? || a.DoMarkRevoked?
    || (s.revoked && (a.DoTerminate? || a.DoRequestClose? || a.DoMarkEnded? || a.DoDetachAll? || a.CloseConn?))
  }

  predicate Enabled(s: Session, a: Action) {
    && (s.life.published || Early(s, a))
    && (a.DoMarkRevoked? ==> s.cfg.grant.Some?)
    && (Locks(a) ==> !Busy(s.room))
  }

  /** One step; a step that is not enabled changes nothing. */
  function Apply(s: Session, a: Action, digest: string -> string): Session {
    if Enabled(s, a) then Step(s, a, digest) else s
  }

  function Step(s: Session, a: Action, digest: string -> string): Session {
    match a
    case DoPublish(now) => Publish(s, now)
    case DoAppendOutput(data, now, slow) => AppendOutput(s, data, now, slow)
    case DoAddClient(id, now, slow) => if id == "" then s else AddClient(s, id, now, slow)
    case DoRemoveClient(h, pick, slow) => if CanPick(s, h, pick) then RemoveClient(s, h, pick, slow) else s
    case DoClaimControl(h, now, slow) => ClaimControl(s, h, now, slow)
    case SendOffer(h) => if h < |s.room.conns| then s.(room := With(s.room, h, Offered(s.room.conns[h]))) else s
    case CloseConn(h) => s.(room := Shut(s.room, h))
    case WriteFrame(h) => if h < |s.room.conns| then s.(room := With(s.room, h, Written(s.room.conns[h]))) else s
    case TestAnswer(h, f) =>
      if h < |s.room.conns| && (f.Pong? || f.Error?) then s.(room := With(s.room, h, Answer(s.room.conns[h], f))) else s
    case SendAnswer(h) => if h < |s.room.conns| then s.(room := With(s.room, h, Answered(s.room.conns[h]))) else s
    case CheckCommand(t, h, c) =>
      if t !in s.work.pending && MayCommand(s, h) && Acceptable(c)
        then s.(work := s.work.(pending := s.work.pending[t := c])) else s
    case SendCommand(t) =>
      if t in s.work.pending then
        s.(work := s.work.(pending := s.work.pending - {t}, sent := s.work.sent + [Forwarded(t, s.work.pending[t])]))
      else s
    case Touch(now) => if s.life.status == Connected then s.(life := s.life.(lastActivity := now)) else s
    case DoTerminate(now, slow) => Terminate(s, now, slow)
    case DoRequestClose => RequestClose(s)
    case DoMarkEnded(now, slow) => MarkEnded(s, now, slow)
    case DoMarkRevoked => MarkRevoked(s)
    case DoDetachAll => DetachAll(s)
    case ReadRevoked(t, candidate) =>
      if candidate == s.cfg.secretHash && !s.revoked then s.(work := s.work.(matching := s.work.matching + {t})) else s
    case DecideMatch(t, probe) =>
      if t !in s.work.matching then s
      else if Check(s.cfg.token, s.cfg.grant, probe, digest) then
        s.(work := s.work.(matching := s.work.matching - {t}, admissions := s.work.admissions + [Admission(t, probe)]))
      else s.(work := s.work.(matching := s.work.matching - {t}))
  }

  function Run(s: Session, actions: seq<Action>, digest: string -> string): Session {
    if actions == [] then s
    else Apply(Run(s, actions[..|actions| - 1], digest), actions[|actions| - 1], digest)
  }
}
