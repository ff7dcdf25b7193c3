/**
 * The registry of backend connections and every interleaving of what happens to them
 * (proxy/backend_proxy_manager.go with proxy/multiplexer.go). Each action is one critical section
 * or one channel operation; a request that spans several of them is a task that remembers the
 * multiplexer it looked up, so the registry may change under it.
 */
module BackendRegistry {
  import opened Prelude
  import opened Channels
  import opened Envelope
  import opened Multiplexer
  import opened RandomId

  /** A request between two of its steps. */
  datatype Task =
    | Initializing(mux: nat)
    | Connecting(mux: nat, key: string, url: string)        // looked up, capability gate passed
    | ConnectChecked(mux: nat, key: string, url: string)    // the key is a client of this multiplexer
    | Sending(mux: nat, key: string, body: string)
    | Closing(mux: nat, key: string, notify: bool)
    | CloseNotified(mux: nat, key: string)

  /** `muxes` holds every connection ever made, in order of registration. */
  datatype World = World(muxes: seq<Mux>, registry: map<string, nat>, tasks: map<nat, Task>)

  const Initial := World([], map[], map[])

  datatype Action =
    | AddBackend(host: string, sessionId: string, capable: bool)
    | ShutdownClose(i: nat)
    | ShutdownRemove(i: nat)
    | ShutdownDrain(i: nat)
    | LookupInit(t: nat, host: string, keyed: bool)
    | FinishInit(t: nat, entropy: Entropy)
    | LookupConnect(t: nat, host: string, key: string, url: string)
    | CheckConnect(t: nat)
    | EnqueueConnect(t: nat, taken: bool)
    | LookupSend(t: nat, host: string, key: string, body: string)
    | EnqueueSend(t: nat, taken: bool)
    | LookupClose(t: nat, host: string, key: string, notify: bool)
    | NotifyClose(t: nat, taken: bool)
    | FinishClose(t: nat)
    | ReaderReceive(i: nat, msg: Message)
    | ReaderDeliver(i: nat)
    | ReaderGiveUp(i: nat)
    | ReaderComplain(i: nat, t: nat)
    | WriterWrite(i: nat)

  function At(w: World, i: nat, a: MuxAction): World
    requires i < |w.muxes|
  {
    w.(muxes := w.muxes[i := ApplyMux(w.muxes[i], a)])
  }

  function Tried(w: World, i: nat, frame: Message, taken: bool): World
    requires i < |w.muxes|
  {
    if taken then At(w, i, Enqueue(frame)) else w
  }

  function Done(w: World, t: nat): World {
    w.(tasks := w.tasks - {t})
  }

  function Became(w: World, t: nat, task: Task): World {
    w.(tasks := w.tasks[t := task])
  }

  /** A key drawn from the random source has never been handed out before. */
  predicate Fresh(w: World, key: string) {
    forall i :: 0 <= i < |w.muxes| ==> key !in Keys(w.muxes[i])
  }

  /** `removeBackend`: only the session that is registered can take its entry out. */
  function Deregister(w: World, host: string, sessionId: string): map<string, nat> {
    if host in w.registry && w.registry[host] < |w.muxes| && w.muxes[w.registry[host]].sessionId == sessionId
    then w.registry - {host}
    else w.registry
  }

  /** A registry lookup that starts a new task. */
  function Lookup(w: World, t: nat, host: string): Option<nat> {
    if t !in w.tasks && host in w.registry && w.registry[host] < |w.muxes| then Some(w.registry[host]) else None
  }

  predicate Ready(w: World, t: nat) {
    t in w.tasks && w.tasks[t].mux < |w.muxes|
  }

  /** One step; `keyTrace` is the answer of keyTraceURL. A step that is not enabled changes nothing. */
  function Apply(w: World, a: Action, keyTrace: string -> bool): World {
    match a
    case AddBackend(host, sessionId, capable) =>
      if exists i :: 0 <= i < |w.muxes| && w.muxes[i].sessionId == sessionId then w
      else World(w.muxes + [NewMux(host, sessionId, capable)], w.registry[host := |w.muxes|], w.tasks)
    case ShutdownClose(i) =>
      if i < |w.muxes| then At(w, i, CloseDone) else w
    case ShutdownRemove(i) =>
      if i < |w.muxes| && w.muxes[i].phase == DoneClosed then
        At(w, i, MarkRemoved).(registry := Deregister(w, w.muxes[i].host, w.muxes[i].sessionId))
      else w
    case ShutdownDrain(i) =>
      if i < |w.muxes| then At(w, i, Drain) else w
    case LookupInit(t, host, keyed) =>
      var found := Lookup(w, t, host);
      if found.Some? && (keyed ==> w.muxes[found.value].capable) then Became(w, t, Initializing(found.value)) else w
    case FinishInit(t, entropy) =>
      if Ready(w, t) && w.tasks[t].Initializing? && !w.muxes[w.tasks[t].mux].reader.Holding? &&
        Fresh(w, UuidText(entropy)) then
        Done(At(w, w.tasks[t].mux, Register(UuidText(entropy))), t)
      else w
    case LookupConnect(t, host, key, url) =>
      var found := Lookup(w, t, host);
      if found.Some? && (keyTrace(url) ==> w.muxes[found.value].capable)
        then Became(w, t, Connecting(found.value, key, url)) else w
    case CheckConnect(t) =>
      if Ready(w, t) && w.tasks[t].Connecting? then
        var task := w.tasks[t];
        if task.key in w.muxes[task.mux].frontendChans then Became(w, t, ConnectChecked(task.mux, task.key, task.url))
          else Done(w, t)
      else w
    case EnqueueConnect(t, taken) =>
      if Ready(w, t) && w.tasks[t].ConnectChecked? then
        Done(Tried(w, w.tasks[t].mux, Message(w.tasks[t].key, CONNECT, w.tasks[t].url), taken), t)
      else w
    case LookupSend(t, host, key, body) =>
      var found := Lookup(w, t, host);
      if found.Some? then Became(w, t, Sending(found.value, key, body)) else w
    case EnqueueSend(t, taken) =>
      if Ready(w, t) && w.tasks[t].Sending? then
        Done(Tried(w, w.tasks[t].mux, Message(w.tasks[t].key, BODY, w.tasks[t].body), taken), t)
      else w
    case LookupClose(t, host, key, notify) =>
      var found := Lookup(w, t, host);
      if found.Some? then Became(w, t, Closing(found.value, key, notify)) else w
    case NotifyClose(t, taken) =>
      if Ready(w, t) && w.tasks[t].Closing? then
        var task := w.tasks[t];
        Became(Tried(w, task.mux, Message(task.key, CLOSE, ""), taken && task.notify), t,
          CloseNotified(task.mux, task.key))
      else w
    case FinishClose(t) =>
      if Ready(w, t) && w.tasks[t].CloseNotified? && !w.muxes[w.tasks[t].mux].reader.Holding? then
        Done(At(w, w.tasks[t].mux, CloseClient(w.tasks[t].key)), t)
      else w
    case ReaderReceive(i, msg) =>
      if i < |w.muxes| then At(w, i, Receive(msg)) else w
    case ReaderDeliver(i) =>
      if i < |w.muxes| then At(w, i, Deliver) else w
    case ReaderGiveUp(i) =>
      if i < |w.muxes| then At(w, i, GiveUp) else w
    case ReaderComplain(i, t) =>
      if i < |w.muxes| && w.muxes[i].reader.Complaining? && t !in w.tasks then
        var found := Lookup(w, t, w.muxes[i].host);
        var w' := At(w, i, Complained);
        if found.Some? then Became(w', t, Closing(found.value, w.muxes[i].reader.key, true)) else w'
      else w
    case WriterWrite(i) =>
      if i < |w.muxes| then At(w, i, WriteOut) else w
  }

  function Run(w: World, actions: seq<Action>, keyTrace: string -> bool): World {
    if actions == [] then w
    else Apply(Run(w, actions[..|actions| - 1], keyTrace), actions[|actions| - 1], keyTrace)
  }

  // ----- the invariant -----

  ghost predicate MuxesInv(w: World) {
    forall i :: 0 <= i < |w.muxes| ==> MuxInv(w.muxes[i]) && w.muxes[i].frontendChans.Keys <= Keys(w.muxes[i])
  }

  /** No two connections share a session id or ever handed out the same key. */
  ghost predicate Separate(w: World) {
    && (forall i, j :: 0 <= i < j < |w.muxes| ==> w.muxes[i].sessionId != w.muxes[j].sessionId)
    && (forall i, j :: 0 <= i < j < |w.muxes| ==> Keys(w.muxes[i]) !! Keys(w.muxes[j]))
  }

  ghost predicate Newest(w: World, host: string, i: nat) {
    && i < |w.muxes| && w.muxes[i].host == host
    && forall j :: i < j < |w.muxes| ==> w.muxes[j].host != host
  }

  /** A host maps to its newest connection, and is absent exactly after that connection's own remove step. */
  ghost predicate RegistryInv(w: World) {
    forall host, i: nat :: (host in w.registry && w.registry[host] == i)
      <==> (Newest(w, host, i) && w.muxes[i].phase.Rank() < Removed.Rank())
  }

  /** A Connect frame for `key` may stand on this connection. */
  ghost predicate AtHome(m: Mux, key: string, url: string, keyTrace: string -> bool) {
    && key in Keys(m)
    && CleanKey(key)
    && (keyTrace(url) ==> m.capable)
  }

  ghost predicate FrameOk(m: Mux, f: Message, keyTrace: string -> bool) {
    && |Format(f)| <= MAX_WIRE_MESSAGE_BYTES && ValidType(f.kind)
    && (f.kind == CONNECT ==> AtHome(m, f.key, f.body, keyTrace))
  }

  ghost predicate FramesOk(m: Mux, keyTrace: string -> bool) {
    && (forall k :: k in Keys(m) ==> CleanKey(k))
    && (forall n :: 0 <= n < |m.wire| ==> FrameOk(m, m.wire[n], keyTrace))
    && (forall n :: 0 <= n < |m.queue| ==> FrameOk(m, m.queue[n], keyTrace))
  }

  ghost predicate TaskOk(w: World, task: Task, keyTrace: string -> bool) {
    && task.mux < |w.muxes|
    && (task.Connecting? ==> keyTrace(task.url) ==> w.muxes[task.mux].capable)
    && (task.ConnectChecked? ==> AtHome(w.muxes[task.mux], task.key, task.url, keyTrace))
  }

  ghost predicate TrafficInv(w: World, keyTrace: string -> bool) {
    && (forall i :: 0 <= i < |w.muxes| ==> FramesOk(w.muxes[i], keyTrace))
    && (forall t :: t in w.tasks ==> TaskOk(w, w.tasks[t], keyTrace))
  }

  // ----- each step keeps it -----

  /** Which connection a step touches, and how. */
  function Touched(w: World, a: Action): Option<(nat, MuxAction)> {
    match a
    case ShutdownClose(i) => Some((i, CloseDone))
    case ShutdownRemove(i) => Some((i, MarkRemoved))
    case ShutdownDrain(i) => Some((i, Drain))
    case FinishInit(t, entropy) =>
      if t in w.tasks && w.tasks[t].Initializing? && Fresh(w, UuidText(entropy))
        then Some((w.tasks[t].mux, Register(UuidText(entropy)))) else None
    case EnqueueConnect(t, taken) =>
      if t in w.tasks && w.tasks[t].ConnectChecked? && taken then
        Some((w.tasks[t].mux, Enqueue(Message(w.tasks[t].key, CONNECT, w.tasks[t].url))))
      else None
    case EnqueueSend(t, taken) =>
      if t in w.tasks && w.tasks[t].Sending? && taken
        then Some((w.tasks[t].mux, Enqueue(Message(w.tasks[t].key, BODY, w.tasks[t].body)))) else None
    case NotifyClose(t, taken) =>
      if t in w.tasks && w.tasks[t].Closing? && taken && w.tasks[t].notify then
        Some((w.tasks[t].mux, Enqueue(Message(w.tasks[t].key, CLOSE, ""))))
      else None
    case FinishClose(t) =>
      if t in w.tasks && w.tasks[t].CloseNotified? then Some((w.tasks[t].mux, CloseClient(w.tasks[t].key))) else None
    case ReaderReceive(i, msg) => Some((i, Receive(msg)))
    case ReaderDeliver(i) => Some((i, Deliver))
    case ReaderGiveUp(i) => Some((i, GiveUp))
    case ReaderComplain(i, _) => Some((i, Complained))
    case WriterWrite(i) => Some((i, WriteOut))
    case _ => None
  }

  /** The connections after a step: one more, one changed by its own step, or all as before. */
  lemma MuxesAfter(w: World, a: Action, keyTrace: string -> bool)
    ensures var w', touched := Apply(w, a, keyTrace), Touched(w, a);
      || (a.AddBackend? && w'.muxes == w.muxes + [NewMux(a.host, a.sessionId, a.capable)]
          && forall i :: 0 <= i < |w.muxes| ==> w.muxes[i].sessionId != a.sessionId)
      || w'.muxes == w.muxes
      || (touched.Some? && touched.value.0 < |w.muxes|
          && w'.muxes == w.muxes[touched.value.0 := ApplyMux(w.muxes[touched.value.0], touched.value.1)])
  {
  }

  /** A registered key is drawn fresh. */
  lemma TouchedRegisterIsFresh(w: World, a: Action)
    ensures Touched(w, a).Some? && Touched(w, a).value.1.Register? ==>
      Fresh(w, Touched(w, a).value.1.key) && CleanKey(Touched(w, a).value.1.key)
  {
    if a.FinishInit? {
      UuidIsCleanKey(a.entropy);
    }
  }

  lemma StepKeepsMuxes(w: World, a: Action, keyTrace: string -> bool)
    requires MuxesInv(w)
    ensures MuxesInv(Apply(w, a, keyTrace))
  {
    MuxesAfter(w, a, keyTrace);
    TouchedRegisterIsFresh(w, a);
    var touched := Touched(w, a);
    if touched.Some? && touched.value.0 < |w.muxes| {
      var m, step := w.muxes[touched.value.0], touched.value.1;
      MuxStepKeepsInv(m, step);
      MuxStepMonotone(m, step);
      if step.Register? {
        KeysByIndex(ApplyMux(m, step));
        assert (m.chans + [Chan(step.key, [])])[|m.chans|].key == step.key;
      }
    }
  }

  lemma StepKeepsSeparate(w: World, a: Action, keyTrace: string -> bool)
    requires Separate(w)
    ensures Separate(Apply(w, a, keyTrace))
  {
    MuxesAfter(w, a, keyTrace);
    TouchedRegisterIsFresh(w, a);
    var w', touched := Apply(w, a, keyTrace), Touched(w, a);
    if touched.Some? && touched.value.0 < |w.muxes| {
      MuxStepMonotone(w.muxes[touched.value.0], touched.value.1);
    }
    forall i, j | 0 <= i < j < |w'.muxes| ensures Keys(w'.muxes[i]) !! Keys(w'.muxes[j]) {
      if j == |w.muxes| {
        assert Keys(w'.muxes[j]) == {};
      } else {
        assert Keys(w.muxes[i]) !! Keys(w.muxes[j]);
      }
    }
  }

  /** Apart from registration and removal, no step changes the registry or carries a connection past removal. */
  lemma QuietStep(w: World, a: Action, keyTrace: string -> bool)
    requires !a.AddBackend? && !(a.ShutdownRemove? && a.i < |w.muxes| && w.muxes[a.i].phase == DoneClosed)
    ensures var w' := Apply(w, a, keyTrace);
      && w'.registry == w.registry && |w'.muxes| == |w.muxes|
      && (forall i :: 0 <= i < |w.muxes| ==> w'.muxes[i].host == w.muxes[i].host)
      && (forall i :: 0 <= i < |w.muxes| ==>
            (w'.muxes[i].phase.Rank() < Removed.Rank() <==> w.muxes[i].phase.Rank() < Removed.Rank()))
  {
    MuxesAfter(w, a, keyTrace);
    var touched := Touched(w, a);
    if touched.Some? && touched.value.0 < |w.muxes| {
      MuxStepMonotone(w.muxes[touched.value.0], touched.value.1);
    }
  }

  lemma StepKeepsRegistry(w: World, a: Action, keyTrace: string -> bool)
    requires Separate(w) && RegistryInv(w)
    ensures RegistryInv(Apply(w, a, keyTrace))
  {
    var w' := Apply(w, a, keyTrace);
    forall host, i: nat
      ensures (host in w'.registry && w'.registry[host] == i) <==>
        (Newest(w', host, i) && w'.muxes[i].phase.Rank() < Removed.Rank())
    {
      assert (host in w.registry && w.registry[host] == i) <==>
        (Newest(w, host, i) && w.muxes[i].phase.Rank() < Removed.Rank());
      if a.AddBackend? {
        if |w'.muxes| > |w.muxes| {
          assert w'.muxes[|w.muxes|].host == a.host;
          assert forall j :: 0 <= j < |w.muxes| ==> w.muxes[j] == w'.muxes[j];
          assert i < |w.muxes| ==> (Newest(w', host, i) <==> Newest(w, host, i) && host != a.host);
        }
      } else if a.ShutdownRemove? && a.i < |w.muxes| && w.muxes[a.i].phase == DoneClosed {
        RemoveStep(w, a.i, keyTrace, host, i);
      } else {
        QuietStep(w, a, keyTrace);
        assert Newest(w', host, i) <==> Newest(w, host, i);
      }
    }
  }

  /** The remove step of connection r takes out its own entry and no other. */
  lemma RemoveStep(w: World, r: nat, keyTrace: string -> bool, host: string, i: nat)
    requires Separate(w) && RegistryInv(w) && r < |w.muxes| && w.muxes[r].phase == DoneClosed
    ensures var w' := Apply(w, ShutdownRemove(r), keyTrace);
      (host in w'.registry && w'.registry[host] == i) <==>
        (Newest(w', host, i) && w'.muxes[i].phase.Rank() < Removed.Rank())
  {
    var w' := Apply(w, ShutdownRemove(r), keyTrace);
    assert (host in w.registry && w.registry[host] == i) <==>
      (Newest(w, host, i) && w.muxes[i].phase.Rank() < Removed.Rank());
    assert forall j :: 0 <= j < |w.muxes| ==> w.muxes[j].host == w'.muxes[j].host;
    assert Newest(w', host, i) <==> Newest(w, host, i);
    var own := w.muxes[r].host;
    if own in w.registry {
      var j := w.registry[own];
      assert own in w.registry && w.registry[own] == j <==>
        Newest(w, own, j) && w.muxes[j].phase.Rank() < Removed.Rank();
    }
  }

  lemma StepKeepsFrames(w: World, a: Action, keyTrace: string -> bool, i: nat)
    requires TrafficInv(w, keyTrace) && i < |Apply(w, a, keyTrace).muxes|
    ensures FramesOk(Apply(w, a, keyTrace).muxes[i], keyTrace)
  {
    MuxesAfter(w, a, keyTrace);
    TouchedRegisterIsFresh(w, a);
    var touched := Touched(w, a);
    if touched.Some? && touched.value.0 == i && i < |w.muxes| {
      var step := touched.value.1;
      if step.Enqueue? && step.frame.kind == CONNECT {
        assert TaskOk(w, w.tasks[a.t], keyTrace);
      }
      EnqueuedFramesOk(w.muxes[i], step, keyTrace);
    }
  }

  /** What a task relies on is never taken back by a step. */
  lemma TaskStaysOk(w: World, a: Action, keyTrace: string -> bool, task: Task)
    requires TaskOk(w, task, keyTrace)
    ensures TaskOk(Apply(w, a, keyTrace), task, keyTrace)
  {
    MuxesAfter(w, a, keyTrace);
    var touched := Touched(w, a);
    if touched.Some? && touched.value.0 == task.mux {
      MuxStepMonotone(w.muxes[task.mux], touched.value.1);
    }
  }

  lemma NewTaskJustified(w: World, a: Action, keyTrace: string -> bool, t: nat)
    requires t !in w.tasks && t in Apply(w, a, keyTrace).tasks
    ensures TaskOk(w, Apply(w, a, keyTrace).tasks[t], keyTrace)
  {
  }

  /** A task that stays is unchanged or takes its own next step. */
  lemma TaskChange(w: World, a: Action, keyTrace: string -> bool, t: nat)
    requires t in w.tasks && t in Apply(w, a, keyTrace).tasks
    ensures var task, task' := w.tasks[t], Apply(w, a, keyTrace).tasks[t];
      || task' == task
      || (task.Closing? && task' == CloseNotified(task.mux, task.key))
      || (task.Connecting? && task' == ConnectChecked(task.mux, task.key, task.url)
          && task.mux < |w.muxes| && task.key in w.muxes[task.mux].frontendChans)
  {
  }

  lemma AdvancedTaskJustified(w: World, a: Action, keyTrace: string -> bool, t: nat)
    requires MuxesInv(w) && TrafficInv(w, keyTrace) && t in w.tasks && t in Apply(w, a, keyTrace).tasks
    ensures TaskOk(w, Apply(w, a, keyTrace).tasks[t], keyTrace)
  {
    TaskChange(w, a, keyTrace, t);
    assert TaskOk(w, w.tasks[t], keyTrace);
    if w.tasks[t].Connecting? {
      RegisteredIsAtHome(w, w.tasks[t], keyTrace);
    }
  }

  /** A task a step creates or advances is already justified in the state before it. */
  lemma TaskJustified(w: World, a: Action, keyTrace: string -> bool, t: nat)
    requires MuxesInv(w) && TrafficInv(w, keyTrace) && t in Apply(w, a, keyTrace).tasks
    ensures TaskOk(w, Apply(w, a, keyTrace).tasks[t], keyTrace)
  {
    if t in w.tasks {
      AdvancedTaskJustified(w, a, keyTrace, t);
    } else {
      NewTaskJustified(w, a, keyTrace, t);
    }
  }

  /** A key in the table was issued by this connection. */
  lemma RegisteredIsAtHome(w: World, task: Task, keyTrace: string -> bool)
    requires MuxesInv(w) && TrafficInv(w, keyTrace) && TaskOk(w, task, keyTrace)
    requires task.Connecting?
    ensures task.key in w.muxes[task.mux].frontendChans ==> AtHome(w.muxes[task.mux], task.key, task.url, keyTrace)
  {
    var m := w.muxes[task.mux];
    assert task.key in m.frontendChans ==> task.key in m.frontendChans.Keys;
    assert FramesOk(m, keyTrace);
  }

  lemma StepKeepsTasks(w: World, a: Action, keyTrace: string -> bool, t: nat)
    requires MuxesInv(w) && TrafficInv(w, keyTrace) && t in Apply(w, a, keyTrace).tasks
    ensures TaskOk(Apply(w, a, keyTrace), Apply(w, a, keyTrace).tasks[t], keyTrace)
  {
    TaskJustified(w, a, keyTrace, t);
    TaskStaysOk(w, a, keyTrace, Apply(w, a, keyTrace).tasks[t]);
  }

  lemma StepKeepsTraffic(w: World, a: Action, keyTrace: string -> bool)
    requires MuxesInv(w) && TrafficInv(w, keyTrace)
    ensures TrafficInv(Apply(w, a, keyTrace), keyTrace)
  {
    var w' := Apply(w, a, keyTrace);
    forall i | 0 <= i < |w'.muxes| ensures FramesOk(w'.muxes[i], keyTrace) {
      StepKeepsFrames(w, a, keyTrace, i);
    }
    forall t | t in w'.tasks ensures TaskOk(w', w'.tasks[t], keyTrace) {
      StepKeepsTasks(w, a, keyTrace, t);
    }
  }

  /** A frame that may stand on a connection may stand on it after any step. */
  lemma FrameStaysOk(m: Mux, step: MuxAction, f: Message, keyTrace: string -> bool)
    requires FrameOk(m, f, keyTrace)
    ensures FrameOk(ApplyMux(m, step), f, keyTrace)
  {
    MuxStepMonotone(m, step);
  }

  lemma EnqueuedFramesOk(m: Mux, step: MuxAction, keyTrace: string -> bool)
    requires FramesOk(m, keyTrace)
    requires step.Enqueue? ==> ValidType(step.frame.kind)
    requires step.Enqueue? && step.frame.kind == CONNECT ==> AtHome(m, step.frame.key, step.frame.body, keyTrace)
    requires step.Register? ==> CleanKey(step.key)
    ensures FramesOk(ApplyMux(m, step), keyTrace)
  {
    MuxStepMonotone(m, step);
    var m' := ApplyMux(m, step);
    forall n | 0 <= n < |m'.wire| ensures FrameOk(m', m'.wire[n], keyTrace) {
      assert m'.wire[n] == if n < |m.wire| then m.wire[n] else m.queue[0];
      FrameStaysOk(m, step, m'.wire[n], keyTrace);
    }
    forall n | 0 <= n < |m'.queue| ensures FrameOk(m', m'.queue[n], keyTrace) {
      if step.Enqueue? && n == |m.queue| {
        assert m'.queue[n] == step.frame;
      } else {
        assert m'.queue[n] == if step.WriteOut? && m.queue != [] then m.queue[n + 1] else m.queue[n];
      }
      FrameStaysOk(m, step, m'.queue[n], keyTrace);
    }
  }

  ghost predicate Inv(w: World, keyTrace: string -> bool) {
    MuxesInv(w) && Separate(w) && RegistryInv(w) && TrafficInv(w, keyTrace)
  }

  lemma {:induction false} RunKeepsInv(w: World, actions: seq<Action>, keyTrace: string -> bool)
    requires Inv(w, keyTrace)
    ensures Inv(Run(w, actions, keyTrace), keyTrace)
    decreases |actions|
  {
    if actions == [] {
    } else {
      var before, a := actions[..|actions| - 1], actions[|actions| - 1];
      RunKeepsInv(w, before, keyTrace);
      var w1 := Run(w, before, keyTrace);
      StepKeepsMuxes(w1, a, keyTrace);
      StepKeepsSeparate(w1, a, keyTrace);
      StepKeepsRegistry(w1, a, keyTrace);
      StepKeepsTraffic(w1, a, keyTrace);
    }
  }

  // ----- the theorems -----

  /**
   * In every interleaving: no client channel is closed twice or used after it was closed, it carries
   * only messages addressed to its key, and the open channels of a connection are exactly the ones in its table.
   */
  lemma ChannelsNeverMisused(actions: seq<Action>, keyTrace: string -> bool, i: nat)
    requires i < |Run(Initial, actions, keyTrace).muxes|
    ensures var m := Run(Initial, actions, keyTrace).muxes[i];
      && (forall h :: 0 <= h < |m.chans| ==> Safe(m.chans[h].log) && Addressed(m.chans[h]))
      && (forall h :: 0 <= h < |m.chans| && Open(m.chans[h].log) ==>
            m.chans[h].key in m.frontendChans && m.frontendChans[m.chans[h].key] == h)
      && (forall k :: k in m.frontendChans ==> m.frontendChans[k] < |m.chans| && Open(m.chans[m.frontendChans[k]].log))
  {
    RunKeepsInv(Initial, actions, keyTrace);
    var m := Run(Initial, actions, keyTrace).muxes[i];
    forall k | k in m.frontendChans ensures m.frontendChans[k] < |m.chans| && Open(m.chans[m.frontendChans[k]].log) {
      assert Registered(m, m.frontendChans[k]);
    }
  }

  lemma {:induction false} RunMonotone(w: World, actions: seq<Action>, keyTrace: string -> bool, i: nat)
    requires i < |w.muxes|
    ensures var w' := Run(w, actions, keyTrace);
      && |w.muxes| <= |w'.muxes|
      && w.muxes[i].phase.Rank() <= w'.muxes[i].phase.Rank()
      && w'.muxes[i].host == w.muxes[i].host
      && (w.muxes[i].phase == Drained ==> |w'.muxes[i].chans| == |w.muxes[i].chans|)
      && w.muxes[i].wire + w.muxes[i].queue <= w'.muxes[i].wire + w'.muxes[i].queue
    decreases |actions|
  {
    if actions == [] {
    } else {
      var before, a := actions[..|actions| - 1], actions[|actions| - 1];
      RunMonotone(w, before, keyTrace, i);
      var w1 := Run(w, before, keyTrace);
      MuxesAfter(w1, a, keyTrace);
      if Touched(w1, a).Some? && Touched(w1, a).value.0 == i {
        MuxStepMonotone(w1.muxes[i], Touched(w1, a).value.1);
      }
    }
  }

  lemma {:induction false} RunAppend(w: World, before: seq<Action>, after: seq<Action>, keyTrace: string -> bool)
    ensures Run(w, before + after, keyTrace) == Run(Run(w, before, keyTrace), after, keyTrace)
    decreases |after|
  {
    if after == [] {
      assert before + after == before;
    } else {
      var all := before + after;
      assert all[..|all| - 1] == before + after[..|after| - 1];
      RunAppend(w, before, after[..|after| - 1], keyTrace);
    }
  }

  /**
   * Once a connection has drained, its table is empty and every channel it ever handed out is
   * closed, in every later state: no client slips in between `close(done)` and the drain.
   */
  lemma DrainedForever(actions: seq<Action>, later: seq<Action>, keyTrace: string -> bool, i: nat)
    requires i < |Run(Initial, actions, keyTrace).muxes|
    requires Run(Initial, actions, keyTrace).muxes[i].phase == Drained
    ensures var w' := Run(Initial, actions + later, keyTrace);
      && i < |w'.muxes|
      && w'.muxes[i].frontendChans == map[]
      && |w'.muxes[i].chans| == |Run(Initial, actions, keyTrace).muxes[i].chans|
      && forall h :: 0 <= h < |w'.muxes[i].chans| ==> !Open(w'.muxes[i].chans[h].log)
  {
    RunAppend(Initial, actions, later, keyTrace);
    RunMonotone(Run(Initial, actions, keyTrace), later, keyTrace, i);
    RunKeepsInv(Initial, actions + later, keyTrace);
    DrainedIsClosed(Run(Initial, actions + later, keyTrace).muxes[i]);
  }

  lemma DrainedIsClosed(m: Mux)
    requires MuxInv(m) && m.phase == Drained
    ensures m.frontendChans == map[] && forall h :: 0 <= h < |m.chans| ==> !Open(m.chans[h].log)
  {
  }

  /** Frames leave a connection in the order they were queued: what is written or waiting only ever grows at its end. */
  lemma FramesInOrder(actions: seq<Action>, later: seq<Action>, keyTrace: string -> bool, i: nat)
    requires i < |Run(Initial, actions, keyTrace).muxes|
    ensures var m, w' := Run(Initial, actions, keyTrace).muxes[i], Run(Initial, actions + later, keyTrace);
      i < |w'.muxes| && m.wire + m.queue <= w'.muxes[i].wire + w'.muxes[i].queue
  {
    RunAppend(Initial, actions, later, keyTrace);
    RunMonotone(Run(Initial, actions, keyTrace), later, keyTrace, i);
  }

  /**
   * In every run a host maps to its most recently added connection as long as that connection has
   * not taken its own remove step, and to nothing afterwards: a superseded connection's shutdown
   * never removes its replacement, and a removed connection is never found again.
   */
  lemma RegistryIsNewestUnremoved(actions: seq<Action>, keyTrace: string -> bool, host: string, i: nat)
    ensures var w := Run(Initial, actions, keyTrace);
      (host in w.registry && w.registry[host] == i)
        <==> (Newest(w, host, i) && (w.muxes[i].phase == Running || w.muxes[i].phase == DoneClosed))
  {
    RunKeepsInv(Initial, actions, keyTrace);
    var w := Run(Initial, actions, keyTrace);
    assert (host in w.registry && w.registry[host] == i) <==>
      (Newest(w, host, i) && w.muxes[i].phase.Rank() < Removed.Rank());
  }

  lemma RemovedNeverFoundAgain(actions: seq<Action>, later: seq<Action>, keyTrace: string -> bool, host: string, i: nat)
    requires i < |Run(Initial, actions, keyTrace).muxes|
    requires Run(Initial, actions, keyTrace).muxes[i].phase.Rank() >= Removed.Rank()
    ensures var w' := Run(Initial, actions + later, keyTrace); !(host in w'.registry && w'.registry[host] == i)
  {
    RunAppend(Initial, actions, later, keyTrace);
    RunMonotone(Run(Initial, actions, keyTrace), later, keyTrace, i);
    RegistryIsNewestUnremoved(actions + later, keyTrace, host, i);
  }

  /**
   * In every run, with any replacement between initialise and connect: a Connect frame stands only
   * on the connection that issued its key, no other connection ever issued that key, a Key ticket
   * URL stands only on a capable connection, and the backend parses the very frame that was sent.
   */
  lemma ConnectFramesAtHome(actions: seq<Action>, keyTrace: string -> bool, i: nat, f: Message)
    requires i < |Run(Initial, actions, keyTrace).muxes|
    requires f.kind == CONNECT
    requires f in Run(Initial, actions, keyTrace).muxes[i].wire + Run(Initial, actions, keyTrace).muxes[i].queue
    ensures var w := Run(Initial, actions, keyTrace);
      && f.key in Keys(w.muxes[i])
      && (forall j :: 0 <= j < |w.muxes| && j != i ==> f.key !in Keys(w.muxes[j]))
      && (keyTrace(f.body) ==> w.muxes[i].capable)
      && ParseMessageSafe(Format(f)) == Ok(f)
  {
    RunKeepsInv(Initial, actions, keyTrace);
    var w := Run(Initial, actions, keyTrace);
    assert FrameOk(w.muxes[i], f, keyTrace);
    forall j | 0 <= j < |w.muxes| && j != i ensures f.key !in Keys(w.muxes[j]) {
      assert Keys(w.muxes[if i < j then i else j]) !! Keys(w.muxes[if i < j then j else i]);
    }
    RoundTripExactly(f);
  }

  /**
   * Every frame queued on any connection under a key that some connection issued is read back
   * unchanged by the backend.
   */
  lemma IssuedFramesArrive(actions: seq<Action>, keyTrace: string -> bool, i: nat, j: nat, f: Message)
    requires i < |Run(Initial, actions, keyTrace).muxes| && j < |Run(Initial, actions, keyTrace).muxes|
    requires f in Run(Initial, actions, keyTrace).muxes[i].wire + Run(Initial, actions, keyTrace).muxes[i].queue
    requires f.key in Keys(Run(Initial, actions, keyTrace).muxes[j])
    ensures ParseMessageSafe(Format(f)) == Ok(f)
  {
    RunKeepsInv(Initial, actions, keyTrace);
    var w := Run(Initial, actions, keyTrace);
    assert FramesOk(w.muxes[i], keyTrace) && FramesOk(w.muxes[j], keyTrace);
    assert FrameOk(w.muxes[i], f, keyTrace);
    RoundTripExactly(f);
  }

  /** The registry leads from a host to the issuer of a key exactly while that connection is newest and unremoved. */
  lemma IssuerFoundExactly(w: World, keyTrace: string -> bool, host: string, key: string, i: nat)
    requires Inv(w, keyTrace) && i < |w.muxes| && key in Keys(w.muxes[i])
    ensures (host in w.registry && w.registry[host] < |w.muxes| && key in Keys(w.muxes[w.registry[host]]))
      <==> (Newest(w, host, i) && w.muxes[i].phase.Rank() < Removed.Rank())
  {
    assert (host in w.registry && w.registry[host] == i)
      <==> (Newest(w, host, i) && w.muxes[i].phase.Rank() < Removed.Rank());
    if host in w.registry && w.registry[host] != i {
      var j := w.registry[host];
      assert Newest(w, host, j);
      assert Keys(w.muxes[if i < j then i else j]) !! Keys(w.muxes[if i < j then j else i]);
    }
  }

  /** A lookup remembers the connection the registry leads to. */
  lemma LookupRemembers(w: World, keyTrace: string -> bool, a: Action)
    requires (a.LookupSend? || a.LookupClose?) && a.t !in w.tasks
    ensures var w' := Apply(w, a, keyTrace);
      && w'.muxes == w.muxes
      && (a.t in w'.tasks <==> a.host in w.registry && w.registry[a.host] < |w.muxes|)
      && (a.t in w'.tasks ==> w'.tasks[a.t].mux == w.registry[a.host])
  {
  }

  /**
   * Body, Close and release are not guarded like Connect: they go to whatever connection the host
   * has by then. That is the one that issued the key exactly as long as no newer one was added and
   * it is not removed.
   */
  lemma LookupAtHomeExactly(actions: seq<Action>, keyTrace: string -> bool, a: Action, i: nat)
    requires a.LookupSend? || a.LookupClose?
    requires var w := Run(Initial, actions, keyTrace); i < |w.muxes| && a.key in Keys(w.muxes[i]) && a.t !in w.tasks
    ensures var w := Run(Initial, actions, keyTrace);
      var w' := Run(Initial, actions + [a], keyTrace);
      (a.t in w'.tasks && w'.tasks[a.t].mux < |w'.muxes| && a.key in Keys(w'.muxes[w'.tasks[a.t].mux]))
        <==> (Newest(w, a.host, i) && w.muxes[i].phase.Rank() < Removed.Rank())
  {
    RunKeepsInv(Initial, actions, keyTrace);
    var w := Run(Initial, actions, keyTrace);
    assert (actions + [a])[..|actions|] == actions;
    assert Run(Initial, actions + [a], keyTrace) == Apply(w, a, keyTrace);
    LookupRemembers(w, keyTrace, a);
    IssuerFoundExactly(w, keyTrace, a.host, a.key, i);
  }

  // ----- what the clients receive -----

  /** What channel h of connection i carried; nothing as long as it is not there. */
  function Carried(w: World, i: nat, h: nat): seq<Message> {
    if i < |w.muxes| then CarriedBy(w.muxes[i], h) else []
  }

  /** The message that the reader of connection i holds, and the channel it holds it for. */
  function Held(w: World, i: nat): Option<(Message, nat)> {
    if i < |w.muxes| && w.muxes[i].reader.Holding? then Some((w.muxes[i].reader.msg, w.muxes[i].reader.chan)) else None
  }

  /**
   * Told from the steps: the message last received on connection i by an idle reader, if its key was
   * in the table then, and the channel it stood for; until it is taken or given up.
   */
  function Underway(actions: seq<Action>, keyTrace: string -> bool, i: nat): Option<(Message, nat)> {
    if actions == [] then None
    else
      var before, a := actions[..|actions| - 1], actions[|actions| - 1];
      var w, held := Run(Initial, before, keyTrace), Underway(before, keyTrace, i);
      if Picks(w, a, i) then Some((a.msg, w.muxes[i].frontendChans[a.msg.key]))
      else if a == ReaderDeliver(i) || a == ReaderGiveUp(i) then None
      else held
  }

  /** Told from the steps: the messages taken for channel h of connection i, in order. */
  function Taken(actions: seq<Action>, keyTrace: string -> bool, i: nat, h: nat): seq<Message> {
    if actions == [] then []
    else
      var before, a := actions[..|actions| - 1], actions[|actions| - 1];
      var held := Underway(before, keyTrace, i);
      if a == ReaderDeliver(i) && held.Some? && held.value.1 == h then Taken(before, keyTrace, i, h) + [held.value.0]
      else Taken(before, keyTrace, i, h)
  }

  /** One step on connection i: its own, or none. */
  lemma StepOn(w: World, a: Action, keyTrace: string -> bool, i: nat)
    requires i < |w.muxes|
    ensures var w' := Apply(w, a, keyTrace);
      && |w.muxes| <= |w'.muxes|
      && (|| w'.muxes[i] == w.muxes[i]
          || (Touched(w, a).Some? && Touched(w, a).value.0 == i
              && w'.muxes[i] == ApplyMux(w.muxes[i], Touched(w, a).value.1)))
    ensures a == ReaderDeliver(i) ==> Apply(w, a, keyTrace).muxes[i] == ApplyMux(w.muxes[i], Deliver)
    ensures a == ReaderGiveUp(i) ==> Apply(w, a, keyTrace).muxes[i] == ApplyMux(w.muxes[i], GiveUp)
    ensures a.ReaderReceive? && a.i == i ==> Apply(w, a, keyTrace).muxes[i] == ApplyMux(w.muxes[i], Receive(a.msg))
  {
    MuxesAfter(w, a, keyTrace);
  }

  /** The step is a message received by the idle reader of connection i for a client in its table. */
  predicate Picks(w: World, a: Action, i: nat) {
    && a.ReaderReceive? && a.i == i && i < |w.muxes|
    && w.muxes[i].reader == Idle && a.msg.key in w.muxes[i].frontendChans
  }

  /** No step but these three changes what a reader holds. */
  lemma ReaderAfter(w: World, a: Action, keyTrace: string -> bool, i: nat)
    requires i < |w.muxes| && (w.muxes[i].reader.Holding? ==> w.muxes[i].reader.chan < |w.muxes[i].chans|)
    ensures var r, w' := w.muxes[i].reader, Apply(w, a, keyTrace);
      && i < |w'.muxes|
      && (Picks(w, a, i) ==> w'.muxes[i].reader == Holding(a.msg, w.muxes[i].frontendChans[a.msg.key]))
      && (a == ReaderDeliver(i) || a == ReaderGiveUp(i) ==> !w'.muxes[i].reader.Holding?)
      && (!Picks(w, a, i) && a != ReaderDeliver(i) && a != ReaderGiveUp(i) ==>
            w'.muxes[i].reader == r || (!r.Holding? && !w'.muxes[i].reader.Holding?))
  {
    StepOn(w, a, keyTrace, i);
    if a == ReaderDeliver(i) {
      MuxStepReader(w.muxes[i], Deliver);
    } else if a == ReaderGiveUp(i) {
      MuxStepReader(w.muxes[i], GiveUp);
    } else if a.ReaderReceive? && a.i == i {
      MuxStepReader(w.muxes[i], Receive(a.msg));
    } else if Touched(w, a).Some? && Touched(w, a).value.0 == i {
      MuxStepReader(w.muxes[i], Touched(w, a).value.1);
    }
  }

  lemma HeldAfter(w: World, a: Action, keyTrace: string -> bool, i: nat)
    requires MuxesInv(w)
    ensures Held(Apply(w, a, keyTrace), i) ==
      if Picks(w, a, i) then Some((a.msg, w.muxes[i].frontendChans[a.msg.key]))
      else if a == ReaderDeliver(i) || a == ReaderGiveUp(i) then None
      else Held(w, i)
  {
    if i < |w.muxes| {
      assert MuxInv(w.muxes[i]);
      ReaderAfter(w, a, keyTrace, i);
    } else {
      MuxesAfter(w, a, keyTrace);
    }
  }

  lemma CarriedAfterOn(w: World, a: Action, keyTrace: string -> bool, i: nat, h: nat)
    requires i < |w.muxes| && (w.muxes[i].reader.Holding? ==> w.muxes[i].reader.chan < |w.muxes[i].chans|)
    ensures var m, w' := w.muxes[i], Apply(w, a, keyTrace);
      && i < |w'.muxes|
      && CarriedBy(w'.muxes[i], h) == CarriedBy(m, h)
           + if a == ReaderDeliver(i) && m.reader.Holding? && m.reader.chan == h then [m.reader.msg] else []
  {
    StepOn(w, a, keyTrace, i);
    assert CarriedBy(w.muxes[i], h) + [] == CarriedBy(w.muxes[i], h);
    if a == ReaderDeliver(i) {
      MuxStepCarries(w.muxes[i], Deliver, h);
    } else if Touched(w, a).Some? && Touched(w, a).value.0 == i {
      MuxStepCarries(w.muxes[i], Touched(w, a).value.1, h);
    }
  }

  lemma CarriedAfter(w: World, a: Action, keyTrace: string -> bool, i: nat, h: nat)
    requires MuxesInv(w)
    ensures Carried(Apply(w, a, keyTrace), i, h) == Carried(w, i, h)
      + if a == ReaderDeliver(i) && Held(w, i).Some? && Held(w, i).value.1 == h then [Held(w, i).value.0] else []
  {
    if i < |w.muxes| {
      assert MuxInv(w.muxes[i]);
      CarriedAfterOn(w, a, keyTrace, i, h);
    } else {
      MuxesAfter(w, a, keyTrace);
    }
  }

  /**
   * In every run a client's channel carries exactly the messages that were received for its key while
   * it was registered and the reader idle, and then taken: unaltered, each once, in order.
   */
  lemma {:induction false} ClientsReceive(actions: seq<Action>, keyTrace: string -> bool, i: nat, h: nat)
    ensures var w := Run(Initial, actions, keyTrace);
      Held(w, i) == Underway(actions, keyTrace, i) && Carried(w, i, h) == Taken(actions, keyTrace, i, h)
    decreases |actions|
  {
    if actions == [] {
    } else {
      var before, a := actions[..|actions| - 1], actions[|actions| - 1];
      ClientsReceive(before, keyTrace, i, h);
      RunKeepsInv(Initial, before, keyTrace);
      HeldAfter(Run(Initial, before, keyTrace), a, keyTrace, i);
      CarriedAfter(Run(Initial, before, keyTrace), a, keyTrace, i, h);
    }
  }

  // ----- what the backends are sent -----

  /** The request that a task carries out, as it was made. */
  ghost predicate AsksFor(a: Action, task: Task) {
    match task
    case Initializing(_) => a.LookupInit?
    case Connecting(_, key, url) => a.LookupConnect? && a.key == key && a.url == url
    case ConnectChecked(_, key, url) => a.LookupConnect? && a.key == key && a.url == url
    case Sending(_, key, body) => a.LookupSend? && a.key == key && a.body == body
    case Closing(_, key, notify) =>
      (a.LookupClose? && a.key == key && a.notify == notify) || (a.ReaderComplain? && notify)
    case CloseNotified(_, key) => (a.LookupClose? && a.key == key) || a.ReaderComplain?
  }

  ghost predicate Requested(actions: seq<Action>, t: nat, task: Task) {
    exists n :: 0 <= n < |actions| && MadeBy(actions[n], t, task)
  }

  ghost predicate MadeBy(a: Action, t: nat, task: Task) {
    && AsksFor(a, task)
    && (a.LookupInit? || a.LookupConnect? || a.LookupSend? || a.LookupClose? || a.ReaderComplain?) && a.t == t
  }

  lemma TaskMade(w: World, a: Action, keyTrace: string -> bool, t: nat)
    requires t !in w.tasks && t in Apply(w, a, keyTrace).tasks
    ensures MadeBy(a, t, Apply(w, a, keyTrace).tasks[t])
  {
  }

  /** In every run what a task is about is what was asked for when it began. */
  lemma {:induction false} TasksAsRequested(actions: seq<Action>, keyTrace: string -> bool, t: nat)
    requires t in Run(Initial, actions, keyTrace).tasks
    ensures Requested(actions, t, Run(Initial, actions, keyTrace).tasks[t])
    decreases |actions|
  {
    if actions == [] {
    } else {
      var before, a := actions[..|actions| - 1], actions[|actions| - 1];
      var w := Run(Initial, before, keyTrace);
      if t in w.tasks {
        TasksAsRequested(before, keyTrace, t);
        TaskChange(w, a, keyTrace, t);
        var n :| 0 <= n < |before| && MadeBy(before[n], t, w.tasks[t]);
        assert MadeBy(actions[n], t, Run(Initial, actions, keyTrace).tasks[t]);
      } else {
        TaskMade(w, a, keyTrace, t);
        assert MadeBy(actions[|before|], t, Run(Initial, actions, keyTrace).tasks[t]);
      }
    }
  }

  /** The frame that a step hands to the queue of connection i, if it is taken. */
  function Submits(w: World, a: Action, i: nat): seq<Message> {
    var m := w.muxes;
    var frame :=
      match a
      case EnqueueConnect(t, taken) =>
        if taken && t in w.tasks && w.tasks[t].ConnectChecked? && w.tasks[t].mux == i
        then Some(Message(w.tasks[t].key, "0", w.tasks[t].url)) else None
      case EnqueueSend(t, taken) =>
        if taken && t in w.tasks && w.tasks[t].Sending? && w.tasks[t].mux == i
        then Some(Message(w.tasks[t].key, "1", w.tasks[t].body)) else None
      case NotifyClose(t, taken) =>
        if taken && t in w.tasks && w.tasks[t].Closing? && w.tasks[t].notify && w.tasks[t].mux == i
        then Some(Message(w.tasks[t].key, "2", "")) else None
      case _ => None;
    if frame.Some? && i < |m| && |Format(frame.value)| <= 16777216 && |m[i].queue| < 10 then [frame.value] else []
  }

  function Submitted(actions: seq<Action>, keyTrace: string -> bool, i: nat): seq<Message> {
    if actions == [] then []
    else
      var before, a := actions[..|actions| - 1], actions[|actions| - 1];
      Submitted(before, keyTrace, i) + Submits(Run(Initial, before, keyTrace), a, i)
  }

  /** What was handed to the socket of connection i and what waits for it. */
  function Outgoing(w: World, i: nat): seq<Message> {
    if i < |w.muxes| then w.muxes[i].wire + w.muxes[i].queue else []
  }

  lemma MuxStepOutgoing(m: Mux, a: MuxAction)
    ensures ApplyMux(m, a).wire + ApplyMux(m, a).queue == m.wire + m.queue
      + if a.Enqueue? && |Format(a.frame)| <= 16777216 && |m.queue| < 10 then [a.frame] else []
  {
    assert m.wire + m.queue + [] == m.wire + m.queue;
    if a.WriteOut? && m.queue != [] {
      assert m.wire + [m.queue[0]] + m.queue[1..] == m.wire + m.queue;
    }
  }

  /** Which steps submit a frame, and that they touch the connection with it. */
  lemma SubmitsTouches(w: World, a: Action, keyTrace: string -> bool, i: nat)
    requires i < |w.muxes|
    ensures Submits(w, a, i) != [] ==>
      Apply(w, a, keyTrace).muxes[i] == ApplyMux(w.muxes[i], Enqueue(Submits(w, a, i)[0]))
    ensures Submits(w, a, i) == [] && Touched(w, a).Some? && Touched(w, a).value.0 == i ==>
      Touched(w, a).value.1.Enqueue? ==>
      |Format(Touched(w, a).value.1.frame)| > 16777216 || |w.muxes[i].queue| >= 10
  {
  }

  lemma OutgoingAfter(w: World, a: Action, keyTrace: string -> bool, i: nat)
    ensures Outgoing(Apply(w, a, keyTrace), i) == Outgoing(w, i) + Submits(w, a, i)
  {
    assert Outgoing(w, i) + [] == Outgoing(w, i);
    if i < |w.muxes| {
      StepOn(w, a, keyTrace, i);
      SubmitsTouches(w, a, keyTrace, i);
      if Submits(w, a, i) != [] {
        MuxStepOutgoing(w.muxes[i], Enqueue(Submits(w, a, i)[0]));
      } else if Touched(w, a).Some? {
        MuxStepOutgoing(w.muxes[i], Touched(w, a).value.1);
      }
    } else {
      MuxesAfter(w, a, keyTrace);
    }
  }

  /**
   * In every run what was handed to a connection's socket and what waits for it are exactly the frames
   * that were submitted and fitted: a Connect with its URL, a Body with its body, a Close.
   */
  lemma {:induction false} BackendsAreSent(actions: seq<Action>, keyTrace: string -> bool, i: nat)
    ensures Outgoing(Run(Initial, actions, keyTrace), i) == Submitted(actions, keyTrace, i)
    decreases |actions|
  {
    if actions == [] {
    } else {
      BackendsAreSent(actions[..|actions| - 1], keyTrace, i);
      OutgoingAfter(Run(Initial, actions[..|actions| - 1], keyTrace), actions[|actions| - 1], keyTrace, i);
    }
  }

  // ----- the gates -----

  /** A client is initialised on the host's connection, a Key client only on a capable one, and in no other case. */
  lemma InitGateExactly(w: World, keyTrace: string -> bool, t: nat, host: string, keyed: bool)
    requires t !in w.tasks
    ensures var w' := Apply(w, LookupInit(t, host, keyed), keyTrace);
      && (t in w'.tasks <==>
            host in w.registry && w.registry[host] < |w.muxes| && (keyed ==> w.muxes[w.registry[host]].capable))
      && (t in w'.tasks ==> w'.tasks[t] == Initializing(w.registry[host]))
      && w'.muxes == w.muxes && w'.registry == w.registry
  {
  }

  /**
   * A client that was initialised is registered under the fresh key if the connection is still
   * running, and not otherwise.
   */
  lemma InitRegisters(w: World, keyTrace: string -> bool, t: nat, entropy: Entropy)
    requires MuxesInv(w) && t in w.tasks && w.tasks[t].Initializing? && w.tasks[t].mux < |w.muxes|
    requires !w.muxes[w.tasks[t].mux].reader.Holding? && Fresh(w, UuidText(entropy))
    ensures var i, key, w' := w.tasks[t].mux, UuidText(entropy), Apply(w, FinishInit(t, entropy), keyTrace);
      && i < |w'.muxes| && t !in w'.tasks
      && (key in w'.muxes[i].frontendChans <==> w.muxes[i].phase == Running)
      && (key in w'.muxes[i].frontendChans ==> w'.muxes[i].chans == w.muxes[i].chans + [Chan(key, [])])
      && (forall k :: k in w.muxes[i].frontendChans ==> k in w'.muxes[i].frontendChans)
  {
    var m, key := w.muxes[w.tasks[t].mux], UuidText(entropy);
    assert m.frontendChans.Keys <= Keys(m);
    assert key !in m.frontendChans.Keys;
  }

  /**
   * A connect whose key is registered on the host's connection goes through: unless it needs a capable
   * one and that is not, or the frame does not fit, its frame ends up at the end of the queue.
   */
  lemma ConnectGoesThrough(w: World, keyTrace: string -> bool, t: nat, host: string, key: string, url: string)
    requires t !in w.tasks && host in w.registry && w.registry[host] < |w.muxes|
    requires key in w.muxes[w.registry[host]].frontendChans
    ensures var i := w.registry[host];
      var w' := Run(w, [LookupConnect(t, host, key, url), CheckConnect(t), EnqueueConnect(t, true)], keyTrace);
      var fits := |Format(Message(key, "0", url))| <= 16777216 && |w.muxes[i].queue| < 10;
      && i < |w'.muxes|
      && w'.muxes[i].queue == w.muxes[i].queue
           + if (keyTrace(url) ==> w.muxes[i].capable) && fits then [Message(key, "0", url)] else []
  {
    var i := w.registry[host];
    RunThree(w, LookupConnect(t, host, key, url), CheckConnect(t), EnqueueConnect(t, true), keyTrace);
    assert w.muxes[i].queue + [] == w.muxes[i].queue;
    var w1 := Apply(w, LookupConnect(t, host, key, url), keyTrace);
    if keyTrace(url) ==> w.muxes[i].capable {
      assert w1.tasks[t] == Connecting(i, key, url) && w1.muxes == w.muxes;
      var w2 := Apply(w1, CheckConnect(t), keyTrace);
      assert w2.tasks[t] == ConnectChecked(i, key, url) && w2.muxes == w.muxes;
    } else {
      assert w1 == w;
    }
  }

  /**
   * A close or a release run through: the key is gone from the host's connection and its channel
   * closed, whatever became of the Close frame, which is queued exactly if it was to be and fitted.
   */
  lemma CloseGoesThrough(w: World, keyTrace: string -> bool, t: nat, host: string, key: string, notify: bool,
      taken: bool)
    requires MuxesInv(w) && t !in w.tasks && host in w.registry && w.registry[host] < |w.muxes|
    requires !w.muxes[w.registry[host]].reader.Holding?
    ensures var i := w.registry[host];
      var w' := Run(w, [LookupClose(t, host, key, notify), NotifyClose(t, taken), FinishClose(t)], keyTrace);
      var m := w.muxes[i];
      && i < |w'.muxes| && t !in w'.tasks
      && key !in w'.muxes[i].frontendChans
      && (key in m.frontendChans ==>
            m.frontendChans[key] < |w'.muxes[i].chans| && !Open(w'.muxes[i].chans[m.frontendChans[key]].log))
      && w'.muxes[i].queue == m.queue
           + if notify && taken && |Format(Message(key, "2", ""))| <= 16777216 && |m.queue| < 10
             then [Message(key, "2", "")] else []
  {
    var i := w.registry[host];
    RunThree(w, LookupClose(t, host, key, notify), NotifyClose(t, taken), FinishClose(t), keyTrace);
    var w1 := Apply(w, LookupClose(t, host, key, notify), keyTrace);
    assert w1 == Became(w, t, Closing(i, key, notify));
    CloseNotifies(w1, keyTrace, t, taken);
    var w2 := Apply(w1, NotifyClose(t, taken), keyTrace);
    CloseFinishes(w2, keyTrace, t);
    CloseKeyCloses(w2.muxes[i], key);
  }

  lemma CloseNotifies(w: World, keyTrace: string -> bool, t: nat, taken: bool)
    requires t in w.tasks && w.tasks[t].Closing? && w.tasks[t].mux < |w.muxes|
    ensures var task, w' := w.tasks[t], Apply(w, NotifyClose(t, taken), keyTrace);
      var m, m', close := w.muxes[task.mux], w'.muxes[task.mux], Message(task.key, "2", "");
      && |w'.muxes| == |w.muxes| && w'.tasks == w.tasks[t := CloseNotified(task.mux, task.key)]
      && m' == m.(queue := m'.queue)
      && m'.queue == m.queue
           + if task.notify && taken && |Format(close)| <= 16777216 && |m.queue| < 10 then [close] else []
  {
    var m := w.muxes[w.tasks[t].mux];
    assert m.queue + [] == m.queue;
  }

  lemma CloseFinishes(w: World, keyTrace: string -> bool, t: nat)
    requires t in w.tasks && w.tasks[t].CloseNotified? && w.tasks[t].mux < |w.muxes|
    requires !w.muxes[w.tasks[t].mux].reader.Holding?
    ensures var task, w' := w.tasks[t], Apply(w, FinishClose(t), keyTrace);
      && |w'.muxes| == |w.muxes| && t !in w'.tasks
      && w'.muxes[task.mux] == CloseKey(w.muxes[task.mux], task.key)
  {
  }

  lemma CloseKeyCloses(m: Mux, key: string)
    requires KeyedChans(m)
    ensures var m' := CloseKey(m, key);
      && key !in m'.frontendChans && m'.queue == m.queue
      && (key in m.frontendChans ==> !Open(m'.chans[m.frontendChans[key]].log))
  {
    CloseKeyExactly(m, key);
    if key in m.frontendChans {
      var log := m.chans[m.frontendChans[key]].log;
      assert (log + [Closed])[|log|] == Closed;
    }
  }

  /**
   * A complaint becomes a close, with a frame to the backend, on whatever connection the host has; the
   * reader goes on.
   */
  lemma ComplaintBecomesClose(w: World, keyTrace: string -> bool, i: nat, t: nat, key: string)
    requires i < |w.muxes| && w.muxes[i].reader == Complaining(key) && t !in w.tasks
    ensures var w', host := Apply(w, ReaderComplain(i, t), keyTrace), w.muxes[i].host;
      && i < |w'.muxes| && w'.muxes[i].reader == Idle
      && (t in w'.tasks <==> host in w.registry && w.registry[host] < |w.muxes|)
      && (t in w'.tasks ==> w'.tasks[t] == Closing(w.registry[host], key, true))
  {
  }

  function OneClient(key: string): Mux {
    NewMux("h", "s1", false).(frontendChans := map[key := 0], chans := [Chan(key, [])])
  }

  lemma RunThree(w: World, a: Action, b: Action, c: Action, keyTrace: string -> bool)
    ensures Run(w, [a, b, c], keyTrace) == Apply(Apply(Apply(w, a, keyTrace), b, keyTrace), c, keyTrace)
  {
    assert [a, b, c][..2] == [a, b] && [a, b][..1] == [a] && [a][..0] == [];
    assert Run(w, [a], keyTrace) == Apply(w, a, keyTrace);
    assert Run(w, [a, b], keyTrace) == Apply(Run(w, [a], keyTrace), b, keyTrace);
  }

  lemma ClientOnFirst(entropy: Entropy, keyTrace: string -> bool)
    ensures Run(Initial, [AddBackend("h", "s1", false), LookupInit(0, "h", false), FinishInit(0, entropy)], keyTrace)
         == World([OneClient(UuidText(entropy))], map["h" := 0], map[])
  {
    var key, m := UuidText(entropy), NewMux("h", "s1", false);
    RunThree(Initial, AddBackend("h", "s1", false), LookupInit(0, "h", false), FinishInit(0, entropy), keyTrace);
    var w1 := Apply(Initial, AddBackend("h", "s1", false), keyTrace);
    assert w1 == World([m], map["h" := 0], map[]);
    var w2 := Apply(w1, LookupInit(0, "h", false), keyTrace);
    assert w2 == World([m], map["h" := 0], map[0 := Initializing(0)]);
    assert Keys(m) == {} && Fresh(w2, key) && Ready(w2, 0);
    assert ApplyMux(m, Register(key)) == OneClient(key);
    assert w2.tasks - {0} == map[];
  }

  lemma SendOnSecond(key: string, keyTrace: string -> bool)
    requires |key| == 36
    ensures var w := Run(World([OneClient(key)], map["h" := 0], map[]),
        [AddBackend("h", "s2", false), LookupSend(1, "h", key, ""), EnqueueSend(1, true)], keyTrace);
      w.muxes == [OneClient(key), NewMux("h", "s2", false).(queue := [Message(key, BODY, "")])]
  {
    var w, m := World([OneClient(key)], map["h" := 0], map[]), NewMux("h", "s2", false);
    RunThree(w, AddBackend("h", "s2", false), LookupSend(1, "h", key, ""), EnqueueSend(1, true), keyTrace);
    var w1 := Apply(w, AddBackend("h", "s2", false), keyTrace);
    assert w1 == World([OneClient(key), m], map["h" := 1], map[]);
    var w2 := Apply(w1, LookupSend(1, "h", key, ""), keyTrace);
    assert w2 == World([OneClient(key), m], map["h" := 1], map[1 := Sending(1, key, "")]);
    assert Takes(m, Message(key, BODY, "")) && m.queue + [Message(key, BODY, "")] == [Message(key, BODY, "")];
    assert ApplyMux(m, Enqueue(Message(key, BODY, ""))) == m.(queue := [Message(key, BODY, "")]);
  }

  /**
   * Only Connect is guarded: after a replacement, Body for an old key is queued on a connection that
   * never issued it.
   */
  lemma BodyMayGoAstray(entropy: Entropy, keyTrace: string -> bool)
    ensures var key := UuidText(entropy);
      var w := Run(Initial,
        [AddBackend("h", "s1", false), LookupInit(0, "h", false), FinishInit(0, entropy)]
        + [AddBackend("h", "s2", false), LookupSend(1, "h", key, ""), EnqueueSend(1, true)], keyTrace);
      |w.muxes| == 2 && Message(key, BODY, "") in w.muxes[1].queue && key in Keys(w.muxes[0]) &&
        key !in Keys(w.muxes[1])
  {
    var key := UuidText(entropy);
    UuidIsVersion4(entropy);
    ClientOnFirst(entropy, keyTrace);
    SendOnSecond(key, keyTrace);
    RunAppend(Initial,
      [AddBackend("h", "s1", false), LookupInit(0, "h", false), FinishInit(0, entropy)],
      [AddBackend("h", "s2", false), LookupSend(1, "h", key, ""), EnqueueSend(1, true)], keyTrace);
    assert Chan(key, []) in OneClient(key).chans;
  }

  // ----- the object -----

  /** The second step of a shutdown. */
  function RemovedWorld(w: World, i: nat): World
    requires i < |w.muxes|
  {
    if w.muxes[i].phase == DoneClosed then
      At(w, i, MarkRemoved).(registry := Deregister(w, w.muxes[i].host, w.muxes[i].sessionId))
    else w
  }

  lemma RemovedWorldIs(w: World, i: nat)
    requires i < |w.muxes| && w.muxes[i].phase == DoneClosed
    ensures RemovedWorld(w, i) == World(w.muxes[i := w.muxes[i].(phase := Removed)],
      Deregister(w, w.muxes[i].host, w.muxes[i].sessionId), w.tasks)
  {
  }

  /** Its third step, after the delivery under way has ended. */
  function DrainedWorld(w: World, i: nat, taken: bool): World
    requires i < |w.muxes|
  {
    At(At(w, i, if taken then Deliver else GiveUp), i, Drain)
  }

  /** A shutdown run through, whoever takes its steps. */
  function ShutWorld(w: World, i: nat, taken: bool): World
    requires i < |w.muxes|
  {
    DrainedWorld(RemovedWorld(At(w, i, CloseDone), i), i, taken)
  }

  /** The steps that act on one connection alone. */
  lemma ActsAt(w: World, i: nat, keyTrace: string -> bool)
    requires i < |w.muxes|
    ensures Apply(w, ShutdownClose(i), keyTrace) == At(w, i, CloseDone)
    ensures Apply(w, ReaderDeliver(i), keyTrace) == At(w, i, Deliver)
    ensures Apply(w, ReaderGiveUp(i), keyTrace) == At(w, i, GiveUp)
    ensures Apply(w, ShutdownDrain(i), keyTrace) == At(w, i, Drain)
    ensures Apply(w, ShutdownRemove(i), keyTrace) == RemovedWorld(w, i)
  {
  }

  lemma DrainIsARun(w: World, i: nat, taken: bool, keyTrace: string -> bool)
    requires i < |w.muxes|
    ensures Run(w, [if taken then ReaderDeliver(i) else ReaderGiveUp(i), ShutdownDrain(i)], keyTrace)
      == DrainedWorld(w, i, taken)
  {
    var reader, d := if taken then ReaderDeliver(i) else ReaderGiveUp(i), ShutdownDrain(i);
    assert [reader, d][..1] == [reader] && [reader][..0] == [];
    assert Run(w, [reader], keyTrace) == Apply(w, reader, keyTrace);
    ActsAt(w, i, keyTrace);
    ActsAt(At(w, i, if taken then Deliver else GiveUp), i, keyTrace);
  }

  lemma RemoveIsARun(w: World, i: nat, keyTrace: string -> bool)
    requires i < |w.muxes|
    ensures Run(w, [ShutdownClose(i), ShutdownRemove(i)], keyTrace) == RemovedWorld(At(w, i, CloseDone), i)
  {
    var a, b := ShutdownClose(i), ShutdownRemove(i);
    assert [a, b][..1] == [a] && [a][..0] == [];
    assert Run(w, [a], keyTrace) == Apply(w, a, keyTrace);
    ActsAt(w, i, keyTrace);
    ActsAt(At(w, i, CloseDone), i, keyTrace);
  }

  /** A shutdown run through is a run of the transition system. */
  lemma ShutdownIsARun(w: World, i: nat, taken: bool, keyTrace: string -> bool)
    requires i < |w.muxes|
    ensures var reader := if taken then ReaderDeliver(i) else ReaderGiveUp(i);
      Run(w, [ShutdownClose(i), ShutdownRemove(i)] + [reader, ShutdownDrain(i)], keyTrace) == ShutWorld(w, i, taken)
  {
    var reader := if taken then ReaderDeliver(i) else ReaderGiveUp(i);
    RunAppend(w, [ShutdownClose(i), ShutdownRemove(i)], [reader, ShutdownDrain(i)], keyTrace);
    RemoveIsARun(w, i, keyTrace);
    DrainIsARun(RemovedWorld(At(w, i, CloseDone), i), i, taken, keyTrace);
  }

  /** The drain of one connection, after its reader has settled; nothing when it has drained already. */
  lemma DrainsLikeThis(m: Mux, taken: bool)
    requires MuxInv(m) && (m.phase == Removed || m.phase == Drained)
    ensures ApplyMux(ApplyMux(m, if taken then Deliver else GiveUp), Drain)
         == if m.phase == Removed then ApplyMux(Settled(m, taken), Drain) else m
  {
  }

  /** A shutdown leaves the entry of a host that another connection has taken over. */
  lemma TakeoverStays(w: World, i: nat, taken: bool, host: string)
    requires i < |w.muxes| && host in w.registry && w.registry[host] < |w.muxes|
    requires w.registry[host] != i && w.muxes[w.registry[host]].sessionId != w.muxes[i].sessionId
    ensures var w' := ShutWorld(w, i, taken); host in w'.registry && w'.registry[host] == w.registry[host]
  {
  }

  /** A registration with the shutdown of what it supersedes. */
  function Replaced(w: World, host: string, sessionId: string, capable: bool, taken: bool,
      keyTrace: string -> bool): World
  {
    var w1 := Apply(w, AddBackend(host, sessionId, capable), keyTrace);
    if host in w.registry && w.registry[host] < |w1.muxes| then ShutWorld(w1, w.registry[host], taken) else w1
  }

  /** The manager object: the map from host to connection, under its lock. */
  class BackendProxyManager {
    var multiplexers: map<string, Connection>
    ghost var made: seq<Connection>

    constructor ()
      ensures multiplexers == map[] && Mirrors(Initial)
    {
      multiplexers, made := map[], [];
    }

    /** The manager and the connections it ever made stand in state w of the transition system. */
    ghost predicate Mirrors(w: World)
      reads this, made
    {
      && |made| == |w.muxes| && (forall i :: 0 <= i < |made| ==> made[i].State() == w.muxes[i])
      && (forall i, j :: 0 <= i < j < |made| ==> made[i] != made[j])
      && multiplexers.Keys == w.registry.Keys
      && (forall host :: host in multiplexers ==>
            w.registry[host] < |made| && made[w.registry[host]] == multiplexers[host])
    }

    /** The locked part of a registration, which hands back the connection it supersedes. */
    method Register(host: string, sessionId: string, capable: bool, ghost w: World, ghost keyTrace: string -> bool)
      returns (m: Connection, previous: Option<Connection>)
      requires Mirrors(w) && forall i :: 0 <= i < |w.muxes| ==> w.muxes[i].sessionId != sessionId
      modifies this
      ensures fresh(m) && m.State() == NewMux(host, sessionId, capable)
      ensures m.host == host && m.sessionId == sessionId && m.capable == capable && m.phase == Running
      ensures multiplexers == old(multiplexers)[host := m]
      ensures previous == if host in old(multiplexers) then Some(old(multiplexers)[host]) else None
      ensures made == old(made) + [m] && Mirrors(Apply(w, Action.AddBackend(host, sessionId, capable), keyTrace))
    {
      m := new Connection(host, sessionId, capable);
      previous := if host in multiplexers then Some(multiplexers[host]) else None;
      multiplexers := multiplexers[host := m];
      made := made + [m];
    }

    /** Registers a new connection and shuts the superseded one down, which leaves the new one registered. */
    method AddBackend(host: string, sessionId: string, capable: bool, taken: bool, ghost w: World,
        ghost keyTrace: string -> bool)
      returns (m: Connection)
      requires Mirrors(w) && forall i :: 0 <= i < |w.muxes| ==> w.muxes[i].sessionId != sessionId
      requires host in multiplexers ==> MuxInv(multiplexers[host].State())
      modifies this, if host in multiplexers then {multiplexers[host]} else {}
      ensures fresh(m) && m.State() == NewMux(host, sessionId, capable)
      ensures host in multiplexers && multiplexers[host] == m
      ensures host in old(multiplexers) ==> old(multiplexers)[host].phase == Drained
      ensures Mirrors(Replaced(w, host, sessionId, capable, taken, keyTrace))
    {
      var previous;
      m, previous := Register(host, sessionId, capable, w, keyTrace);
      if previous.Some? {
        Supersede(host, m, previous.value, taken, w.registry[host],
          Apply(w, Action.AddBackend(host, sessionId, capable), keyTrace));
      }
    }

    /** The superseded connection is shut down; the host stays with the new one. */
    method Supersede(host: string, m: Connection, previous: Connection, taken: bool, ghost i: nat, ghost w: World)
      requires Mirrors(w) && i < |made| && made[i] == previous && MuxInv(previous.State())
      requires host in multiplexers && multiplexers[host] == m && m != previous && m.sessionId != previous.sessionId
      modifies this`multiplexers, previous
      ensures Mirrors(ShutWorld(w, i, taken)) && previous.phase == Drained
      ensures host in multiplexers && multiplexers[host] == m
    {
      assert made[w.registry[host]] == m && w.muxes[w.registry[host]] == m.State();
      TakeoverStays(w, i, taken, host);
      Shutdown(previous, taken, i, w);
    }

    /** Takes the host out only on behalf of the session that is registered. */
    method RemoveBackend(host: string, sessionId: string, ghost w: World)
      requires Mirrors(w)
      modifies this`multiplexers
      ensures multiplexers ==
        if host in old(multiplexers) && old(multiplexers)[host].sessionId == sessionId
        then old(multiplexers) - {host}
        else old(multiplexers)
      ensures Mirrors(w.(registry := Deregister(w, host, sessionId)))
    {
      if host in multiplexers {
        var m := multiplexers[host];
        assert m.State() == w.muxes[w.registry[host]];
        if m.sessionId == sessionId {
          multiplexers := multiplexers - {host};
        }
      }
    }

    /** A connection enters a new phase. */
    method SetPhase(m: Connection, p: Phase, ghost i: nat, ghost w: World)
      requires Mirrors(w) && i < |made| && made[i] == m
      modifies m`phase
      ensures m.State() == old(m.State()).(phase := p)
      ensures Mirrors(w.(muxes := w.muxes[i := w.muxes[i].(phase := p)]))
    {
      m.phase := p;
    }

    /** The first step of `shutdown`. */
    method CloseDoneOf(m: Connection, ghost i: nat, ghost w: World)
      requires Mirrors(w) && i < |made| && made[i] == m && MuxInv(m.State())
      modifies m`phase
      ensures Mirrors(At(w, i, CloseDone)) && MuxInv(m.State()) && m.phase != Running
    {
      MuxStepKeepsInv(m.State(), CloseDone);
      if m.phase == Running {
        SetPhase(m, DoneClosed, i, w);
      } else {
        assert w.muxes[i := w.muxes[i]] == w.muxes;
      }
    }

    /** The second. */
    method RemoveOf(m: Connection, ghost i: nat, ghost w: World)
      requires Mirrors(w) && i < |made| && made[i] == m && MuxInv(m.State()) && m.phase != Running
      modifies this`multiplexers, m`phase
      ensures Mirrors(RemovedWorld(w, i)) && MuxInv(m.State()) && (m.phase == Removed || m.phase == Drained)
    {
      if m.phase == DoneClosed {
        MuxStepKeepsInv(m.State(), MarkRemoved);
        RemovedWorldIs(w, i);
        RemoveBackend(m.host, m.sessionId, w);
        SetPhase(m, Removed, i, w.(registry := Deregister(w, m.host, m.sessionId)));
      }
    }

    /** The third, under the connection's lock. */
    method DrainOf(m: Connection, taken: bool, ghost i: nat, ghost w: World)
      requires Mirrors(w) && i < |made| && made[i] == m && MuxInv(m.State()) &&
        (m.phase == Removed || m.phase == Drained)
      modifies m
      ensures Mirrors(DrainedWorld(w, i, taken)) && MuxInv(m.State()) && m.phase == Drained
    {
      DrainsLikeThis(m.State(), taken);
      if m.phase == Removed {
        m.DrainClients(taken);
      }
    }

    /**
     * `shutdown` run through: close `done`, deregister, drain, waiting for a delivery under way. A
     * call that finds another one under way waits until that one has taken the remaining steps.
     */
    method Shutdown(m: Connection, taken: bool, ghost i: nat, ghost w: World)
      requires Mirrors(w) && i < |made| && made[i] == m && MuxInv(m.State())
      modifies this`multiplexers, m
      ensures Mirrors(ShutWorld(w, i, taken)) && MuxInv(m.State()) && m.phase == Drained
    {
      CloseDoneOf(m, i, w);
      RemoveOf(m, i, At(w, i, CloseDone));
      DrainOf(m, taken, i, RemovedWorld(At(w, i, CloseDone), i));
    }
  }
}
