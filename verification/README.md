# A verified model of the websocket proxy

The proxy lets many browser and API clients share one websocket to each backend host. This project
models the stateful parts of it in Dafny and proves what they keep in every interleaving.

| module | models |
|---|---|
| `Envelope`, `RandomId` | the `key\|\|type\|\|body` envelope and the version 4 UUIDs used as keys |
| `Channels`, `Multiplexer`, `BackendRegistry` | one shared backend connection, and the registry of all of them with requests that span several critical sections |
| `BackendEndpoint`, `Chatter` | the backend's dispatch loop, and both ends joined by the frames in flight |
| `ReplayBuffer`, `Session`, `SessionStreams`, `SessionRuns`, `SessionOutcomes`, `SessionManager`, `SessionObjects` | persistent console sessions: replay, clients, control, revocation, and the manager with its limit and cleanup |
| `TokenCache` | the bounded TTL cache of service tokens |
| `HostVersion`, `Json`, `Delegation`, `Denial` | version acceptance, stream tickets, and denials that must leave a receipt |
| `HttpReader` | backend responses read back as a byte stream |

## How it is modelled

A concurrent component is a value with a total function `Apply(state, action)`: one action for each
critical section or channel operation, a disabled action changing nothing. `Run` folds it over an
arbitrary sequence of actions, and the theorems quantify over all such sequences. A Go channel is
the log of what was done to it, so that a send after a close, or a second close, would show. Beside
the transition systems stand classes whose fields are updated in place as in the source; each
method, run through, is proved to make the steps of the transition functions. The two managers do so
for a ghost state of their transition system that mirrors them.

Conventions:

- A `char` is one byte of a Go string. Times are integers. Bit masks on bytes are written with `%`.
- Message keys and backend session ids are fresh: two draws of the random source never collide. A
  step that would reuse one does nothing, and `Connection.InitializeClient` requires a new key.
- The order in which a Go map yields its keys is arbitrary everywhere. Timeouts, deadlines and the
  branch a `select` takes are parameters of a step.
- Signatures, SHA-256, the Engine's answers, URL parsing and JSON decoding are parameters.
- The session status `error`, which the source tests for and never assigns, is left out.
- A session under creation is reachable only through the watch on its grant, because creation holds
  the manager's lock until the session is published.
- `enqueue` of a console client is two steps, the test of `done` and the send; a broadcast holds the
  session's lock until all its sends are made.

## What the code does not promise

- The comment on `getHandler` promises the best match. The code returns whichever match the map
  yields first; `BestMatchExactly` says when that is a best match, `HandlerSettledExactly` when it is
  settled.
- The cache marks "no entry seen" with the empty key, so an empty key can make it evict the wrong
  entry; `ScanExactly` says exactly when. The keys in use are digests and never empty.
- Creation writes the status without the session's lock (line 430). `StatusForwardExactly`,
  `RunForwardExactly` and `EndedIffEndTime` single out that write as the only step that takes back the
  status, and that can leave `endedAt` set under a connected status; `LateWriteIsRevoked`,
  `ForwardExactlyWithoutGrant` and `EndedExactlyWithoutGrant` say which sessions it can hit.
- Only Connect is bound to the connection that issued its key. `LookupAtHomeExactly` says when Body,
  Close and release reach it.
- A closed console client may still be queued a frame: `LateFrameExample` is a run in which it is,
  `ClosedExactly` says when it can be, and `ClosedForGood` bounds what it can be.
- A backend that meets a malformed frame returns without closing its responders (`TableStaysOpen`);
  a read error closes them, except those stranded by a reused key (`RespondersNeverMisused`).
- A project or service ticket whose entries share a host gets one receipt for that host, from its
  first entry.

## Model

| member | source | states |
|---|---|---|
| `BackendRegistry.ChannelsNeverMisused` | proxy/multiplexer.go:29-125 | In every interleaving of registration, delivery, close, release, replacement and shutdown, no client channel is closed twice or sent on after closing, it carries only messages addressed to its key, and the open channels are exactly those in `frontendChans`. |
| `BackendRegistry.ClientsReceive` | proxy/multiplexer.go:115-125 | In every run a client's channel carries exactly the messages that were received for its key while it was registered and the reader idle, and then taken: unaltered, each once, in order. |
| `BackendRegistry.BackendsAreSent` | proxy/multiplexer.go:43-75 | In every run what was handed to a connection's socket and what waits for it are exactly the frames that were submitted and fitted, in order: a Connect with its URL, a Body with its body, a Close. |
| `BackendRegistry.TasksAsRequested` | proxy/backend_proxy_manager.go:43-84 | In every run what a request carries out, key, URL and body, is what was asked for when it looked its connection up. |
| `BackendRegistry.InitGateExactly` | proxy/backend_proxy_manager.go:104-112 | A client is initialised exactly when its host is registered and, for a Key client, the connection is capable. |
| `BackendRegistry.InitRegisters` | proxy/multiplexer.go:29-41 | An initialised client is registered under its fresh key, with an empty channel, exactly while the connection is running. |
| `BackendRegistry.ConnectGoesThrough` | proxy/backend_proxy_manager.go:43-54 | A connect whose key is registered on the host's connection puts exactly its frame at the end of the queue, unless the capability is missing or the frame does not fit. |
| `BackendRegistry.CloseGoesThrough` | proxy/multiplexer.go:77-90 | A close or release run through takes the key out and closes its channel; the Close frame is queued exactly if it was to be and fitted. |
| `BackendRegistry.ComplaintBecomesClose` | proxy/multiplexer.go:127-135 | A complaint becomes a close, with a frame, on whatever connection the host has. |
| `BackendRegistry.DrainedForever` | proxy/multiplexer.go:169-182 | Once a shutdown has drained, in every later state the table is empty and every channel ever handed out is closed, also when a registration races between `close(done)` and the drain. |
| `BackendRegistry.RegistryIsNewestUnremoved` | proxy/backend_proxy_manager.go:123-165 | In every run a host maps to its most recently added connection exactly as long as that connection has not taken its own remove step, and otherwise to nothing. |
| `BackendRegistry.RemovedNeverFoundAgain` | proxy/backend_proxy_manager.go:153-165 | A connection past its remove step is not registered in any later state. |
| `BackendRegistry.ConnectFramesAtHome` | proxy/backend_proxy_manager.go:43-54 | In every run, with replacement between initialise and connect, a Connect frame stands only on the one connection that issued its key, a Key ticket URL only on a capable one, and the backend parses exactly the frame that was queued. |
| `BackendRegistry.FramesInOrder` | proxy/multiplexer.go:139-150 | What was handed to the socket or waits on a connection only ever grows at its end: queued frames are handed over in order, none skipped. |
| `BackendRegistry.LookupAtHomeExactly` | proxy/backend_proxy_manager.go:56-84 | A Body, Close or release looked up by host reaches the connection that issued its key if and only if that connection is still the host's newest and is not removed. |
| `BackendRegistry.IssuedFramesArrive` | proxy/multiplexer.go:43-75 | In every run every frame queued on any connection under a key that some connection issued is parsed by the backend to exactly that frame. |
| `BackendRegistry.BodyMayGoAstray` | proxy/multiplexer.go:53-55 | A concrete run: after a replacement a Body for an old key is queued on a connection that never issued that key. |
| `BackendRegistry.RunKeepsInv` | proxy/multiplexer.go:29-182 | The joint invariant (tables against channels, disjoint keys and sessions, registry, traffic and tasks) is kept by every run. |
| `BackendRegistry.StepKeepsMuxes` | proxy/multiplexer.go:29-125 | Every step of the whole system keeps the channel invariant of every connection. |
| `BackendRegistry.StepKeepsSeparate` | common/random_id.go:11-31 | No step makes two connections share a session id or a key, given fresh random ids. |
| `BackendRegistry.StepKeepsRegistry` | proxy/backend_proxy_manager.go:142-145 | Every step keeps the registry equal to the newest unremoved connections. |
| `BackendRegistry.RemoveStep` | proxy/backend_proxy_manager.go:153-165 | The remove step of a connection takes out its own entry and no other. |
| `BackendRegistry.StepKeepsTraffic` | proxy/backend_proxy_manager.go:43-84 | Every step keeps each queued frame and each half-finished request justified. |
| `BackendRegistry.BackendProxyManager.Register` | proxy/backend_proxy_manager.go:142-145 | The locked part of a registration: the host leads to the new running connection, the superseded one is handed back; it is the registration step of the transition system. |
| `BackendRegistry.BackendProxyManager.AddBackend` | proxy/backend_proxy_manager.go:123-151 | Registers a new connection and shuts the superseded one down: that one ends drained, and the host still leads to the new one. |
| `BackendRegistry.TakeoverStays` | proxy/backend_proxy_manager.go:153-165 | A shutdown leaves the entry of a host that another session has taken over. |
| `BackendRegistry.BackendProxyManager.RemoveBackend` | proxy/backend_proxy_manager.go:153-165 | Removes the host only for the registered session, as the transition system does. |
| `BackendRegistry.BackendProxyManager.Shutdown` | proxy/multiplexer.go:169-182 | Run through from any phase: the remaining shutdown steps of the transition system in order, waiting for a delivery under way; the connection ends drained. |
| `BackendRegistry.ShutdownIsARun` | proxy/multiplexer.go:169-182 | A shutdown run through is a run of the transition system, so the theorems on all runs apply to it. |
| `Multiplexer.MuxStepKeepsInv` | proxy/multiplexer.go:29-125 | Every atomic step keeps: open channels are exactly the registered ones, logs are safe, and a reader in the middle of a delivery holds an open channel. |
| `Multiplexer.MuxStepMonotone` | proxy/multiplexer.go:61-75 | No step undoes a phase, forgets a key, adds a channel after the drain, or skips or reorders a queued frame on its way to the socket. |
| `Multiplexer.MuxStepCarries` | proxy/multiplexer.go:115-125 | A delivery adds the message held to the channel it is held for; no other step adds or loses one on any channel. |
| `Multiplexer.MuxStepReader` | proxy/multiplexer.go:115-135 | What the reader holds and complains about, from the messages received. |
| `Multiplexer.WriterHandsOver` | proxy/multiplexer.go:145-150 | The writer hands over the frame that has waited longest. |
| `Multiplexer.CloseKeyExactly` | proxy/multiplexer.go:83-88 | Closing a key takes it and only it out of the table and closes its channel and no other. |
| `Multiplexer.DrainOneMore` | proxy/multiplexer.go:177-180 | Draining may begin with any key, so the result of the drain loop does not depend on the map order. |
| `Multiplexer.Connection.AwaitReader` | proxy/multiplexer.go:115-125 | Waiting for the lock: a delivery under way ends, its message taken or given up; the invariant is kept. |
| `Multiplexer.Connection.InitializeClient` | proxy/multiplexer.go:29-41 | Waits for a delivery under way, then succeeds exactly while `done` is open; the new channel is registered, empty and open. |
| `Multiplexer.Connection.CloseConnection` | proxy/multiplexer.go:83-88 | Waits for a delivery under way, then closes and deletes the key's channel if there is one; keeps the invariant. |
| `Multiplexer.Connection.Route` | proxy/multiplexer.go:107-136 | One backend message: delivered as it is on its key's channel and no other, or a close is asked for exactly when the client timed out or a message other than Close has no client. |
| `Multiplexer.Connection.Send` | proxy/multiplexer.go:61-75 | Enqueues exactly when the select takes that case, the frame is within the wire limit and the buffer has room. |
| `Multiplexer.Connection.DrainClients` | proxy/multiplexer.go:175-180 | Waits for a delivery under way; the drain loop in any map order then closes every registered channel once and empties the table. |
| `Chatter.ChatterIsPaidFor` | proxy/multiplexer.go:115-136 | From the moment the proxy has no channel, the backend no responder and no Connect is in flight for a key, whichever connection issued it, in every run, while its frontend and its handler may go on sending: frames and complaints about it are handled at most as often as the weight in flight at that moment plus the weight of what those two send. |
| `Chatter.ChatterDiesOut` | backend/backend.go:169-174 | When neither a frontend nor a handler has the key any more, the bound is the weight in flight alone. |
| `Chatter.ForgottenStep` | backend/backend.go:129-145 | Every step leaves a forgotten key forgotten, adds no more than its own frontend or handler sends, and takes at least 1 off when it handles a frame or complaint about it. |
| `Chatter.ForgottenBackendReads` | backend/backend.go:129-145 | Reading anything about the key at the backend lowers the weight by exactly 1: a Body is answered by one Close, a Close by nothing. |
| `Chatter.ForgottenProxyReads` | proxy/multiplexer.go:115-136 | Reading anything about the key at the proxy lowers the weight by exactly 1: anything but a Close becomes a complaint. |
| `Chatter.ForgottenReaderComplains` | proxy/multiplexer.go:127-135 | A complaint leaves nothing but the one Close to the backend, and that exactly if the host is here and the frame fits. |
| `BackendEndpoint.RespondersNeverMisused` | backend/backend.go:94-147 | For every message sequence no responder channel is closed twice or written after closing, also when a read error closes the rest; and the read error leaves every channel closed if and only if no Connect that reached a handler named a key live at that moment. |
| `BackendEndpoint.TableStaysOpen` | backend/backend.go:104-109 | At a malformed frame every channel in the table stays open: all channels are closed if and only if the table is empty and no live key was connected again. |
| `BackendEndpoint.ReuseLeavesStranded` | backend/backend.go:119-121 | A channel whose key is connected again is open and out of the table for good. |
| `BackendEndpoint.ReusedKeyStrandsAChannel` | backend/backend.go:119-121 | Connecting a live key again strands its first channel: even a read error leaves it open. |
| `BackendEndpoint.StreamsDoNotInterfere` | backend/backend.go:94-147 | The channel of a key, what it carried and the answers about it are the same as if that key's messages had come alone. |
| `BackendEndpoint.HandlersAreFed` | backend/backend.go:110-146 | For every message sequence the latest channel of a key carries exactly the bodies since its last Connect to a handler, in order, then its close; and the proxy is answered by one Close for each Connect without handler and each Body without live channel. |
| `BackendEndpoint.PrefixMatchExactly` | backend/backend.go:159-165 | A key matches a path, a last slash aside, exactly if its parts are the path's first parts. |
| `BackendEndpoint.TrimSlashExactly` | backend/backend.go:159-161 | One slash at the end is taken off, and nothing else. |
| `BackendEndpoint.DispatchKeepsTable` | backend/backend.go:110-146 | One dispatch keeps the table naming open channels of its own keys. |
| `BackendEndpoint.GetHandler` | backend/backend.go:150-167 | The search in map order returns a handler registered for the path or a prefix of it, and none exactly when there is no such handler. |
| `BackendEndpoint.EveryCandidateCanWin` | backend/backend.go:159-165 | Every matching handler is the answer under some complete map order. |
| `BackendEndpoint.BestMatchExactly` | backend/backend.go:150-167 | The answer is a best match (the exact key, else a matching key of maximal trimmed length) under every map order if and only if every matching handler is the handler of a best key. |
| `BackendEndpoint.ExactMatchIsBest` | backend/backend.go:155-157 | A registered path is answered by its own handler, which is a best match. |
| `BackendEndpoint.HandlerSettledExactly` | backend/backend.go:159-166 | The answer is the same for all map orders if and only if the path has at most one candidate. |
| `BackendEndpoint.BestMatchNotPromised` | backend/backend.go:150-153 | A concrete table where the shorter of two prefixes may win, against the comment. |
| `BackendEndpoint.ProxyConnection.Handle` | backend/backend.go:110-146 | One turn of the loop in place equals the dispatch function. |
| `BackendEndpoint.ProxyConnection.Serve` | backend/backend.go:94-147 | Serves every frame in order; a malformed one ends the loop with the table's channels open, the read error ends it with them closed, and each exit leaves all channels closed exactly under its condition. |
| `BackendEndpoint.ProxyConnection.CloseResponders` | backend/backend.go:98-100 | The loop over the table in any map order closes each channel it names once. |
| `SessionRuns.ReplayIsLongestSuffix` | proxy/persistent_session_handler.go:572-592 | In every run output is numbered 1, 2, 3, ...; `replayBytes` is the exact sum and within the limit; until revocation the replay is the longest fitting suffix of all storable output, increasing, with the newest storable frame in it. |
| `SessionRuns.ClientSeesGaplessOutput` | proxy/persistent_session_handler.go:603-636 | In every run every connection ever attached was queued hello, the replay as of its attach, then live output numbered consecutively from the attach plus one; while attached and open nothing is missing but the output just being sent. |
| `SessionRuns.ClosedForGood` | proxy/persistent_session_handler.go:804-824 | A closed connection stays closed, keeps what was queued, and is queued from then on only frames that had already passed the test of `done`: at most the one broadcast frame and the one answer under way at the close. |
| `SessionRuns.AtMostTwoAfterClose` | proxy/persistent_session_handler.go:812-824 | So at most two more frames are queued, and none when nothing was under way. |
| `SessionRuns.ClosedExactly` | proxy/persistent_session_handler.go:812-824 | Nothing more is ever queued for a closed connection if and only if neither a broadcast frame nor an answer was under way at its close. |
| `SessionRuns.LateFrameExample` | proxy/persistent_session_handler.go:603-636 | A concrete run: a client closed between the test and the send of its own announcement is queued that frame afterwards. |
| `SessionRuns.ControlAndCloseInvariant` | proxy/persistent_session_handler.go:603-677 | In every run a controller is an attached client of a terminal session that has not ended, a logs session has none, and the backend is asked to close at most once. |
| `SessionRuns.OccupiedTerminalIsControlled` | proxy/persistent_session_handler.go:638-653 | In every run a terminal that has not ended and has clients has one of them in control. |
| `SessionRuns.StepKeepsControlled` | proxy/persistent_session_handler.go:616-649 | No step takes the last controller from an occupied live terminal. |
| `SessionRuns.LateWriteIsRevoked` | proxy/persistent_session_handler.go:425-431 | In every run creation's unlocked write lands late only on a revoked session of a grant, without clients or controller. |
| `SessionRuns.ForwardExactlyWithoutGrant` | proxy/persistent_session_handler.go:425-431 | The status moves forward in all runs of a session if and only if it is not bound to a grant. |
| `SessionRuns.ClientsKnowController` | proxy/persistent_session_handler.go:783-802 | In every run every attached open client was last told, or is just being told, of the controller the session has. |
| `SessionRuns.StatusForwardExactly` | proxy/persistent_session_handler.go:425-431 | A step moves the status forward or keeps it if and only if it is not creation's unlocked write on a session already closing or ended. |
| `SessionRuns.RunForwardExactly` | proxy/persistent_session_handler.go:722-767 | A whole run never takes the status back if and only if that write never lands late. |
| `SessionRuns.StepKeepsEnd` | proxy/persistent_session_handler.go:746-755 | Ended exactly when `endedAt` is set is kept by a step if and only if it is not that write on an ended session. |
| `SessionRuns.EndedIffEndTime` | proxy/persistent_session_handler.go:746-755 | All along a run the session has ended exactly when `endedAt` is set, if and only if creation's late write never lands on an ended session. |
| `SessionRuns.EndedExactlyWithoutGrant` | proxy/persistent_session_handler.go:746-755 | This holds in all runs of a session if and only if it is not bound to a grant. |
| `SessionRuns.RaceExample` | proxy/persistent_session_handler.go:523-535 | Two concrete runs in which the watch revokes the grant during creation and the closing or ended session is then called connected. |
| `SessionRuns.RevocationAbsorbs` | proxy/persistent_session_handler.go:523-535 | For any steps before, during and after a revocation: replay empty, no client, no controller, no output recorded since the mark, secrets admitted only by checks that read the flag before it, commands forwarded only if checked before the clients were removed. |
| `SessionRuns.AdmittedOnlyBeforeExpiry` | proxy/persistent_session_handler.go:492-507 | In every run a grant-bound session admits its secret only through a live check that began and ended before the ticket's expiry. |
| `SessionRuns.SentWasChecked` | proxy/persistent_session_handler.go:679-712 | In every run every command sent went through a check, at some step of the run, at which its sender was the attached controller of the connected terminal and the command acceptable. |
| `SessionRuns.CommandsWellFormed` | proxy/persistent_session_handler.go:679-712 | In every run the backend is sent only acceptable input and sizes, and nothing by a logs session. |
| `SessionRuns.RemovedExactlyAfterRetention` | proxy/persistent_session_handler.go:537-544 | On a monotone clock an ended session may be removed if and only if the step that ended it for good lies at least `endedRetention` back, any other if and only if its creation and every step that counted as activity lie at least `activeRetention` back. |
| `SessionRuns.EndTimeIsReal` | proxy/persistent_session_handler.go:746-755 | The end time of an ended session is that of the step that took it from not ended to ended and after which it stayed so. |
| `SessionRuns.RunKeepsInv` | proxy/persistent_session_handler.go:572-781 | Replay, room, control and stream invariants are kept by every run. |
| `SessionRuns.RecordKeepsReplay` | proxy/persistent_session_handler.go:581-592 | Recording keeps the replay invariant and keeps the new frame if it is storable. |
| `SessionStreams.NewcomerOk` | proxy/persistent_session_handler.go:614-633 | A newcomer is greeted with the replay as it stands and owes no output yet. |
| `SessionStreams.OutputKeepsClients` | proxy/persistent_session_handler.go:593-599 | A broadcast output extends each current stream by exactly that entry or closes the connection. |
| `SessionStreams.InsertQuiet` | proxy/persistent_session_handler.go:804-824 | An answer that slips in before a broadcast frame under way changes neither the greeting nor the output of a stream. |
| `SessionOutcomes.OutputIsRecorded` | proxy/persistent_session_handler.go:572-592 | In every run the output recorded is exactly the output that arrived while the session was published, its lock free, not revoked, and connecting or connected; whoever was attached, unaltered, in order. |
| `SessionOutcomes.OutputIsActivity` | proxy/persistent_session_handler.go:575-580 | Output connects the session and counts as activity exactly then, and does nothing otherwise. |
| `SessionOutcomes.BytesExactly` | proxy/persistent_session_handler.go:583-590 | The byte count of a buffer is its text and 32 for each entry. |
| `SessionOutcomes.AttachOutcome` | proxy/persistent_session_handler.go:610-634 | A new connection is attached, open, queued hello, the present replay and the announcement of the controller, which is the newcomer if a live terminal had none; an older connection of the tab is closed. |
| `SessionOutcomes.TurnedAway` | proxy/persistent_session_handler.go:605-609 | After a revocation a newcomer is closed and nobody attached. |
| `SessionOutcomes.DetachOutcome` | proxy/persistent_session_handler.go:640-649 | Exactly the leaving connection's entry goes; control moves only if its tab had it, to a tab that is there or to nobody. |
| `SessionOutcomes.ClaimOutcome` | proxy/persistent_session_handler.go:670-675 | A claim by an attached client of a live terminal takes control from whoever had it; no other claim does anything. |
| `SessionOutcomes.ClosesOnlyWithReason` | proxy/persistent_session_handler.go:797-801 | A connection closes only if somebody closes it, its tab attaches anew, or its queue of 256 is full when a frame is sent. |
| `SessionOutcomes.OfferArrives` | proxy/persistent_session_handler.go:812-824 | A frame broadcast to an open client with room is queued and leaves it open. |
| `SessionOutcomes.AnswerOutcome` | proxy/persistent_session_handler.go:804-824 | A pong or error for an open client with room is queued. |
| `SessionOutcomes.WriteOutcome` | proxy/persistent_session_handler.go:852-857 | A client's writer hands over the frame that has waited longest. |
| `SessionOutcomes.CloseOutcome` | proxy/persistent_session_handler.go:869-879 | Closing a connection closes it and changes nothing else about it. |
| `SessionOutcomes.TerminateOutcome` | proxy/persistent_session_handler.go:722-739 | The first termination of a session that has not ended makes it closing and asks the backend once; a later one does nothing. |
| `SessionOutcomes.EndOutcome` | proxy/persistent_session_handler.go:746-761 | A session that has not ended ends at that time, without controller. |
| `SessionOutcomes.PublishOutcome` | proxy/persistent_session_handler.go:430-431 | Creation ends with a connected session. |
| `SessionOutcomes.CommandOutcome` | proxy/persistent_session_handler.go:679-712 | Check and send: a command reaches the backend, as it is, if and only if its sender is the attached controller of the connected terminal and it is input of 1 to 98304 base64 bytes or a size of 2 to 1000. |
| `SessionOutcomes.CheckedMeansThrough` | proxy/persistent_session_handler.go:679-712 | The check that every command sent goes back to found just those conditions. |
| `SessionOutcomes.AdmissionOutcome` | proxy/persistent_session_handler.go:492-507 | Compare and check: admitted if and only if the secret is right, the session not revoked and the live check passes. |
| `SessionOutcomes.AdmissionWasEarned` | proxy/persistent_session_handler.go:492-507 | In every run every admission had the right secret given at some step, before a revocation, and a live check that passed. |
| `ReplayBuffer.AppendKeepsLongestFit` | proxy/persistent_session_handler.go:581-592 | Append and evict keep the longest fitting suffix and the exact byte count, and never evict the frame just stored. |
| `ReplayBuffer.EvictFindsLongestFit` | proxy/persistent_session_handler.go:587-591 | The eviction loop stops at the longest fitting suffix. |
| `ReplayBuffer.NewestIsKept` | proxy/persistent_session_handler.go:584-591 | The newest storable frame is always in the buffer. |
| `ReplayBuffer.ReplayIncreasing` | proxy/persistent_session_handler.go:581-591 | Sequence numbers in the replay strictly increase. |
| `SessionObjects.PersistentSession.constructor` | proxy/persistent_session_handler.go:406-419 | The state of a session before the backend is connected. |
| `SessionObjects.PersistentSession.FinishCreation` | proxy/persistent_session_handler.go:430-431 | The write that ends creation. |
| `SessionObjects.PersistentSession.BroadcastLocked` | proxy/persistent_session_handler.go:792-802 | In any map order every attached client is offered the frame once, and closed if it cannot take it. |
| `SessionObjects.PersistentSession.EvictLoop` | proxy/persistent_session_handler.go:587-591 | The loop in place equals the eviction function. |
| `SessionObjects.PersistentSession.RecordOutput` | proxy/persistent_session_handler.go:579-592 | Numbers, stores and evicts as the recording function does. |
| `SessionObjects.PersistentSession.AppendOutput` | proxy/persistent_session_handler.go:572-601 | The whole new state of one output, nothing when ended, closing or revoked. |
| `SessionObjects.PersistentSession.AddClient` | proxy/persistent_session_handler.go:603-636 | The whole new state of an attach: replacement closed, greeting, control, announcement; after revocation only a closed connection. |
| `SessionObjects.PersistentSession.Detach` | proxy/persistent_session_handler.go:639-651 | The locked part of a removal, control passing to a tab that is still there. |
| `SessionObjects.PersistentSession.RemoveClient` | proxy/persistent_session_handler.go:638-653 | The locked part followed by closing the connection. |
| `SessionObjects.PersistentSession.ClaimControl` | proxy/persistent_session_handler.go:668-677 | Control moves to an attached client of a live terminal and is announced; otherwise nothing changes. |
| `SessionObjects.PersistentSession.MarkEnded` | proxy/persistent_session_handler.go:746-767 | The whole new state; a second call changes nothing. |
| `SessionObjects.PersistentSession.BeginTerminate` | proxy/persistent_session_handler.go:722-737 | The once-guarded announcement of closing. |
| `SessionObjects.PersistentSession.Terminate` | proxy/persistent_session_handler.go:722-744 | Announce, ask the backend once, end at once when it cannot be asked; with another call in between, what that one does. |
| `SessionObjects.PersistentSession.CloseClients` | proxy/persistent_session_handler.go:769-781 | All clients detached and closed in any order, no controller. |
| `SessionObjects.PersistentSession.RevokeDelegation` | proxy/persistent_session_handler.go:523-535 | The whole state after mark, termination and detachment. |
| `SessionObjects.PersistentSession.MatchesSecretHash` | proxy/persistent_session_handler.go:492-507 | True exactly for the right secret of an unrevoked session whose live check passes; a failed check leaves the revoked state, every other answer leaves the state alone. |
| `SessionObjects.PersistentSession.Dismiss` | proxy/persistent_session_handler.go:484-489 | An expired session: terminated if it was active, clients closed. |
| `SessionObjects.RevokedIsARun` | proxy/persistent_session_handler.go:523-535 | A revocation run through is a mark, a run, a detachment and a run of the transition system, so the theorems on all runs apply to it. |
| `SessionObjects.TerminatedIsARun` | proxy/persistent_session_handler.go:722-744 | The same for termination, of a session that creation has published or its watch revoked. |
| `SessionObjects.ClearedIsARun` | proxy/persistent_session_handler.go:769-781 | The same for closing all clients. |
| `SessionObjects.RemovedIsARun` | proxy/persistent_session_handler.go:638-653 | The same for removing a client of a published session. |
| `SessionObjects.DismissAll` | proxy/persistent_session_handler.go:484-489 | Every session in the list ends up dismissed, one not affecting another. |
| `SessionObjects.PersistentSessionManager.ActiveSessionCount` | proxy/persistent_session_handler.go:437-448 | Counts exactly the sessions that have not ended. |
| `SessionObjects.PersistentSessionManager.CreateNew` | proxy/persistent_session_handler.go:396-434 | Refused exactly at the limit; a failure leaves the map as it was; success adds one fresh connected session. |
| `SessionObjects.PersistentSessionManager.Create` | proxy/persistent_session_handler.go:386-435 | An existing id is handed back unchanged exactly when secret, kind, revocation and live check agree, and revoked exactly when its live check fails; a free id is created as by the two creation steps of the transition system. |
| `SessionObjects.PersistentSessionManager.Sweep` | proxy/persistent_session_handler.go:473-482 | Keeps exactly the unexpired sessions and hands on each expired one once, with whether it was active. |
| `SessionObjects.PersistentSessionManager.Cleanup` | proxy/persistent_session_handler.go:466-490 | The cleanup step of the transition system; the expired sessions gone from the map are terminated if active, and without clients. |
| `SessionManager.ActiveWithinLimit` | proxy/persistent_session_handler.go:386-448 | In every run, session steps and the creation race included, at most `maxSessions` sessions have not ended. |
| `SessionManager.FailedCreateRestoresMap` | proxy/persistent_session_handler.go:423-429 | A creation that fails leaves the same ids, and every other session as its own steps left it. |
| `SessionManager.EverySessionIsARun` | proxy/persistent_session_handler.go:386-435 | In every run of the manager every session in its map is a run of the session's own transition system from its creation. |
| `SessionManager.StaysUntilExpired` | proxy/persistent_session_handler.go:466-482 | A session whose creation is over stays in the map under its own configuration, whatever is created meanwhile, until a cleanup finds it expired. |
| `TokenCache.CacheRefinesTtlMap` | proxy/token.go:53-89 | After any run on a monotone clock and any map orders: the bound holds, a hit returns the token of the last Set of that key, and that has not expired, and with non-empty keys a live key is missing only while the cache is full of other live entries that expire no earlier. |
| `TokenCache.ShadowIsLastSet` | proxy/token.go:73-73 | The reference map holds the token of the last Set that took effect, with its time plus the lifetime. |
| `TokenCache.ScanExactly` | proxy/token.go:58-69 | The scan picks an earliest entry under every map order if and only if the empty key is absent, alone, or not strictly the earliest. |
| `TokenCache.ScanPurges` | proxy/token.go:60-64 | The scan leaves exactly the live entries. |
| `TokenCache.HarmlessPickIsEarliest` | proxy/token.go:65-72 | When the empty key is harmless the evicted entry is an earliest one. |
| `TokenCache.SetBounded` | proxy/token.go:70-73 | One `set` stays within the bound, changes no other kept entry and enters the new one. |
| `TokenCache.SetKeepsComplete` | proxy/token.go:53-74 | `set` keeps: every live key that is missing was crowded out. |
| `TokenCache.EmptyKeyBreaksEviction` | proxy/token.go:65-72 | For every capacity from 2 on, a run with an empty key in which a later-expiring entry is lost instead. |
| `TokenCache.Cache.Set` | proxy/token.go:53-74 | The loop over the map in some order equals the set function under that order. |
| `TokenCache.Cache.Get` | proxy/token.go:76-89 | A hit exactly for a key whose entry has not expired, and then that entry's token; an expired entry is dropped, nothing else changes. |
| `Envelope.RoundTripExactly` | common/common.go:24-53 | Parsing a formatted message gives it back if and only if the key has 1 to 256 bytes, holds no separator and does not end in a bar, the type is valid and the whole fits; the body is arbitrary. |
| `Envelope.FormatExactly` | common/common.go:10-26 | The layout: key, type and body with two bars between them. |
| `Envelope.ErrorsExactly` | common/common.go:37-51 | Which complaint a refused frame draws. |
| `Envelope.FormatInvertsParse` | common/common.go:36-53 | Formatting any accepted parse gives back the raw bytes, and its key is one that survives the wire. |
| `Envelope.ParseInvertsFormat` | common/common.go:24-53 | Parsing inverts formatting on that domain. |
| `Envelope.FirstSeparator` | common/common.go:40-40 | The leftmost separator, or the absence of any. |
| `Envelope.TrailingBarIsLost` | common/common.go:40-51 | A key that ends in a bar is not read back. |
| `RandomId.UuidIsVersion4` | common/random_id.go:17-30 | Every generated id has the layout of section 4.4 of RFC 4122. |
| `RandomId.UuidIsCleanKey` | common/random_id.go:17-30 | Every generated id survives the envelope as a key. |
| `RandomId.UuidInjective` | common/random_id.go:17-30 | Two ids agree if and only if all 122 random bits agree. |
| `RandomId.StampKeeps` | common/random_id.go:17-18 | Stamping sets version and variant and keeps all other bits. |
| `RandomId.HexDecodes` | common/random_id.go:21-29 | Read back two digits at a time, high digit first, the text gives the bytes. |
| `RandomId.EncodeInto` | common/random_id.go:21-29 | Writes the hexadecimal digits behind what is already filled in. |
| `RandomId.FillUuid` | common/random_id.go:20-30 | The buffer filled group by group. |
| `RandomId.NewRandomUUID` | common/random_id.go:11-31 | Masks the bytes in place and spells them out. |
| `HostVersion.CompatibleExactly` | proxy/key_backend_capability.go:144-153 | A version is accepted if and only if it is `0.38.` and the canonical decimal of some n with 5 <= n < 2^64, for one n only. |
| `HostVersion.FirstCompatible` | proxy/key_backend_capability.go:151-152 | Patch 4 is refused, patches 5 and 12 are accepted. |
| `HostVersion.ParseInvertsFormat` | proxy/key_backend_capability.go:151-152 | Decimal parsing inverts printing below 2^64 and rejects everything above. |
| `HostVersion.FormatInjective` | proxy/key_backend_capability.go:152-152 | No two numbers print alike. |
| `HostVersion.NonCanonicalRefused` | proxy/key_backend_capability.go:146-153 | A leading zero or a prerelease suffix is refused, whatever the digits. |
| `Delegation.ParseInvertsEncode` | delegation/delegation.go:55-89 | Parsing the claims issued for a grant gives it back exactly if it is well formed, and is denied otherwise. |
| `Delegation.ParseSound` | delegation/delegation.go:54-89 | Legacy exactly without the claim; a legacy field beside the claim denies; a grant is well formed and carries the signed expiry. |
| `Delegation.ParseExactly` | delegation/delegation.go:54-89 | A ticket yields a grant if and only if its claim says so field by field, version 1, the signed expiry is the same, no legacy field stands beside the claim, and the grant is well formed. |
| `Json.IntegerExactly` | delegation/delegation.go:36-52 | A float reads as an integer exactly when it is that integer within 64 bits; values that are no numbers never do. |
| `Delegation.AnswerBindsOneTicket` | delegation/delegation.go:137-178 | Two tickets confirmed by one Engine answer agree in every bound field and in digest. |
| `Delegation.CheckExactly` | delegation/delegation.go:137-178 | With the answer an Engine gives for a ticket, a check passes if and only if it is configured, the token has 1 to 16384 bytes and both clock readings lie before the expiry; without an answer never. |
| `Delegation.WrongFieldDenies` | delegation/delegation.go:169-176 | Any one of the eight fields of that answer missing or reading differently, `allowed` among them, makes the check fail. |
| `Delegation.JoinInvertsSplit` | delegation/delegation.go:92-92 | Joining the split parts gives back the path. |
| `Delegation.PartsHaveNoSlash` | delegation/delegation.go:92-92 | No part holds a slash, which makes the split unique. |
| `Delegation.TrimExactly` | delegation/delegation.go:92-92 | Trimming takes all slashes off both ends and nothing else. |
| `Delegation.AllowsExactly` | delegation/delegation.go:91-118 | A path is allowed if and only if its parts are a version followed by parts that the grant's operation and payload open. |
| `Delegation.PathBindsOperation` | delegation/delegation.go:91-118 | A path serves one operation only, and exec and logs paths are spelled out. |
| `Delegation.AggregatePath` | delegation/delegation.go:110-115 | A project or service ticket opens only its aggregate's path. |
| `Delegation.Watch` | delegation/delegation.go:180-196 | The watch stops at the first event that is not a passed check and denies at most once, never on cancellation. |
| `Denial.RouteDenialAllOrNothing` | proxy/key_backend_capability.go:36-117 | A wrong-route aggregate is answered 403 if and only if every inner ticket is good and every receipt is accepted; then each was verified with the outer bindings and there is one receipt for each distinct host under one attempt id; one bad entry means no receipt at all. |
| `Denial.ExpiredDenialAllOrNothing` | proxy/expired_handshake.go:27-184 | The same for an expired aggregate and 401, every inner ticket expired at its own clock readings and every bound audit field shared. |
| `Denial.RouteEntryExactly` | proxy/key_backend_capability.go:70-95 | An entry of a wrong-route aggregate is good, for a target, if and only if its inner ticket verified, names the same key, revision, target and operation, and a host. |
| `Denial.RouteEntriesExactly` | proxy/key_backend_capability.go:57-67 | Which tickets are aggregates: read tickets with nothing but a list of projects or of services. |
| `Denial.EvidenceExactly` | proxy/expired_handshake.go:92-146 | A ticket is evidence of expiry, and of what, if and only if it expired by the first clock reading, is a grant without audit claim or a legacy ticket with one, and its identity fields are all in range. |
| `Denial.ExpiredEntryExactly` | proxy/expired_handshake.go:62-84 | An entry of an expired aggregate is good, for a target, if and only if its inner ticket verified, is evidence itself of the same kind, shares the eleven bound fields and names a host. |
| `Denial.ExpiredEntriesExactly` | proxy/expired_handshake.go:50-59 | The expired lane takes the same aggregates. |
| `Denial.SingleTarget` | proxy/key_backend_capability.go:49-52 | A ticket that names a host itself is reported for that host alone. |
| `Denial.ReceiptsSent` | proxy/key_backend_capability.go:110-116 | The receipts sent are those of the first targets, in order; all but the last were accepted, and sending stopped early only at one refused or before one that could not be sent. |
| `Denial.AggregateAllOrNothing` | proxy/key_backend_capability.go:65-117 | The part both lanes share: answered as denied exactly when all entries are good and all receipts accepted. |
| `Denial.ReportedInFull` | proxy/key_backend_capability.go:102-117 | A denial is answered as such if and only if there are between 1 and 256 targets and every receipt was sent in time and accepted; otherwise 503. |
| `Denial.FirstPerHostExact` | proxy/key_backend_capability.go:92-95 | Exactly one target for each distinct host, at its first position, in increasing order of position. |
| `Denial.CollectTargets` | proxy/key_backend_capability.go:65-98 | The loop with its `seen` set computes the first target of each host, or nothing after one bad entry. |
| `Denial.CheckStreamRoute` | proxy/key_backend_capability.go:36-100 | No failure exactly without a grant or on an allowed path; otherwise the targets and one attempt id. |
| `Denial.ExpiredDelegationAudit` | proxy/expired_handshake.go:27-87 | A failure exactly when the ticket verifies and is evidence of expiry at its own clock readings; then the targets, each entry judged at its own readings, and one attempt id. |
| `Denial.ReportDenial` | proxy/expired_handshake.go:171-184 | Sends in order and stops at the first receipt that is late, malformed or refused. |
| `Denial.AcceptedFrom` | delegation/failure.go:38-56 | The length of the accepted run of receipts: all accepted below it, not accepted at it. |
| `Denial.AttemptIdIsUuid` | proxy/key_backend_capability.go:42-48 | The attempt id is a version 4 UUID, so the reporter's pattern never rejects it. |
| `Denial.ExpiredEvidenceIsFinal` | proxy/expired_handshake.go:92-104 | A grant once accepted as expired can never pass a live check that begins then or later (section 4.1.4 of RFC 7519). |
| `HttpReader.Start` | proxy/backend_http_reader.go:35-56 | Forwards exactly the bodies before the first Close and asks for a close once if there is one. |
| `HttpReader.BodyTextsExactly` | proxy/backend_http_reader.go:46-48 | What is forwarded of a message: its body, for a Body, and nothing otherwise. |
| `HttpReader.BeforeCloseExactly` | proxy/backend_http_reader.go:40-53 | What comes before the first Close. |
| `HttpReader.ReadExactly` | proxy/backend_http_reader.go:67-107 | What one read answers, exactly: as many bytes as fit from the buffer or the next readable body, end of file, or a failure. |
| `HttpReader.ResponseExactly` | proxy/backend_http_reader.go:75-87 | Which responses are read. |
| `HttpReader.HeadExactly` | proxy/backend_http_reader.go:91-100 | One more readable message sets its headers, the others staying, and writes its status if it has one. |
| `HttpReader.ReadLosesNothing` | proxy/backend_http_reader.go:67-107 | For every message sequence and every sequence of read sizes, the bytes returned and the buffer are the consumed bodies in order, and the client was written the headers and status codes of exactly those messages. |
| `HttpReader.NothingLeftAtEof` | proxy/backend_http_reader.go:67-84 | At end of file every byte of the preceding messages has been returned once. |
| `HttpReader.BackendHTTPReader.Read` | proxy/backend_http_reader.go:67-107 | One read in place, headers and status included, leaving the rest of the output array alone. |

## Left out

- `Multiplexer.Connection.InitializeClient`: assumes that the random key is not in use; the source relies on the random source for that.
- `Multiplexer.Connection.CloseConnection`: the locked part only; the Close frame before it is a step of its own in the runs.
- `BackendRegistry.BackendProxyManager.AddBackend`: assumes a fresh session id; so does `Register`.
- `BackendRegistry.FramesInOrder`: whether the socket delivers what it is handed is not modelled; a failed write ends the connection in the source.
- `SessionObjects.TerminatedIsARun`: needs no broadcast under way, which is what holding the session's lock means; so for `ClearedIsARun`, `RevokedIsARun` and `RemovedIsARun`.
- `BackendEndpoint.ProxyConnection.Serve`: blocking on a full responder or response channel is not modelled, nor the frames a handler sends while the loop runs (they are in `Chatter`).
- `HttpReader.BackendHTTPReader.Read`: the response writer is always there, and flushing is not modelled.
- Whether terminal input is base64 is a flag of the command.
- `nextSequence` has no 64-bit wrap-around.
- HTTP handlers, websocket upgrade, ping and pong, write deadlines and frontend handlers: plumbing around the components above.
- The network side of the Engine and platform clients, JWT and RSA verification, digests.
- URL building and parsing, JSON encoding, API interceptors, router construction.
- The stats fan-out: its counter of finished targets says little beside the receipts proved here.
- PROXY protocol, TLS, access lists, Kubernetes lookups, configuration, locale and build scripts: thin wrappers around libraries.
