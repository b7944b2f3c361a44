# Gate control: a model of the firmware, the server and their guarantees

Seven gates are driven by a microcontroller. It ticks them, carries out `change_state` commands, answers
`query_state` commands, and prints a report for every command, every query and every completed movement. A server
reads the reports from a serial line, broadcasts each to every live WebSocket session, and forwards the commands of
sessions with Control to the board. An HTTP front end authenticates clients by digest, serves the map list, the map
images and files, and upgrades connections to WebSocket sessions. Users live in a text file with nested delimiters,
maps in a JSON configuration.

The model follows that structure, one module a component.

| file | component |
|---|---|
| `Prelude.dfy`, `Permission.dfy`, `Json.dfy` | options, the three permissions, JSON values and typed messages |
| `Gate.dfy` | one gate: its binary32 position, commands, tick, and the value on its pin |
| `Sketch.dfy`, `SketchRuns.dfy`, `Commands.dfy` | the board: seven gates, message handling, `loop()`; what holds over its runs; what each document does |
| `Writer.dfy`, `Messenger.dfy`, `Session.dfy`, `CommonState.dfy` | the writer loop, the serial messenger, a WebSocket session, the broadcast |
| `System.dfy`, `SystemInvariants.dfy`, `Convergence.dfy`, `Delivery.dfy` | board, serial line and bridge as one step system; its invariant; its guarantees; that nothing gets stuck |
| `AuthTable.dfy`, `AuthLines.dfy` | splitting, joining, loading and saving the user table; its text, exactly |
| `Endpoints.dfy`, `Digest.dfy` | path permissions; the digest header, its check and the challenge |
| `Config.dfy`, `Request.dfy`, `Answers.dfy`, `HttpSession.dfy` | maps for a client; answering one request; the answers, exactly; the response pipeline |
| `Provenance.dfy` | from an authenticated request to the change of a gate |

Code that changes state is a class whose methods are proved equal to functions on values (`Value()` is the object as a
value); what the system promises is proved about those functions, and about all runs of them. What each operation does
is also said in terms of its inputs alone, as texts, documents and fields (`Commands`, `AuthLines`, `Answers`, and the
lemmas whose names end in `Exactly`), without the functions that compute it.

## How the model reads the code

- **Positions** are integers in units of 2^-30: `1.0F` is 1073741824 and `0.01F` is 10737418. Every reachable float is
  such an integer (`TickKeepsFloat`). The rounding of a sum is a parameter that may be any rounding to nearest, with
  ties broken in any way (section 4.3.1 of IEEE 754-2019); `NearestStaysClose` derives from that definition the bounds
  that the other proofs use.
- **Handlers are atomic.** The bridge is a set of steps, one for each asynchronous handler; which step comes next is
  arbitrary. In the HTTP pipeline a handler runs in one piece up to the point where `acquire` blocks it, and goes on in
  another step.
- **The serial line**: each read of the messenger carries exactly one whole document, one that was damaged, or
  nothing. Convergence of a client asks only that nothing meant for it was damaged; order and single delivery of what
  survives hold without that. A command counts as delivered to the board when its write completes.
- **Clients**: the commands that clients with Control send name a message type, are well formed for the board, and
  address one of the seven gates. With these, no reachable handler runs into the undefined cases of `str_to_type` and
  of `gates[id]` (`NothingIsUndefined`).
- **Lifetimes**: a session is alive exactly while a handler that holds it is outstanding; the list of the shared state
  holds weak references.
- **Requests**: the hash, the table of users, the maps and the file system are parameters; every nonce that might be
  drawn is an arbitrary string.

## Model

| member | source | states |
|---|---|---|
| Gates.TiesToEvenIsNearest | src/arduino_program/gate_control/gate_control.ino:52-56 | Ties-to-even is one of the roundings to nearest that the model admits: no binary32 number is nearer to a sum than the one it picks. |
| Gates.NearestStaysClose | src/arduino_program/gate_control/gate_control.ino:52-56 | Any rounding to nearest of a sum of the firmware keeps its side of 0.0F and 1.0F, and is off by at most 32 units of 2^-30 between them. |
| Gates.Gate.constructor | src/arduino_program/gate_control/gate_control.ino:36-41 | A new gate is at rest at exactly 0. |
| Gates.Gate.Tick | src/arduino_program/gate_control/gate_control.ino:44-72 | The tick clears the finished flag, moves by one rounded step, clamps and stops at the ends, and tells whether the gate was moving. |
| Gates.Gate.FinishedMoving | src/arduino_program/gate_control/gate_control.ino:74-76 | Whether the last tick ended a movement. |
| Gates.Gate.Lower | src/arduino_program/gate_control/gate_control.ino:78-81 | Starts lowering, or turns the movement around; the position stays. |
| Gates.Gate.Raise | src/arduino_program/gate_control/gate_control.ino:83-86 | Starts raising, or turns the movement around; the position stays. |
| Gates.Gate.GetState | src/arduino_program/gate_control/gate_control.ino:88-97 | The status; it has one for every gate that satisfies the invariant, so the function never runs off its end. |
| Gates.CommandKeepsGateOk | src/arduino_program/gate_control/gate_control.ino:78-97 | A command keeps the position in [0, 1] with a status, and the status is then the commanded movement. |
| Gates.TickKeepsGateOk | src/arduino_program/gate_control/gate_control.ino:44-97 | A tick keeps the position in [0, 1] and a gate at rest at exactly 0 or 1; the status changes only when the movement ends, which is exactly when the finished flag is set. |
| Gates.TickKeepsFloat | src/arduino_program/gate_control/gate_control.ino:52-69 | Under every rounding to nearest the position stays an exact binary32 number. |
| Gates.TickProgress | src/arduino_program/gate_control/gate_control.ino:52-69 | Each tick of a movement takes STEP, give or take 32 units, off the remaining distance, or ends it at exactly 0 or 1 without change of direction. |
| Gates.MovementEnds | src/arduino_program/gate_control/gate_control.ino:44-72 | From every state that any history of reversals can leave, an uninterrupted movement ends at exactly 1.0 or 0.0 within 101 ticks; the tick is the remaining distance over the step, up to the accumulated rounding error. |
| Gates.FullTravelTime | src/arduino_program/gate_control/gate_control.ino:44-72 | A full raise or lower takes 100 or 101 ticks, however ties are rounded. |
| Gates.DutyIsIntegerPart | src/arduino_program/gate_control/gate_control.ino:245-245 | The pin value is the integer part of 255 times the square of the position, said by the two inequalities that define it. |
| Gates.DutyRange | src/arduino_program/gate_control/gate_control.ino:245-246 | The pin value is in 0..255, 0 at the bottom and 255 at the top. |
| Gates.DutyMonotone | src/arduino_program/gate_control/gate_control.ino:245-246 | The pin value grows with the position. |
| Gates.DutyFollowsMovement | src/arduino_program/gate_control/gate_control.ino:241-247 | A tick of a movement does not lower the pin value when raising and does not raise it when lowering. |
| Sketches.Sketch.constructor | src/arduino_program/gate_control/gate_control.ino:99-99 | Seven distinct gates, all lowered and at rest. |
| Sketches.Sketch.SendGateStates | src/arduino_program/gate_control/gate_control.ino:101-127 | Prints one report with an entry for each known id, in order, and leaves gates and pins alone. |
| Sketches.Sketch.SendQueriedStates | src/arduino_program/gate_control/gate_control.ino:129-158 | The same for a JSON array: elements that are no unsigned integer, and ids out of range, are dropped. |
| Sketches.Sketch.SendError | src/arduino_program/gate_control/gate_control.ino:172-186 | Prints one error document. |
| Sketches.Sketch.HandleMessage | src/arduino_program/gate_control/gate_control.ino:188-235 | Every document is ignored, answered with the error for its defect, carried out and reported, or answered with a report; the behaviour is undefined exactly for a change of a gate that does not exist. |
| Sketches.Sketch.ChangeState | src/arduino_program/gate_control/gate_control.ino:212-223 | The commanded gate alone is turned, and reported. |
| Sketches.Sketch.TickAndShow | src/arduino_program/gate_control/gate_control.ino:239-247 | Ticks one gate and writes its own pin if it was moving; no other gate or pin changes. |
| Sketches.Sketch.UpdateGates | src/arduino_program/gate_control/gate_control.ino:237-253 | Ticks the gates in order, with a report for each that finished. |
| Sketches.Sketch.RunLoop | src/arduino_program/gate_control/gate_control.ino:265-272 | One pass of loop(): the waiting command, if defined, then the update. |
| SketchRuns.ReportTells | src/arduino_program/gate_control/gate_control.ino:101-127 | A client that reads a report learns of exactly the requested gates, each with its state at that moment. |
| SketchRuns.EntriesFollowRequest | src/arduino_program/gate_control/gate_control.ino:107-124 | The ids of a report are the known ids of the request, in the order of the request. |
| SketchRuns.EntriesNameStates | src/arduino_program/gate_control/gate_control.ino:113-123 | Every entry carries one of the four state strings. |
| SketchRuns.ReportRestoresTruth | src/arduino_program/gate_control/gate_control.ino:215-223 | A report that names every gate whose status changed makes the last report about each gate true again. |
| SketchRuns.HandleKeepsCoherent | src/arduino_program/gate_control/gate_control.ino:188-235 | Handling any document keeps the last report about every gate true. |
| SketchRuns.TickLeavesOthers | src/arduino_program/gate_control/gate_control.ino:239-251 | Ticking a gate, with its report, leaves every other gate, its pin and what was last reported about it exactly as they were. |
| SketchRuns.TickGateKeepsCoherent | src/arduino_program/gate_control/gate_control.ino:239-251 | And it keeps the last report about every gate true and every pin right. |
| SketchRuns.LoopKeepsCoherent | src/arduino_program/gate_control/gate_control.ino:265-272 | So does a pass of loop(), and every pin shows its gate. |
| SketchRuns.ReportsAreAlwaysTrue | src/arduino_program/gate_control/gate_control.ino:188-272 | In every run of commands and queries, after every pass: the last report about each of the seven gates is its state, every position is in [0, 1] with a status, and every pin shows floor(position^2 * 255). |
| SketchRuns.UpdateReportsCompletions | src/arduino_program/gate_control/gate_control.ino:237-253 | One update ticks each gate once and prints a report for exactly the gates whose movement it ended, in order. |
| SketchRuns.EveryStopIsReportedOnce | src/arduino_program/gate_control/gate_control.ino:237-272 | Over every run, the output is the answers and the completion reports, and the completion reports for a gate are as many as its movements that ended. |
| SketchRuns.EveryDocumentIsGood | src/arduino_program/gate_control/gate_control.ino:101-186 | Over every run, every document printed is an error document or a report whose entries all name one of the seven gates and one of the four states. |
| SketchRuns.LoopTicksGate | src/arduino_program/gate_control/gate_control.ino:265-272 | What a pass does to a gate depends on commands for that gate only. |
| SketchRuns.UndisturbedGate | src/arduino_program/gate_control/gate_control.ino:237-272 | Without commands for it, a gate goes through a run as if it were alone. |
| SketchRuns.PinFollowsMovement | src/arduino_program/gate_control/gate_control.ino:237-253 | Over every run without a command for a gate, from any coherent board: the value on its pin does not fall while the gate is raising, does not rise while it is lowering, and stays if it is at rest, whatever the other six do. |
| SketchRuns.StoppedAfter | src/arduino_program/gate_control/gate_control.ino:44-72 | A gate that has stopped stays where it is. |
| SketchRuns.CommandIsCarriedOut | src/arduino_program/gate_control/gate_control.ino:200-253 | The same for what is understood of a document: from every coherent board and whatever else arrives, after 101 passes without another change of it the gate is at rest at the end asked for, and that is the last thing reported about it. |
| Commands.ChangeIsUnderstood | src/arduino_program/gate_control/gate_control.ino:200-213 | A document is taken as a change of a gate exactly if it has that type, an object as payload, and in it the id as an unsigned number of 16 bits and the state as a boolean. |
| Commands.QueryIsUnderstood | src/arduino_program/gate_control/gate_control.ino:224-231 | And as a query exactly if it has that type and an array as payload. |
| Commands.AddressedIsAsked | src/arduino_program/gate_control/gate_control.ino:212-215 | The firmware stays within its array exactly if the id of a change is below seven. |
| Commands.ChangeIsHandled | src/arduino_program/gate_control/gate_control.ino:200-223 | A document asking for a change raises the gate if the state is true and lowers it if it is false, at once and from wherever it is; other gates and all pins stay; one report is printed, which says raising or lowering of that gate and nothing of others. |
| Commands.QueryIsHandled | src/arduino_program/gate_control/gate_control.ino:129-158 | A query changes nothing and is answered by exactly one report: its ids are the elements that are numbers from 0 to 6, in their order, each with the state in which its gate is. |
| Commands.OtherDocumentsAreRefused | src/arduino_program/gate_control/gate_control.ino:188-234 | Every other document changes nothing; null is passed over, and the others are answered by exactly the error for their defect. |
| Commands.ChangeIsCarriedOut | src/arduino_program/gate_control/gate_control.ino:200-253 | End to end on the board, about the document itself: 101 passes after it, if nothing else asks for a change of that gate, the gate is at rest at exactly 1.0 if the state asked for is true and at exactly 0.0 if not, and the last report says raised or lowered. |
| Commands.NewBoardIsLowered | src/arduino_program/gate_control/gate_control.ino:36-41 | A new board has seven gates shown as lowered, dark pins, and has printed nothing. |
| Json.KindNames | src/json_message.cpp:3-17 | Type names and type strings correspond. |
| Json.ReadExactly | src/json_message.cpp:37-54 | A document is read as a message exactly if it is an object with one of the five type strings; with another string it has no kind; everything else is rejected. |
| Json.ParseDump | src/json_message.cpp:37-63 | Parsing a printed message returns it; printing a parsed document returns it exactly when it has the two fields of a message and no others. |
| Writers.PushKeepsOk | src/arduino_messenger.cpp:134-137 | Queueing keeps the single-token discipline and conservation. |
| Writers.DoWriteKeepsOk | src/arduino_messenger.cpp:87-110 | do_write, called when nothing is outstanding, leaves exactly one of a write in flight and a posted do_write. |
| Writers.RunPostedKeepsOk | src/arduino_messenger.cpp:102-109 | So does a posted do_write when it runs. |
| Writers.CompleteKeepsOk | src/arduino_messenger.cpp:112-132 | A completed write has transmitted exactly the text it was started for; after success there is again exactly one token, after an error none. |
| Messengers.Messenger.Run | src/arduino_messenger.cpp:31-37 | Starts one read and the writer loop. |
| Messengers.Messenger.StartRead | src/arduino_messenger.cpp:39-48 | One more read is outstanding. |
| Messengers.Messenger.OnRead | src/arduino_messenger.cpp:50-85 | A result that parses is queued, damaged text is dropped, and unless the read failed the next one starts; undefined exactly for an unknown type string. |
| Messengers.Messenger.StartWrite | src/arduino_messenger.cpp:87-110 | Moves the head of the outgoing queue to the buffer and starts writing it, or posts itself. |
| Messengers.Messenger.OnPosted | src/arduino_messenger.cpp:102-109 | A posted do_write runs. |
| Messengers.Messenger.OnWrite | src/arduino_messenger.cpp:112-132 | The buffer is cleared; after success the loop goes on, after an error it stops. |
| Messengers.Messenger.SendMessage | src/arduino_messenger.cpp:134-137 | Appends to the outgoing queue and to nothing else. |
| WebsocketSessions.WebsocketSession.constructor | src/websocket_session.cpp:3-7 | A new session is Blocked and holds nothing. |
| WebsocketSessions.WebsocketSession.IsAlive | src/common_state.cpp:33-33 | A session has expired exactly when no handler that holds it is outstanding. |
| WebsocketSessions.WebsocketSession.DoAccept | src/websocket_session.hpp:43-78 | Without credentials or with Blocked nothing happens; otherwise the permission is stored and the handshake starts. |
| WebsocketSessions.WebsocketSession.OnAccept | src/websocket_session.cpp:9-20 | After the handshake, and only if it succeeded, reading and writing start. |
| WebsocketSessions.WebsocketSession.StartRead | src/websocket_session.cpp:22-31 | One more read is outstanding. |
| WebsocketSessions.WebsocketSession.StartWrite | src/websocket_session.cpp:33-59 | Moves the head of the queue to the buffer and starts writing it, or posts itself. |
| WebsocketSessions.WebsocketSession.OnPosted | src/websocket_session.cpp:51-58 | A posted do_write runs. |
| WebsocketSessions.WebsocketSession.OnWrite | src/websocket_session.cpp:88-100 | After success the loop goes on, after an error it stops; the buffer is kept. |
| WebsocketSessions.WebsocketSession.QueueMessage | src/websocket_session.cpp:102-104 | Appends to the queue of this session and to nothing else. |
| WebsocketSessions.WebsocketSession.OnRead | src/websocket_session.cpp:61-86 | A text is handled, binary data is skipped, and unless the stream is closed or broken the next read starts; undefined exactly for an unknown type string from a client with Control. |
| WebsocketSessions.WebsocketSession.HandleMessage | src/websocket_session.cpp:106-116 | Only for Control, and only a query or a change, is passed to the messenger, unchanged. |
| CommonStates.CommonState.constructor | src/common_state.cpp:3-6 | No session is known and nothing was broadcast. |
| CommonStates.CommonState.AddSession | src/common_state.cpp:8-17 | Lists the session last and sends a query for all seven gates. |
| CommonStates.CommonState.Living | src/common_state.cpp:29-36 | The listed sessions that have not expired, in their order. |
| CommonStates.CommonState.Prune | src/common_state.cpp:25-37 | Exactly the expired sessions leave the list; no session changes. |
| CommonStates.CommonState.Deliver | src/common_state.cpp:43-49 | Queues the text for one session if it can be locked; no other session changes. |
| CommonStates.CommonState.Broadcast | src/common_state.cpp:43-49 | Queues the text for the listed living sessions, whatever the aliasing of the list. |
| CommonStates.CommonState.Update | src/common_state.cpp:23-53 | Prunes, and passes the result at the head of the incoming queue to every living session and pops it; without sessions, or with another message at the head, nothing is popped. |
| SystemInvariants.KeptMembers | src/common_state.cpp:29-36 | Pruning keeps exactly the living listed sessions, each once. |
| SystemInvariants.QueueAllQueuesOnce | src/common_state.cpp:43-49 | A broadcast queues the text exactly once for each living listed session and for no other. |
| Delivery.PrunedList | src/common_state.cpp:24-37 | After an update exactly the living sessions are listed, each once. |
| Delivery.UpdateDelivers | src/common_state.cpp:39-51 | With a session listed and a result at the head of the incoming queue, an update takes exactly that one from the queue, broadcasts it, and queues it for exactly the living listed sessions, behind what they have. |
| Delivery.UpdateOtherwiseIdle | src/common_state.cpp:24-51 | Without a session, a message, or a result at the head, an update changes no queue. |
| Delivery.UpdatesEmptyQueue | src/common_state.cpp:23-53 | While a session lives, as many updates as results are waiting broadcast all of them, in order, and leave none. |
| Delivery.PostedWritesHead | src/arduino_messenger.cpp:87-110 | A posted do_write that finds something queued starts writing the oldest of it. |
| Delivery.NextIsWritten | src/arduino_messenger.cpp:112-132 | After a successful write the next text is being written at once, if there is one. |
| Delivery.MessageIsReceived | src/arduino_messenger.cpp:121-145 | A document that arrives undamaged is queued as the message that it is, whatever its type, and damaged text is dropped; either way the next read starts. |
| Delivery.MessengerReadsUntilError | src/arduino_messenger.cpp:50-85 | Over every run in which no read failed, exactly one read of the messenger is outstanding. |
| Delivery.ConnectionStarts | src/websocket_session.hpp:49-77 | A connection with View or Control gets that permission, starts its handshake, is listed last, and has the seven gates queried for it; any other is dead at once. |
| Delivery.AcceptedSessionRuns | src/websocket_session.cpp:9-20 | After its handshake a session reads, and is writing the oldest report queued for it if there is one; after a failed handshake it is dead. |
| Delivery.SessionReadsOn | src/websocket_session.cpp:61-86 | Over every run in which its stream was not closed or broken, a session keeps exactly one read outstanding. |
| Delivery.ReadsEnd | src/websocket_session.cpp:67-74 | A failed read, and a closed or broken stream, end reading and change nothing else. |
| Delivery.SentOnExactly | src/websocket_session.cpp:106-116 | What is sent on of a text: from a session with Control a document of type change_state or query_state, reduced to its type and payload, and nothing else. |
| Delivery.CommandIsQueued | src/websocket_session.cpp:106-116 | A change or query of a session with Control ends up unchanged behind what is queued for the board. |
| Delivery.OthersSendNothing | src/websocket_session.cpp:106-116 | A session without Control sends nothing to the board, and none does by other than a text. |
| SystemInvariants.AllGatesAreAnswered | src/common_state.cpp:16-16 | The answer of the board to the query that add_session sends tells something about each of the seven gates (and by coherence its state). |
| SystemInvariants.UpdateKeepsInv | src/common_state.cpp:23-53 | The update keeps the invariant of the whole system. |
| SystemInvariants.BoardStepKeepsInv | src/arduino_program/gate_control/gate_control.ino:265-272 | So does a pass of the board. |
| SystemInvariants.TextKeepsInv | src/websocket_session.cpp:61-116 | So does a text from a client. |
| SystemInvariants.SerialWriteKeepsInv | src/arduino_messenger.cpp:112-132 | So does a completed write to the board. |
| SystemInvariants.SerialPostedKeepsInv | src/arduino_messenger.cpp:102-109 | So does a posted do_write. |
| SystemInvariants.ClientWriteKeepsInv | src/websocket_session.cpp:88-100 | So does a completed write to a client. |
| SystemInvariants.AcceptKeepsInv | src/websocket_session.cpp:9-20 | So does the end of a handshake. |
| SystemInvariants.DocumentReadKeepsInv | src/arduino_messenger.cpp:50-85 | So does a document that arrives. |
| SystemInvariants.DocumentGarbledKeepsInv | src/arduino_messenger.cpp:77-84 | So does a document that arrives damaged. |
| SystemInvariants.ConnectKeepsInv | src/common_state.cpp:8-17 | So does a new session. |
| SystemInvariants.StepKeepsInv | src/common_state.cpp:23-53 | Every enabled handler of the system keeps the invariant: board coherence, both links, both kinds of writer, every stream, every origin, every query. |
| SystemInvariants.RunKeepsInv | src/common_state.cpp:19-62 | And so does every run. |
| Convergence.NothingIsUndefined | src/json_message.cpp:11-17 | In every reachable state, whatever handler the environment may run next has defined behaviour: no command without a gate and no document without a type is ever met. |
| Convergence.ClientsConverge | src/common_state.cpp:40-51 | End to end: in every reachable state, for every live session whose writer has not failed, its handshake outstanding or done, and of whose stream the line lost nothing: replaying what it was sent, then its buffer and queue, then the incoming queue, then the serial line, shows for every gate mentioned the actual state after the last pass of loop(). |
| Convergence.LaterReportsConverge | src/common_state.cpp:8-53 | Damage before a session was added does not matter: if nothing printed since was lost, the same replay shows the actual state of every gate reported since. |
| Convergence.DrainedClientsShowTheTruth | src/common_state.cpp:8-53 | Once both directions are drained, such a client shows the true state of all seven gates, if nothing printed since it was added was lost. |
| Delivery.NextIsOnward | src/common_state.cpp:23-62 | While anything lies between the board and the client of a session that can still be brought up to date, one of the system's own handlers may run that makes this backlog smaller. |
| Delivery.ClientsCanBeUpToDate | src/common_state.cpp:8-53 | Nothing is ever stuck: from every reachable state, for every live session whose writer has not failed, while the messenger's reader and writer have not either, the system's own handlers alone can carry out every command sent so far and bring the client up to date, with the true state of all seven gates on its screen if nothing printed since it was added was lost. |
| Convergence.StreamsAreIntervals | src/common_state.cpp:23-53 | Written, lost to the failed write, in flight and queued: together exactly the interval of the broadcast from the addition of the session on, up to its end while the session lives, however others die and are pruned. |
| Convergence.BroadcastIsInOrder | src/arduino_messenger.cpp:77-85 | With damage on the line, the broadcast is still in the order of printing, each surviving document exactly once. |
| Convergence.MessengerConserves | src/arduino_messenger.cpp:50-137 | Received results are the popped ones and then the incoming queue; sent commands are the written ones, the one lost to an error, the one in flight, and the queue, in order. |
| Convergence.OneTokenPerWriter | src/arduino_messenger.cpp:87-132 | Both writer loops, once started and until an error, have exactly one of a write in flight and a posted do_write, also after the reader of a session has ended; a session that is not started has none; a buffer keeps its text while its write is outstanding; reads never overlap. |
| Convergence.RunningUntilFailure | src/websocket_session.cpp:33-59 | A writer loop of a session that runs is still running after every further run, or exactly one write has failed. |
| Convergence.PermissionsAreSettled | src/websocket_session.hpp:49-54 | Over every run the permission of an existing session never changes. |
| Convergence.CommandsComeFromControllers | src/websocket_session.cpp:106-116 | Over whole runs: every command ever sent towards the board, in flight or handled, is the query of add_session or word for word a text of a session with Control, each text at most once and those of one client in their order; every change comes from such a session; and no forwardable text of such a session is dropped. |
| Convergence.BlockedSessionsAreDead | src/websocket_session.hpp:49-54 | A session that was refused, or is Blocked, never has anything outstanding. |
| AuthTables.SplitJoin | src/auth_table.hpp:36-68 | join_vector undoes split_str always; split_str undoes join_vector exactly for vectors without the delimiter in an element other than the vector of one empty string. |
| AuthLines.JoinKeepsOrder | src/auth_table.hpp:57-68 | Joining puts the elements in their order, with one delimiter between neighbours. |
| AuthTables.SplitStr | src/auth_table.hpp:36-55 | The loop returns the pieces between the delimiters, none for the empty string. |
| AuthTables.JoinVector | src/auth_table.hpp:57-68 | The loop returns the elements with a delimiter between neighbours. |
| AuthTables.PrintedLineParses | src/auth_table.hpp:145-164 | Parsing the printed line of an entry returns it if it is well formed. |
| AuthTables.ParsedLineIsWellFormed | src/auth_table.hpp:84-138 | Whatever line was accepted, the entry read from it is well formed. |
| AuthTables.ReadRow | src/auth_table.hpp:104-137 | Once the columns are known: the code column must read as 0, 1 or 2, loosely as stoi reads and through the conversion to unsigned. |
| AuthTables.ReadLine | src/auth_table.hpp:84-137 | A line is accepted exactly if it has three colons and stoi reads 0, 1 or 2 from its second column; the rest of the line after the third colon is the password. |
| AuthLines.CodeIsReadExactly | src/auth_table.hpp:104-118 | The second column is accepted as a permission exactly if it is blanks, a sign, zeros, the digit, and then nothing or anything that is no digit; with a minus sign only for 0. |
| AuthLines.AcceptedExactly | src/auth_table.hpp:84-138 | A line is accepted, and read as an entry, if and only if it is the login, a text that reads as the permission, the groups joined by semicolons and the password, with colons between, and no colon in the first three; every other line is skipped. |
| AuthLines.LinesOfFile | src/auth_table.hpp:84-84 | The lines of a file are those that end with a newline, and what follows the last newline unless it is empty. |
| AuthTables.OpenAuthTable | src/auth_table.hpp:70-143 | The loop loads the table of the text, line by line, first entry of a login first. |
| AuthTables.SaveAuthTable | src/auth_table.hpp:145-165 | The loop writes one line per user in iteration order, separated by newlines, without a last one. |
| AuthLines.SavedFile | src/auth_table.hpp:152-164 | For every table: one line for each user in the order of iteration, login, digit, groups and password with colons between, a newline between neighbours and none at the end. |
| AuthTables.LoadedIsWellFormed | src/auth_table.hpp:70-143 | Every loaded table is well formed. |
| AuthTables.LoadAfterSave | src/auth_table.hpp:70-165 | For every iteration order: loading the saved text returns the table if and only if no login has a colon or newline, no group a colon, semicolon or newline, no group list is one empty string, and no password has a newline. |
| AuthTables.NormalisationIsIdempotent | src/auth_table.hpp:84-165 | For every text, malformed or not, load(save(load(text))) is load(text). |
| AuthTables.LoadedIsDefined | src/auth_table.hpp:130-137 | A login is in the table exactly if an acceptable line has it. |
| AuthTables.FirstLineWins | src/auth_table.hpp:130-137 | Its data is that of the first such line. |
| Endpoints.EndpointMapIsGood | src/auth.hpp:26-32 | The endpoint map has single segments, none behind a proper prefix of it, and then the root. |
| Endpoints.PermissionsOfFirstSegment | src/auth.cpp:3-24 | The recursive lookup ends on every path and, with such a map, is the permission of the entry that equals the first segment. |
| Endpoints.HiddenEntryIsMissed | src/auth.cpp:10-20 | An entry that stands behind a proper prefix of it is missed for its own path. |
| Endpoints.LookupFollowsFirstSegment | src/auth.cpp:3-24 | For every map of single segments and the root: the lookup follows the first segment on all paths if and only if no entry with a permission stands behind a proper prefix of it. |
| Endpoints.StartsWithSegmentIsFirstSegment | src/http_session.cpp:256-267 | target_starts_with_segment tests exactly whether the first segment is the given one. |
| Endpoints.ProtectedIffSegment | src/auth.cpp:3-24 | The lookup and the segment test agree on every string: a target is protected, and with which permission, exactly by the endpoint segment it starts with. |
| Answers.PermissionsExactly | src/auth.cpp:3-24 | On every string: View for /config, /maps, /view and what is below them, Control for /control and what is below it, and none for all others. |
| Answers.SingleLevelExactly | src/http_session.cpp:250-254 | A target is taken for /config exactly if it starts with it and ends in config or config/. |
| Digests.DigestParams.SetField | src/auth.cpp:26-39 | Sets the named field and no other; an unknown name changes nothing. |
| Digests.ParseDigestAuthField | src/auth.cpp:138-179 | The loop over the matches of the expression fills the record; None without the word Digest or a complete set of fields. |
| Digests.ReadableExactly | src/auth.cpp:41-55 | Credentials are readable exactly if the header starts with Digest and the five mandatory fields are found in it, and cnonce and nc exactly if qop is. |
| Digests.HeaderIsRead | src/auth.hpp:71-71 | The matches in a printed header are exactly its pairs, in order, whatever their quoting. |
| Digests.PairsAreHeld | src/auth.cpp:154-171 | Every pair of a header with distinct names ends in its own field. |
| Digests.AnswerIsParsed | src/auth.cpp:138-179 | Parsing a header returns exactly the fields printed in it, in any order and among others. |
| Digests.DigestIsDecidedByResponse | src/auth.cpp:97-136 | Completeness: for a stored user, every user name and URI that can be printed, and every header order, get_auth returns that user exactly if the response is the one of section 3.4.1 of RFC 7616 for the stored password, the method and the nonce of the server. The nonce in the header is not compared here. |
| Digests.AcceptedMeansResponse | src/auth.hpp:77-109 | Soundness: whoever is accepted named a stored user, returned the opaque value and gave the response of that user's password. |
| Digests.AnswerPairsAnswer | src/auth.cpp:138-179 | The header fields of a client's answer carry each value the server looks for, once, and can be read by its expression. |
| Digests.StoredUserIsAccepted | src/auth.cpp:87-179 | Every stored user gets in: for every user name and URI that are non-empty and free of quotes and line breaks, and any hash with printable values, the header answering with the stored password and the method is accepted by get_auth with that user's data if http_method_to_str names the method; for any other method it is accepted exactly if the digest equals the one for "unknown". |
| Digests.ChallengeIsReadable | src/auth.cpp:194-212 | Reading the challenge by the same grammar gives exactly the parameters put in it. |
| Digests.ChallengeIsFound | src/auth.cpp:194-212 | In particular its nonce and its opaque value. |
| Configs.ValidateMapEntry | src/config.hpp:76-94 | The early-exit checks accept exactly the valid entries, all gates included. |
| Configs.ValidateConfig | src/config.hpp:96-108 | The same for the whole configuration. |
| Configs.Parse | src/config.hpp:110-136 | The loop returns the entries in order, or the exception for an invalid value. |
| Configs.GateIsValidExactly | src/config.hpp:68-74 | A gate is valid exactly if it is an object with x, y and id as unsigned numbers. |
| Configs.ConfigIsReadExactly | src/config.hpp:76-136 | A configuration is accepted, and read as a list of maps, if and only if it is an array of the values of these maps: id and image as texts, the group as a text, null or absent, and an array of valid gates. |
| Configs.ConfigRoundTrip | src/config.hpp:30-136 | Parsing the printed configuration returns it exactly if all gates are valid, and is refused otherwise. |
| Configs.ParsingNormalises | src/config.hpp:30-136 | Whatever was accepted, printing and parsing again changes nothing. |
| Configs.FindGroup | src/config.hpp:161-165 | Whether the user has the group. |
| Configs.GetMapsForClient | src/config.hpp:153-173 | The loop returns the client list. |
| Configs.ClientListIsSubsequence | src/config.hpp:153-173 | The client list is the order-preserving subsequence of the maps that ShownTo selects; the next row says which these are. |
| Configs.ClientListIsFiltered | src/config.hpp:153-173 | About maps and user alone: one entry with id, group and gates for each map, in order; for a user with Control exactly those without a group or with one the user has, for any other user all. |
| Configs.MoreGroupsShowMore | src/config.hpp:160-168 | More groups never show less, and a user below Control sees all. |
| Configs.GetMapById | src/config.hpp:175-188 | Finds the map, or the exception. |
| Configs.MapByIdIsFirst | src/config.hpp:175-188 | It is the first with the id. |
| Requests.UnauthorizedResponse | src/http_session.cpp:222-248 | Replaces the shared nonce and puts the new one in the challenge. |
| Requests.Open | src/http_session.cpp:455-499 | 404 for a missing file, 500 for any other error, else the file, without its body for HEAD. |
| Requests.AnswerRequest | src/http_session.cpp:382-499 | What follows the checks: map list, map image or file, or the exception. |
| Requests.HandleRequest | src/http_session.cpp:270-500 | The response and the nonce afterwards, branch by branch. |
| Requests.ProtectedTargetIsDecidedByUser | src/http_session.cpp:359-380 | On a protected target: 401 exactly if the credentials are not accepted, 403 exactly if the user's permission is too low, and otherwise neither. |
| Requests.SuccessIsAuthorized | src/http_session.cpp:359-380 | A success on a target whose first segment is an endpoint implies that get_auth accepted a stored user, with the response for the current nonce, whose permission is at least the endpoint's. |
| Requests.NonceIsReplacedBy401 | src/http_session.cpp:222-248 | In handle_request the shared nonce is replaced exactly if the result is a 401, which then carries the new one. |
| Requests.ThrowsExactly | src/http_session.cpp:384-387 | The optional is read while empty exactly for a target that is taken for /config without starting with that segment, asked for without accepted credentials. |
| Requests.PublicTargetsIgnoreCredentials | src/http_session.cpp:435-499 | Other targets are answered alike for everyone. |
| Requests.DocumentsStayBelowRoot | src/http_session.cpp:349-453 | A file that is no map image has a path below the document root: root, then a path that starts with the target and has no parent directory in it, index pages included. |
| Requests.ConfigListsShownMaps | src/http_session.cpp:384-419 | /config answers an authorized client with the client list, without its body for HEAD. |
| Answers.ClientListIsServed | src/http_session.cpp:384-419 | So the response to /config has, in order, one entry with id, group and gates for each map, and for a user with Control none for a map of a group the user does not have. |
| Answers.BadRequestsExactly | src/http_session.cpp:341-356 | A request is bad exactly if its method is neither GET nor HEAD, or its target is empty, does not start with a slash or has two dots in a row. |
| Answers.RefusalsExactly | src/http_session.cpp:358-380 | Below /config, /maps and /view whoever is not accepted is asked and whoever is Blocked forbidden; below /control whoever lacks Control is forbidden; elsewhere nobody is asked or forbidden. |
| Answers.KeepAliveIsKept | src/http_session.cpp:341-499 | Every response keeps the connection alive exactly if the request asked for it. |
| Answers.FileIsServed | src/http_session.cpp:435-499 | Whoever may see a target gets the file of that name below the document root, of a directory, /view and /control the index page: with its body for GET, without for HEAD, 404 if there is none, a server error if it cannot be opened. |
| Answers.MapImageIsServed | src/http_session.cpp:420-499 | Whoever may see maps gets the image file of the first map with the id, in the same way, and 404 if there is no such map. |
| Requests.MapImageIsThatOfItsMap | src/http_session.cpp:420-434 | /maps/<id> answers an authorized client with the image of the first map with the id, and 404 if there is none. |
| Requests.ChallengeThenAnswer | src/http_session.cpp:222-380 | The handshake works: a client that reads the challenge of a 401 and answers with the digest for its nonce and the stored password is not asked again, and is forbidden only for lack of permission. |
| Requests.StoredUserGetsIn | src/http_session.cpp:222-380 | In two requests: after any 401, the client of any stored user with the permission reads the challenge, answers it, and is neither asked again nor forbidden. |
| HttpSessions.NonceIsReplacedByEvery401 | src/http_session.cpp:68-108 | On every path of on_read the shared nonce is replaced exactly by a 401, which carries the new one; it is stale exactly for an upgrade with a readable answer to another nonce. |
| HttpSessions.TakeoverIsAuthenticated | src/http_session.cpp:68-103 | The socket goes to a WebSocket session only with the current nonce, and the permission given is that of a stored user who gave the right response for it. |
| HttpSessions.UpgradeExactly | src/http_session.cpp:68-103 | Upgrades: an exception without credentials, a 401 for unreadable ones, a stale 401 for another nonce, and otherwise a takeover with the user's permission, or none if the credentials are not accepted. |
| HttpSessions.StoredUserTakesOver | src/http_session.cpp:92-100 | A stored user's upgrade that answers the current nonce is taken over with that user's permission. |
| HttpSessions.HttpSession.constructor | src/http_session.hpp:90-96 | One permit, an empty queue, nothing outstanding. |
| HttpSessions.HttpSession.DoRead | src/http_session.cpp:35-50 | One more read is outstanding. |
| HttpSessions.HttpSession.StartWrite | src/http_session.cpp:126-150 | Takes the head of the queue; writes it with the permit, or blocks without; tells whether the queue was full before. |
| HttpSessions.HttpSession.QueueWrite | src/http_session.cpp:116-124 | Queues the response and starts writing if it is the only one. |
| HttpSessions.HttpSession.OnRead | src/http_session.cpp:52-114 | One request is answered, refused, taken over or thrown out, and the next read starts only after an answer and with room in the queue. |
| HttpSessions.HttpSession.OnArrival | src/http_session.cpp:68-113 | The request that arrived is reacted to as its kind asks. |
| HttpSessions.HttpSession.OnRequest | src/http_session.cpp:105-113 | The part for ordinary requests. |
| HttpSessions.HttpSession.OnUpgrade | src/http_session.cpp:68-103 | The part for upgrades: exception without credentials, 401 if unreadable, stale 401 for another nonce. |
| HttpSessions.HttpSession.OnWrite | src/http_session.cpp:502-522 | Releases the permit; stops on error, closes without keep-alive, or writes the next response and reads again if the queue was full. |
| HttpSessions.HttpSession.OnResume | src/http_session.cpp:136-146 | A blocked handler gets the permit and does the rest of its work. |
| HttpSessions.QueueKeepsFlows | src/http_session.cpp:116-150 | Queueing keeps the pipeline invariant; the queue does not exceed the limit even meanwhile. |
| HttpSessions.StepKeepsFlows | src/http_session.cpp:105-150 | Every step of the pipeline keeps it: permits and writes in flight are one; reads and blocked handlers at most one; responses made are those given to the stream and then the blocked one. |
| HttpSessions.RunLogs | src/http_session.cpp:52-124 | The requests answered in a run and their responses are those that its events determine, in the order of arrival. |
| HttpSessions.ResponsesLeaveInOrder | src/http_session.cpp:105-150 | For every positive limit and every interleaving: the responses given to the stream are a prefix of those to the requests of the run, in the order of their arrival, so the k-th answers the k-th and each leaves at most once; at most one is held back; at most one write and one read are outstanding; the semaphore never exceeds one; the queue is empty between handlers. |
| HttpSessions.WhatLeavesIsAuthorized | src/http_session.cpp:105-150 | Over every run of a connection: a success given to the stream for a protected target was asked for with accepted credentials, for the nonce of its arrival, and enough permission. |
| HttpSessions.FinishedStaysFinished | src/http_session.cpp:502-522 | A connection without a read or a blocked handler never answers again, over every run. |
| HttpSessions.AnsweredReadsOn | src/http_session.cpp:105-113 | After a request that is answered: if the permit was free, the response is being written and the next read is outstanding; if not, exactly this handler is blocked with the response. |
| HttpSessions.ResumedReadsOn | src/http_session.cpp:135-146 | Resumed, it gives its response to the stream, and the next read is outstanding. |
| HttpSessions.ConnectionReadsOn | src/http_session.cpp:105-113 | Over every run in which every arrival was answered, one read is outstanding, or exactly the one handler that will start it is blocked. |
| HttpSessions.WriteEndsExactly | src/http_session.cpp:502-522 | A completed write gives the permit back, closes the stream exactly if it succeeded without keep-alive, and changes nothing else. |
| HttpSessions.ReadEndsExactly | src/http_session.cpp:58-66 | The end of the stream closes it, a broken read does not. |
| HttpSessions.ReadingStops | src/http_session.cpp:52-103 | End of stream, error, takeover and exception end reading; a refused upgrade is answered and is the last. |
| Provenance.RunKeepsGranted | src/http_session.cpp:92-100 | The sessions of a run are its connections, in order, each with the permission that get_auth found for it. |
| Provenance.ChangesAreProved | src/http_session.cpp:68-103 | End to end: every change of a gate ever sent to the board, and so every one carried out, is word for word a text of a connection taken over by a request that proved, for the nonce of that moment, the password of a stored user with Control. |

## Left out

- HttpSessions.ResponsesLeaveInOrder: claims safety only. `acquire` can block the strand that would run the handler that releases (src/http_session.cpp:136, 507), so no response is promised to leave.
- Convergence.ClientsConverge: assumes that each serial read brings one whole document, and that none of the session's stream was damaged; nothing is said about when queues drain.
- Digests.DigestIsDecidedByResponse: covers headers with distinct field names, quoted values without quotes or line breaks, and tokens of the expression's own class.
- Gates.DutyRange: the pin value is computed over the reals and not by `powf` and `floorf` on floats.
- Sketches.Sketch.HandleMessage: claims nothing of the state after a `change_state` whose id is seven or more, only that this is exactly when the firmware leaves its array (line 215); the system model shows that it does not happen, given well-formed commands.
- Sketches.Sketch.RunLoop: the same for the command that waits.
- Messengers.Messenger.OnRead: claims nothing of the state after a document with an unknown type string, only that this is exactly when `str_to_type` runs off its end (src/json_message.cpp:11-17); the system model shows that it does not happen, given well-formed commands.
- WebsocketSessions.WebsocketSession.OnRead: the same for what a client with Control sends; the system model excludes it by an assumption on clients.
- WebsocketSessions.WebsocketSession.HandleMessage: likewise.
- Requests.ThrowsExactly: only says when the exception occurs; what the thread pool does after it is not modelled.
- Sockets, the serial port, timeouts, `delay`, signal handling, thread start-up and the re-posting of `update`: only which handler may run next and what it changes is kept.
- Data races: queues are shared between threads without locks in places; every handler segment is atomic here.
- A message that is no result at the head of the incoming queue is never popped by `update`; the code is modelled so, and under the assumptions on the firmware it does not occur.
- Error documents of the firmware, and unknown type strings, have no value in `str_to_type`; reading one is excluded by the assumption on commands. The size of the buffer in `send_error` is not modelled.
- JSON text, SHA-256, base64 and random numbers: documents are values, the hash is a parameter, nonces are arbitrary strings.
- White space that `stoi` and the expression skip is the six ASCII characters of the C locale; character encodings and newline translation on disk are not modelled.
- `AuthorizationType` has exactly its three enumerators.
- Response headers other than the challenge, MIME types, content lengths, the path separators of Windows, and the text of error pages.
- Opening and writing files, console menus of the configurator, the HTTP listener and the nonce it keeps per address, and the HTML clients.
