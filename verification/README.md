# Connection broker, GAHP, ClassAds, annex and week dates of HTCondor

A Dafny model of the parts of HTCondor that keep state over long runs, with proofs of what they promise.

- **Connection broker** (`CcbReconnectFile`, `CcbServerSpec`, `CcbServerProperties`, `CcbServer`, `CcbCrash`, `CcbAnswers`, `CcbProtocol`, `CcbConnect`, `CcbClient`, `CcbReverse`, `CcbListener`). Targets register with the broker, clients ask it to make a target connect back to them. `CcbServerSpec` gives the broker's handlers as functions on its tables, counters and reconnect file; `CcbServer` is the object with its loops, each method proved against its function; `CcbServerProperties` proves the invariant for every run. The file has a part that is flushed and a part that a crash may lose; `CcbCrash` says when that leads to an identifier with two holders. `CcbAnswers` says over which connection each answer goes and who can take an identifier back. `CcbProtocol` composes clients, broker and listeners into one transition system in which messages may arrive late, twice or never; `CcbConnect` shows that it can always connect one more client. `CcbClient` and `CcbListener` are the callback-driven state machines at the two ends, with timers and reference counts; `CcbReverse` holds what a listener receives and writes about the broker's orders.
- **ARC GAHP** (`GahpFraming`, `GahpPool`). The byte-stream framer, escaping and parsing, and the worker pool as atomic steps between releases of the big mutex.
- **ClassAds** (`ClassAdChain`, `ClassAdReferences`, `ClassAdDependence`). Chained ads against flat copies, and the walk that collects external references against evaluation: what it returns suffices, and which of it matters. Operators and functions are arbitrary deterministic strategies that ask for operands and list elements.
- **Annex** (`AnnexSequence`, `AnnexCreate`). The functor sequence with its log, and the create sequences with the rule, the target and the instances in the cloud.
- **Week dates** (`ViewWeeks`). Week numbers, labels, their parser, and the choice of daily and weekly files.

Each component that the source changes in place is a class here; its methods state their whole effect as a function of the old state (`View()`), and the theorems are lemmas about those functions over every sequence of events. What the environment decides (answers of sockets and services, timing, thread creation, clock values) is part of the events.

## Where the source does not meet a property

- A sweep with a negative interval drops the records of connected targets (`CcbServerProperties.SweepRemembersIff`, `CcbServerProperties.SweepForgets`).
- After a crash the jump of 100 identifiers does not keep a new process from handing out again what its predecessor handed out and did not flush, if the predecessor's counter had come further than the jump takes the new one; for a process that has itself just jumped, one registration is enough (`CcbCrash.CrashRiskIff`, `CcbCrash.HandedOutTwice`).
- A heartbeat setting that changes while a listener's pending socket is already connected underneath arms the heartbeat too early, and the connect callback can then find its socket gone (`CcbListener.StepKeepsIff`, `CcbListener.EarlyHeartbeat`).
- A blocking registration that reads a heartbeat instead of its answer leaves the listener without a phase (`CcbListener.RegistrationStartsIff`). The broker modelled here sends heartbeats only in reply to heartbeats (`src/ccb/ccb_server.cpp`, lines 664-666), so on a fresh connection this takes another broker.
- The command parser loses an escaped character in the last place, and tabs and NULs are not escaped (`GahpFraming.ParsesBackIff`).
- The walk also returns names that only absolute references mention, on which no evaluation in an alternate scope depends (`ClassAdDependence.MattersIff`, `ClassAdDependence.AbsoluteNamesDoNotMatter`).
- A week date of a year below 100 is read as one of the twentieth century, and possibly a week too late (`ViewWeeks.TwoDigitYears`).
- A worker whose wait times out after it was given a command, and before it looks, is removed together with the command (`GahpPool.NothingLostIff`).
- Delete reports success for an attribute that is already hidden (`ClassAdChain.DeleteAgreesIff`).
- After a restart of the annex daemon a failing check leaves behind what the earlier process made, since the rollback begins at the check (`AnnexCreate.AllOrNothing`, `AnnexCreate.LeftoversAfterRestart`).
- After a restart between creation and reply, giving up the rule or its target takes the lease from running instances (`AnnexCreate.InstancesAreLeased`, `AnnexCreate.LeaseLostAfterRestart`).
- A rollback of the annex that is restarted with the target still to undo never finishes (`AnnexCreate.RestartedRollbackFinishesIff`).
- The comment in `src/annex/FunctorSequence.h` says that the cleanup functor is called once; the code calls it until it stops asking to be called again, and calls its rollback after a failure. The model follows the code.

## Model

| member | source | states |
|---|---|---|
| `CcbServerProperties.RunKeeps` | src/ccb/ccb_server.cpp:448-1478 | In every run of the broker, restarts included however much of the unflushed part of the file they find, the invariant holds: the two request indexes agree, the counters balance, every connected target has a reconnect record, and the file says what the table says |
| `CcbServerProperties.StepKeeps` | src/ccb/ccb_server.cpp:448-1478 | Every handler keeps that invariant, whatever its sockets do |
| `CcbServerProperties.StartKeeps` | src/ccb/ccb_server.cpp:99-115 | A broker that starts without a reconnect file satisfies the invariant |
| `CcbServerProperties.RegistrationKeeps` | src/ccb/ccb_server.cpp:448-526 | A registration keeps the invariant: new target, accepted reconnect over a connection that is still there, refused claim, or a reply that cannot be written |
| `CcbServerProperties.RequestKeeps` | src/ccb/ccb_server.cpp:539-633 | A client request keeps the invariant: malformed, unknown target, forwarded, or not forwardable |
| `CcbServerProperties.ResultKeeps` | src/ccb/ccb_server.cpp:643-759 | A report from a target keeps the invariant: no request id, stale request, client gone, wrong connect id, or a reply |
| `CcbServerProperties.WithoutTargetIndexed` | src/ccb/ccb_server.cpp:1021-1053 | Hanging up on a target leaves the two request indexes in agreement |
| `CcbServerProperties.WithoutTargetCounted` | src/ccb/ccb_server.cpp:1021-1053 | Everybody hung up on is counted as failed, and the gauge of connected endpoints stays exact |
| `CcbServerProperties.FinishIndexed` | src/ccb/ccb_server.cpp:861-877 | Finishing a request takes it out of both indexes |
| `CcbServerProperties.FinishCounted` | src/ccb/ccb_server.cpp:861-877 | A finished request moves from live to succeeded or failed, and the sum of all requests balances |
| `CcbServerProperties.WithRequestIndexed` | src/ccb/ccb_server.cpp:1055-1093 | A new request enters both indexes |
| `CcbServerProperties.ReconnectedKeeps` | src/ccb/ccb_server.cpp:899-971 | A target that takes its identifier back replaces the connection it had; indexes, counters and records stay right |
| `CcbServerProperties.SweepKeeps` | src/ccb/ccb_server.cpp:1433-1478 | A sweep keeps the invariant, the rewritten file included |
| `CcbServerProperties.SweepDropsExactly` | src/ccb/ccb_server.cpp:1433-1478 | With a non-negative interval a sweep drops a record if and only if its identifier is unconnected and has been silent for more than two intervals; the other records keep cookie and address |
| `CcbServerProperties.SweepRemembersIff` | src/ccb/ccb_server.cpp:1449-1466 | A due sweep leaves every connected target its record if and only if the interval is not negative or nobody is connected: with a negative interval it drops the records of connected targets |
| `CcbServerProperties.SweepForgets` | src/ccb/ccb_server.cpp:1449-1473 | That is reachable: with an interval of -1 a target registers and the next sweep drops its record while it is connected |
| `CcbServerProperties.SweptPersists` | src/ccb/ccb_server.cpp:1390-1431 | After a sweep the file, appended to or rewritten in whatever order, says exactly what the table says |
| `CcbServerProperties.AddedPersists` | src/ccb/ccb_server.cpp:1363-1388 | Appending one line for a new target keeps the file equal to the table |
| `CcbServerProperties.RestartRemembers` | src/ccb/ccb_server.cpp:1320-1361 | After a process that closed its file, reading it back gives exactly the identifiers, cookies and addresses of the table that was in memory, the last record of an identifier winning |
| `CcbServerProperties.RestartRemembersFlushed` | src/ccb/ccb_server.cpp:1320-1361 | However a process ends, the next one has every record that was flushed, with its cookie and address |
| `CcbServerProperties.RestartPersists` | src/ccb/ccb_server.cpp:1320-1361 | However a process ends, what the next one finds in the file is again what its table says |
| `CcbServerProperties.RestartJumpsAheadIff` | src/ccb/ccb_server.cpp:1341-1359 | After loading, the next identifier is at least 100 above every loaded one if and only if neither the counter nor its jump wraps at 64 bits |
| `CcbServerProperties.ClaimStays` | src/ccb/ccb_server.cpp:448-1478 | No step changes or drops what is remembered of an identifier, except a sweep that finds it unconnected and silent for too long, and a restart that finds a record lost that was not flushed |
| `CcbCrash.CrashRiskIff` | src/ccb/ccb_server.cpp:1341-1359 | Far from the 64-bit wrap, a crash can lead to an identifier being handed out again that somebody still has if and only if a record is not flushed and the counter has come further than the jump of the next start takes it |
| `CcbCrash.HandedOutTwice` | src/ccb/ccb_server.cpp:1356-1388 | The jump of 100 does not help a process that has just started: the first identifier that it hands out before a flush, the next process hands out again after a crash |
| `CcbCrash.StepAhead` | src/ccb/ccb_server.cpp:974-1359 | Far from the wrap, every step and every restart keeps the counter above all remembered identifiers |
| `CcbCrash.NeverBelow` | src/ccb/ccb_server.cpp:974-1019 | Far from the wrap, one process never hands out an identifier below its counter that it does not remember |
| `CcbCrash.CanReach` | src/ccb/ccb_server.cpp:974-1019 | Far from the wrap, registrations alone make one process hand out any identifier from its counter on |
| `CcbAnswers.ReclaimedIff` | src/ccb/ccb_server.cpp:899-971 | A remembered identifier is confirmed if and only if the registration can be answered and claims it with the remembered cookie, from its address or where any address will do |
| `CcbAnswers.OnlyTheOwnerReturns` | src/ccb/ccb_server.cpp:899-1019 | From its first registration on, and through reconnects, sweeps and restarts as long as an identifier is remembered, nobody is confirmed under it without the cookie that came with it |
| `CcbAnswers.HeldIsGuarded` | src/ccb/ccb_server.cpp:899-971 | The same from any state of any run |
| `CcbAnswers.RegistrationAnswered` | src/ccb/ccb_server.cpp:448-526 | A registration is answered over its own connection: with an identifier that it is entitled to and the cookie it showed, or else with one that nobody has and a new cookie |
| `CcbAnswers.RegistrationConnects` | src/ccb/ccb_server.cpp:899-1019 | The new connection replaces the one that the identifier had, an unanswered one is dropped, and no other connection changes |
| `CcbAnswers.ToldIsRemembered` | src/ccb/ccb_server.cpp:494-519 | The cookie that is sent is the one that is remembered |
| `CcbAnswers.RequestAnswered` | src/ccb/ccb_server.cpp:539-633 | A request is rejected, forwarded unchanged over the connection of the target it names under an unused request id, or answered as failed, each over the right connection |
| `CcbAnswers.RequestLives` | src/ccb/ccb_server.cpp:575-633 | A forwarded request is live under the id that went out, with the connection it came by; no other request changes |
| `CcbAnswers.ResultAnswered` | src/ccb/ccb_server.cpp:643-759 | A report with the right connect id for a live request is passed on as it is over that request's connection, unless the client is gone; nothing else is; a heartbeat is returned to the target that sent one |
| `CcbAnswers.HangsUpIff` | src/ccb/ccb_server.cpp:643-759 | A target loses its connection if and only if it broke, its heartbeat cannot be returned, or its report has no request id or the wrong connect id for a live request |
| `CcbAnswers.RequestEndsIff` | src/ccb/ccb_server.cpp:643-877 | A live request ends if and only if a report closes it, its target's connection goes, or its client goes, and it does not change before |
| `CcbAnswers.EndIsCounted` | src/ccb/ccb_server.cpp:861-877 | A closed request is counted as the report says, and one whose client went away as succeeded |
| `CcbAnswers.RequestCounted` | src/ccb/ccb_server.cpp:575-633 | Every request is counted as received, and at once as not found or as failed if it is |
| `CcbAnswers.ReconnectCounted` | src/ccb/ccb_server.cpp:899-971 | A reconnect is counted if and only if the registration is entitled to its identifier |
| `CcbAnswers.ExpectationsCount` | src/ccb/ccb_server.cpp:1153-1195 | On a connection that stays, a request adds one expected result and has the socket watched; a report takes one away, and the socket is watched only while more are expected |
| `CcbAnswers.SweepsApart` | src/ccb/ccb_server.cpp:1442-1446 | Sweeps that look for expired records are at least an interval apart |
| `CcbReconnectFile.FileRoundTrip` | src/ccb/ccb_server.cpp:1320-1388 | Any list of records written line by line is read back record by record, through 128-byte reads, word splitting and number scanning |
| `CcbReconnectFile.ParseFormatted` | src/ccb/ccb_server.cpp:66-80 | A written line is parsed back into its address, identifier and cookie |
| `CcbReconnectFile.SignedNumbers` | src/ccb/ccb_server.cpp:66-73 | Whatever digits stand in the file mean their number, saturating at 64 bits; a sign is taken, and a minus counts down from the word size |
| `CcbReconnectFile.LineEndsFirst` | src/ccb/ccb_server.cpp:1328-1331 | A line ends after its newline, at the end of the file or after 127 characters, whichever comes first |
| `CcbServerSpec.FreshId` | src/ccb/ccb_server.cpp:974-1004 | The identifier found by counting up with wrap-around is held by nobody |
| `CcbServerSpec.FirstFree` | src/ccb/ccb_server.cpp:974-1004 | The first free identifier lies within as many steps as there are taken ones, and everything before it is taken |
| `CcbServerSpec.Pigeonhole` | src/ccb/ccb_server.cpp:981-1004 | A 64-bit counter that finds n identifiers taken in a row has met n different ones |
| `CcbServer.CcbServer.RemoveTarget` | src/ccb/ccb_server.cpp:1021-1053 | The hang-up loop ends because the indexes agree, and leaves the broker without the target and without its requests |
| `CcbServer.CcbServer.NewCcbid` | src/ccb/ccb_server.cpp:974-1004 | Gives an identifier held by no connected target and no record, within their number plus one rounds |
| `CcbServer.CcbServer.NewRequestId` | src/ccb/ccb_server.cpp:1055-1076 | Gives a request id held by no live request, within their number plus one rounds |
| `CcbServer.CcbServer.AddTarget` | src/ccb/ccb_server.cpp:974-1019 | A new target gets a fresh identifier, a record, a line in the file, and is counted |
| `CcbServer.CcbServer.ReconnectTarget` | src/ccb/ccb_server.cpp:899-971 | A claim is accepted if and only if the record, the address (unless any is allowed) and the cookie match; the old connection is dropped first |
| `CcbServer.CcbServer.AddRequest` | src/ccb/ccb_server.cpp:1055-1093 | A request gets a fresh id and enters both indexes |
| `CcbServer.CcbServer.RemoveRequest` | src/ccb/ccb_server.cpp:1105-1130 | A request leaves both indexes and nothing else changes |
| `CcbServer.CcbServer.FinishRequest` | src/ccb/ccb_server.cpp:861-877 | A request leaves both indexes and is counted once, as succeeded or as failed |
| `CcbServer.CcbServer.HandleRegistration` | src/ccb/ccb_server.cpp:448-526 | Registers or reconnects a target and keeps the invariant; the record that the source asserts exists |
| `CcbServer.CcbServer.HandleRequest` | src/ccb/ccb_server.cpp:539-633 | Rejects, forwards or fails a client request, answers accordingly, and keeps the invariant |
| `CcbServer.CcbServer.HandleRequestResultsMsg` | src/ccb/ccb_server.cpp:643-690 | Handles a hang-up, a heartbeat or a report from a target and keeps the invariant |
| `CcbServer.CcbServer.HandleResultMsg` | src/ccb/ccb_server.cpp:667-759 | A success is passed on only to the live request whose connect id the report carries; a report with a wrong connect id costs the target its connection |
| `CcbServer.CcbServer.HandleRequestDisconnect` | src/ccb/ccb_server.cpp:1095-1103 | A client that goes away finishes its request as succeeded |
| `CcbServer.CcbServer.AddReconnectInfo` | src/ccb/ccb_server.cpp:1258-1269 | A record is added or replaced, and only a new one is counted |
| `CcbServer.CcbServer.SaveReconnectInfo` | src/ccb/ccb_server.cpp:1363-1388 | One line is appended to the file, and not flushed |
| `CcbServer.CcbServer.FlushReconnectFile` | src/ccb/ccb_server.cpp:1437-1440 | Everything written reaches the disk, and nothing else changes |
| `CcbServer.CcbServer.constructor` | src/ccb/ccb_server.cpp:99-115 | A new process starts with what it finds in its file and nothing else |
| `CcbServer.CcbServer.LoadReconnectInfo` | src/ccb/ccb_server.cpp:1320-1361 | Reads every line of the file in order, skips those that do not parse, and jumps ahead by 100 |
| `CcbServer.CcbServer.LoadRecord` | src/ccb/ccb_server.cpp:1334-1354 | A record replaces an earlier one of its identifier and pushes the counter past it |
| `CcbServer.CcbServer.RefreshConnected` | src/ccb/ccb_server.cpp:1446-1459 | Every connected target is noted as alive; the record that the source asserts exists |
| `CcbServer.CcbServer.DropExpired` | src/ccb/ccb_server.cpp:1461-1473 | Exactly the expired records go, and the gauge of registered endpoints follows |
| `CcbServer.CcbServer.SaveAllReconnectInfo` | src/ccb/ccb_server.cpp:1390-1431 | The file is rewritten with every record once, in the order of the walk |
| `CcbServer.CcbServer.SweepReconnectInfo` | src/ccb/ccb_server.cpp:1433-1478 | A sweep flushes the file, does nothing more until it is due, then drops what has expired, rewrites the file if anything went, and keeps the invariant |
| `CcbProtocol.AnswersReturn` | src/ccb/ccb_server.cpp:643-877 | In every run of clients, broker and listeners, each going through its own states, with late and repeated messages, reconnects and restarts: an answer goes only over the connection on which a client asked with that connect id and return address; behind a success stands a hello that a listener wrote with the connect id to the address; behind a failure a report of one, or a request that could not be forwarded |
| `CcbProtocol.AttachedWasAskedFor` | src/ccb/ccb_listener.cpp:419-551 | In every run, a client is only attached to a listener whose connection the broker knew under an identifier this client had asked for |
| `CcbProtocol.AttachedAtMostOnce` | src/ccb/ccb_client.cpp:800-881 | In every run, at most one listener is ever attached to a client |
| `CcbConnect.CanConnect` | src/ccb/ccb_server.cpp:448-877 | From every state of clients, broker and listeners, while there are identifiers left, a new target can register and a new client be connected with it and told so over its own connection |
| `CcbProtocol.SettledStays` | src/ccb/ccb_client.cpp:800-881 | A client that gave up, or is attached, is not attached again, whatever happens |
| `CcbProtocol.HelloFirst` | src/ccb/ccb_listener.cpp:518-541 | Behind every success that a listener reported stands a hello that it wrote, and an order of the broker |
| `CcbProtocol.BrokerAnswers` | src/ccb/ccb_server.cpp:696-877 | Every answer that leaves the broker goes back to where its request came from, and is true |
| `CcbProtocol.StepReplies` | src/ccb/ccb_server.cpp:696-877 | The broker answers a live request, over its own connection, with the success of the report that carries its connect id, and one that it cannot forward with a failure |
| `CcbProtocol.StepForwards` | src/ccb/ccb_server.cpp:784-817 | A request is forwarded exactly as it was received, over the connection of the target it names |
| `CcbProtocol.ActionKeeps` | src/ccb/ccb_client.cpp:593-602 | Every action of a client, the broker or a listener keeps the trace invariant |
| `CcbClient.NothingBefore` | src/ccb/ccb_client.cpp:40-86 | Before it starts, a client has no connection and no callback can be delivered to it |
| `CcbClient.CompletesOnce` | src/ccb/ccb_client.cpp:534-881 | Whatever callbacks arrive in whatever order, an unfinished client is in the waiting table with an armed deadline; a finished one has left the reverse-connecting state exactly once, has no entry, timer, live callback or reference, and every incRefCount met one decRefCount |
| `CcbClient.AtMostOneRequestEach` | src/ccb/ccb_client.cpp:534-646 | At most one request per broker contact, and at most one more callback than there are contacts |
| `CcbClient.UnfinishedCanEnd` | src/ccb/ccb_client.cpp:656-881 | As long as the connect is under way a hello, the deadline and a cancellation can each be delivered, and each ends it |
| `CcbClient.StepSettles` | src/ccb/ccb_client.cpp:656-881 | A callback ends the connect if and only if it is a hello, a deadline, a cancellation, or a failure with no contact left; it connects if and only if it is a hello |
| `CcbClient.RunSettles` | src/ccb/ccb_client.cpp:534-881 | Once finished, no callback can be delivered any more |
| `CcbClient.CcbClient.ReverseConnect` | src/ccb/ccb_client.cpp:87-109 | Starts the connect, or fails at once without contacts |
| `CcbClient.CcbClient.TryNextCcb` | src/ccb/ccb_client.cpp:534-646 | Registers and asks the next broker, or completes with failure; somebody holds a reference throughout |
| `CcbClient.CcbClient.CCBResultsCallback` | src/ccb/ccb_client.cpp:656-705 | A failure moves on to the next broker, a success changes nothing but the callback; its own reference is dropped once |
| `CcbClient.CcbClient.RegisterReverseConnectCallback` | src/ccb/ccb_client.cpp:707-772 | Arms the deadline and enters the table, which held no such id |
| `CcbClient.CcbClient.UnregisterReverseConnectCallback` | src/ccb/ccb_client.cpp:785-798 | Disarms the deadline and leaves the table |
| `CcbClient.CcbClient.ReverseConnectCallback` | src/ccb/ccb_client.cpp:834-881 | The final stage: the socket leaves its state, a pending callback is cancelled, the table entry goes; no field is used after the last reference is gone |
| `CcbClient.CcbClient.ExitReverseConnectingState` | src/condor_io/reli_sock.cpp:1731-1750 | Leaves the reverse-connecting state, which the source asserts, and lets go of the client |
| `CcbClient.CcbClient.CancelReverseConnect` | src/ccb/ccb_client.cpp:648-654 | Completes an unfinished connect with failure and leaves a finished one alone |
| `CcbClient.CcbClient.DeadlineExpired` | src/ccb/ccb_client.cpp:774-783 | The deadline completes the connect with failure |
| `CcbClient.WaitingTable.ReverseConnectCommandHandler` | src/ccb/ccb_client.cpp:800-832 | A hello reaches the client that waits under its connect id, or nobody; the other clients are not touched |
| `CcbListener.ReportsAreTrue` | src/ccb/ccb_listener.cpp:419-579 | Over every run of a listener, whatever fails: a success that it reports comes right after the hello it wrote for the same order, and no order is greeted or reported more often than it was received |
| `CcbListener.StepFollows` | src/ccb/ccb_listener.cpp:356-551 | An event takes one order that it brings, or settles one that is under way, or leaves the reversed connections alone |
| `CcbReverse.CloseProper` | src/ccb/ccb_listener.cpp:507-551 | A connection that comes back is greeted, if it is made, before it is reported, and then it is under way no more |
| `CcbReverse.TakeProper` | src/ccb/ccb_listener.cpp:419-505 | An order that arrives is under way or reported as failed |
| `CcbListener.RegisteredSince` | src/ccb/ccb_listener.cpp:77-417 | Over every run without an early heartbeat: the listener is registered if and only if it has read a registration reply since its present connection was made |
| `CcbListener.RegisteredIff` | src/ccb/ccb_listener.cpp:356-417 | After a step the listener is registered if and only if it is connected and was registered or has just read a reply, from the socket or in a blocking registration |
| `CcbListener.StepLeaves` | src/ccb/ccb_listener.cpp:77-347 | Which connection every event leaves: made, pending or none |
| `CcbListener.PhaseIs` | src/ccb/ccb_listener.cpp:77-269 | Without a connection a started listener waits to reconnect, with a pending one to connect, and with an unconfirmed one for the registration |
| `CcbListener.StepBeats` | src/ccb/ccb_listener.cpp:280-329 | On every connection the heartbeat runs if and only if there is an interval and the broker is not too old for it |
| `CcbListener.IntervalIs` | src/ccb/ccb_listener.cpp:54-75 | A new setting is taken as it is, but no positive one below 30 seconds |
| `CcbListener.DisabledIff` | src/ccb/ccb_listener.cpp:280-300 | Heartbeats are given up if and only if the first broker met with an interval is too old for them |
| `CcbListener.ReversedWrites` | src/ccb/ccb_listener.cpp:507-584 | A reversed connection that comes back writes a hello if it was made, and a report if there is a connection to report on |
| `CcbListener.StepKeepsIff` | src/ccb/ccb_listener.cpp:77-417 | Every callback keeps: at most one phase, a pending socket only while connecting, the heartbeat only on a connected socket, no socket while the reconnect timer is armed, and exact references. The one exception, which always breaks it: a new heartbeat setting while a pending socket is already connected underneath |
| `CcbListener.RunKeeps` | src/ccb/ccb_listener.cpp:77-417 | After any callbacks without that exception the invariant holds, and a started listener is in exactly one phase |
| `CcbListener.NeverStuck` | src/ccb/ccb_listener.cpp:77-269 | In non-blocking use the listener is in exactly one phase from the first call on |
| `CcbListener.CallbacksFindTheListener` | src/ccb/ccb_listener.cpp:185-206 | The connect callback and every reversed connection find the listener alive, and the connect callback finds its own socket |
| `CcbListener.RegistrationStartsIff` | src/ccb/ccb_listener.cpp:77-111 | A registration leads to exactly one phase if and only if it does not block, or does not read something else than an answer |
| `CcbListener.HeartbeatInsteadOfAnswer` | src/ccb/ccb_listener.cpp:356-394 | A heartbeat read by a blocking registration leaves a connection in no phase; this broker sends none on a fresh connection, so it takes another one |
| `CcbListener.EarlyHeartbeat` | src/ccb/ccb_listener.cpp:280-347 | The exception is reachable: a heartbeat armed during a second connect gives up, and the connect callback is still to come with its socket and reference gone |
| `CcbListener.ReconfiguredKeepsIff` | src/ccb/ccb_listener.cpp:54-75 | A new heartbeat setting keeps the invariant if and only if it does not meet a pending socket that is connected underneath |
| `CcbListener.AnsweredKeeps` | src/ccb/ccb_listener.cpp:185-206 | The connect callback drops the connect reference exactly once, whichever way it goes |
| `CcbListener.CcbListener.RegisterWithCCBServer` | src/ccb/ccb_listener.cpp:77-111 | Registers unless a phase is under way |
| `CcbListener.CcbListener.SendRegistration` | src/ccb/ccb_listener.cpp:113-167 | Connects first if need be, and reports whether the message went out |
| `CcbListener.CcbListener.WriteMsgToCCB` | src/ccb/ccb_listener.cpp:169-183 | Writes only on an established connection; a failed write disconnects |
| `CcbListener.CcbListener.CCBConnectCallback` | src/ccb/ccb_listener.cpp:185-206 | Goes on to registration, or schedules a reconnect, and drops its reference |
| `CcbListener.CcbListener.Disconnect` | src/ccb/ccb_listener.cpp:232-269 | Drops socket, phases and heartbeat, and arms the reconnect timer once |
| `CcbListener.CcbListener.RescheduleHeartbeat` | src/ccb/ccb_listener.cpp:280-329 | Arms, keeps or stops the heartbeat |
| `CcbListener.CcbListener.ReadMsgFromCCB` | src/ccb/ccb_listener.cpp:356-394 | Reads an answer, a request, a heartbeat or nothing usable |
| `CcbListener.CcbListener.HandleCCBRequest` | src/ccb/ccb_listener.cpp:419-505 | The order is under way and holds a reference, or its failure is reported |
| `CcbListener.CcbListener.ReverseConnectDone` | src/ccb/ccb_listener.cpp:507-551 | The client is greeted if the connection is made; success is reported only after that, and the reference is dropped |
| `CcbListener.CcbListener.WriteHello` | src/ccb/ccb_listener.cpp:518-535 | The hello is written only on a connection that was made |
| `CcbListener.CcbListener.ReportReverseConnectResult` | src/ccb/ccb_listener.cpp:553-584 | The report goes out on the present connection or not at all |
| `CcbListener.CcbListener.FireHeartbeat` | src/ccb/ccb_listener.cpp:331-347 | A silent broker, or a failed write, disconnects |
| `CcbListener.CcbListener.FireReconnect` | src/ccb/ccb_listener.cpp:208-214 | The timer starts a new registration |
| `CcbListener.CcbListener.InitAndReconfig` | src/ccb/ccb_listener.cpp:54-75 | Heartbeats are at least 30 seconds apart, or off |
| `GahpFraming.RoundTrip` | src/arc_gahp/PipeBuffer.cpp:47-99 | Any lists of transparent arguments, written as result lines and cut in any way into reads of 1 to 1024 characters, come back through the pipe buffer and the parser, empty arguments as NULL |
| `GahpFraming.StreamReadsBack` | src/arc_gahp/arcgahp_common.cpp:185-232 | The lines of a written stream parse back into what was written |
| `GahpFraming.ParsesBackIff` | src/arc_gahp/arcgahp_common.cpp:185-232 | A written line parses back into its arguments if and only if none holds a tab or a NUL and the last does not end in space, backslash, CR or LF |
| `GahpFraming.FramingExact` | src/arc_gahp/PipeBuffer.cpp:47-99 | The framer cuts a stream of result lines into exactly the lines that were written |
| `GahpFraming.FrameSplits` | src/arc_gahp/PipeBuffer.cpp:47-99 | Framing may stop after any byte and go on later |
| `GahpFraming.ArgumentsRead` | src/arc_gahp/arcgahp_common.cpp:185-232 | What the parser delivers of plain arguments: all of them, but for a special character that ends the line |
| `GahpFraming.TabsSplit` | src/arc_gahp/arcgahp_common.cpp:185-232 | Every tab in an argument makes one argument too many |
| `GahpFraming.LastBlankIsLost` | src/arc_gahp/arcgahp_common.cpp:202-207 | A blank that ends the last argument is lost |
| `GahpFraming.PipeBuffer.GetNextLine` | src/arc_gahp/PipeBuffer.cpp:47-99 | Returns the first complete line of what is unread and leaves the rest to be framed; reads only when the readahead is spent |
| `GahpFraming.PipeBuffer.TakeLine` | src/arc_gahp/PipeBuffer.cpp:73-99 | Takes characters up to the first unescaped newline, and frames exactly what it takes |
| `GahpFraming.PipeBuffer.HandleChunk` | src/arc_gahp/io_loop_pthread.cpp:443-563 | One read yields exactly the lines that it completes |
| `GahpFraming.PipeBuffer.HandleInput` | src/arc_gahp/io_loop_pthread.cpp:443-563 | However the reads cut the input, the lines are those of the whole input |
| `GahpFraming.AppendEscapedArg` | src/arc_gahp/arcgahp_common.cpp:365-385 | Appends the escaped argument |
| `GahpFraming.CreateResultString` | src/arc_gahp/arcgahp_common.cpp:387-409 | Writes the request id and the escaped arguments, separated by single spaces, as one line |
| `GahpFraming.NumberReads` | src/arc_gahp/arcgahp_common.cpp:387-395 | The request id is written with the digits of its number, behind a minus if and only if it is negative |
| `GahpFraming.ParseGahpCommand` | src/arc_gahp/arcgahp_common.cpp:185-232 | Splits a line at unescaped separators |
| `GahpPool.RunKeepsCore` | src/arc_gahp/io_loop_pthread.cpp:359-919 | At every mutex release the worker counter is the size of the worker map and within min and max(min, max), commands wait only while every worker is busy, a worker holds at most one command, and every accepted command is in exactly one place |
| `GahpPool.RunOrderly` | src/arc_gahp/io_loop_pthread.cpp:568-637 | While threads are granted, commands wait only in a pool at its maximum, and workers get them in the order of arrival |
| `GahpPool.NothingLostIff` | src/arc_gahp/io_loop_pthread.cpp:859-915 | A run loses no command if and only if no worker times out with a command it has not seen while nothing is pending and there are workers to spare |
| `GahpPool.ACommandIsLost` | src/arc_gahp/io_loop_pthread.cpp:887-897 | That happens with two workers at least and a third that comes and goes |
| `GahpPool.Overlooked` | src/arc_gahp/io_loop_pthread.cpp:887-897 | From every pool with a waiting worker to spare and nothing pending, two steps lose a command |
| `GahpPool.StepKeepsCore` | src/arc_gahp/io_loop_pthread.cpp:568-919 | Every step between two mutex releases keeps size, busy flags, waiting and places |
| `GahpPool.StepOrderlyIff` | src/arc_gahp/io_loop_pthread.cpp:613-637 | A step keeps the order and the full pool if and only if it is not a refused thread |
| `GahpPool.StepLosesIff` | src/arc_gahp/io_loop_pthread.cpp:800-897 | A step loses a command if and only if it is such a time-out |
| `GahpPool.StepLocated` | src/arc_gahp/io_loop_pthread.cpp:687-759 | Commands move from place to place without being duplicated |
| `GahpPool.StepSound` | src/arc_gahp/io_loop_pthread.cpp:687-919 | The busy and waiting flags of every worker tell the truth at every mutex release |
| `GahpPool.StartKeeps` | src/arc_gahp/io_loop_pthread.cpp:423-441 | After start-up all this holds |
| `GahpPool.IOProcess.NewWorkerId` | src/arc_gahp/io_loop_pthread.cpp:657-685 | Gives an id that no worker has, also after the ids come round, with fewer than 989,999,999 workers |
| `GahpPool.IOProcess.CreateNewWorker` | src/arc_gahp/io_loop_pthread.cpp:568-594 | A new worker, or none and no trace of it if the thread is refused |
| `GahpPool.IOProcess.FindFreeWorker` | src/arc_gahp/io_loop_pthread.cpp:596-605 | Finds the worker with the lowest id that is not busy, if there is one |
| `GahpPool.IOProcess.AddNewRequest` | src/arc_gahp/io_loop_pthread.cpp:613-637 | A command goes to a free worker, to a new one, or to the end of the pending list |
| `GahpPool.IOProcess.AddRequestToWorker` | src/arc_gahp/io_loop_pthread.cpp:687-713 | A command is appended to one list |
| `GahpPool.IOProcess.PopRequest` | src/arc_gahp/io_loop_pthread.cpp:736-759 | A worker takes its own command first, then the oldest pending one |
| `GahpPool.IOProcess.TakeOrWait` | src/arc_gahp/io_loop_pthread.cpp:859-903 | A worker is busy with a command, or waits because there is none |
| `GahpPool.IOProcess.WorkerExit` | src/arc_gahp/io_loop_pthread.cpp:800-835 | A thread ends if and only if there are more than the minimum |
| `GahpPool.IOProcess.BeginThread` | src/arc_gahp/io_loop_pthread.cpp:837-903 | A new thread takes a command or waits |
| `GahpPool.IOProcess.WakeThread` | src/arc_gahp/io_loop_pthread.cpp:863-903 | A woken thread takes a command or waits |
| `GahpPool.IOProcess.TimeOutThread` | src/arc_gahp/io_loop_pthread.cpp:884-897 | A thread whose wait timed out takes a command, ends, or waits again |
| `GahpPool.IOProcess.FinishCommand` | src/arc_gahp/io_loop_pthread.cpp:900-917 | A finished command leaves its worker, which takes the next |
| `GahpPool.IOProcess.constructor` | src/arc_gahp/io_loop_pthread.cpp:423-441 | Starts the minimum number of workers, numbered from 1 |
| `ClassAdChain.ChainRefinesFlat` | src/classad/classad.cpp:598-886 | After any sequence of Insert, Delete, Remove and PruneChildAd on the child of a chain, every name shows what the same operations leave in a flat copy, reading UNDEFINED as absent and up to one SameAs comparison |
| `ClassAdChain.RunMirrors` | src/classad/classad.cpp:598-886 | Throughout, own attributes are the flat copy's own, or masks of attributes it lacks: pruning never drifts by more than one comparison |
| `ClassAdChain.ApplyMirrors` | src/classad/classad.cpp:598-854 | Each operation keeps that relation |
| `ClassAdChain.PruneMirrors` | src/classad/classad.cpp:2120-2157 | Pruning keeps that relation although SameAs is not transitive |
| `ClassAdChain.SameAsIff` | src/classad/classad/literals.h:225-378 | Two trees are the same if and only if they have the same nodes at the same places, but for reals and relative times, which may differ by the machine epsilon |
| `ClassAdChain.SameAsIsEquality` | src/classad/classad/literals.h:100-378 | Without reals and relative times, being the same is being equal |
| `ClassAdChain.PruneDropsExactly` | src/classad/classad.cpp:2120-2157 | Pruning drops an own attribute if and only if the parents show one with the same nodes, and every name shows the same as before |
| `ClassAdChain.InsertShows` | src/classad/classad.cpp:598-625 | After an insertion the name shows the new tree, and every other name what it showed |
| `ClassAdChain.DeleteHides` | src/classad/classad.cpp:771-854 | A deleted or removed name shows nothing, is masked only over a parent's attribute, and no other name is touched |
| `ClassAdChain.SameAsItself` | src/classad/classad.cpp:196-236 | SameAs is reflexive on trees of all kinds |
| `ClassAdChain.SameAsIsNotTransitive` | src/classad/classad/literals.h:232-240 | The comparison of reals allows a tolerance, so SameAs is not transitive |
| `ClassAdChain.RemoveAgrees` | src/classad/classad.cpp:821-854 | Remove hands out the same tree from the chain as from the flat copy, up to SameAs and UNDEFINED |
| `ClassAdChain.DeleteAgreesIff` | src/classad/classad.cpp:771-807 | Delete reports the same for both if and only if the chain does not show an UNDEFINED that stands for no attribute |
| `ClassAdChain.DeleteTwice` | src/classad/classad.cpp:784-807 | Deleting a parent's attribute twice is reported as success twice by the chain and once by the flat copy |
| `ClassAdChain.ClassAd.Lookup` | src/classad/classad/classad.h:298-311 | Finds what the chain shows |
| `ClassAdChain.ClassAd.InsertTree` | src/classad/classad.cpp:598-625 | Refuses an empty name or no tree, otherwise sets the attribute; no parent changes |
| `ClassAdChain.ClassAd.DeleteName` | src/classad/classad.cpp:771-807 | Removes the attribute and hides the parents' one; no parent changes |
| `ClassAdChain.ClassAd.RemoveName` | src/classad/classad.cpp:821-854 | Removes the attribute, hides the parents' one and hands out what was shown; no parent changes |
| `ClassAdChain.ClassAd.FindPrunable` | src/classad/classad.cpp:2126-2148 | Finds exactly the own attributes that are the same as the parents' ones |
| `ClassAdChain.ClassAd.PruneChildAd` | src/classad/classad.cpp:2120-2157 | Removes exactly the own attributes that are the same as the parents'; no parent changes |
| `ClassAdChain.ClassAd.Update` | src/classad/classad.cpp:875-886 | Takes over every attribute of an ad, also of itself |
| `ClassAdChain.ClassAd.UpdateFromChain` | src/classad/classad.cpp:175-185 | Takes over a whole chain, the nearest ad deciding |
| `ClassAdChain.ClassAd.CopyFromChain` | src/classad/classad.cpp:187-195 | Becomes a flat copy of what the chain shows, and refuses to copy itself |
| `ClassAdReferences.ReferencesSound` | src/classad/classad.cpp:1244-1451 | If the walk succeeds, alternate scopes of literals that agree on the returned names give the same evaluation, for any deterministic operators and functions and at any depth |
| `ClassAdDependence.MattersIff` | src/classad/classad.cpp:1319-1352 | If the walk succeeds, a name matters (some operator sees a difference between two alternate scopes that differ at most on it) if and only if a relative reference reaches it; and every name that matters is returned |
| `ClassAdDependence.ReachedMatters` | src/classad/attrrefs.cpp:385-490 | For every name that a relative reference reaches there are operators, and two alternate scopes that differ only on it, under which the expression evaluates differently |
| `ClassAdDependence.MattersOnlyIfReached` | src/classad/attrrefs.cpp:385-490 | A name that matters is reached by a relative reference, whether or not the walk succeeds |
| `ClassAdDependence.AbsoluteNamesDoNotMatter` | src/classad/attrrefs.cpp:475-490 | The walk returns a name that only an absolute reference mentions, and it never matters |
| `ClassAdReferences.OnlyReachedMatter` | src/classad/attrrefs.cpp:385-490 | Alternate scopes that agree on the names that relative references reach give the same evaluation, at any depth and for any operators, also where the walk gives up |
| `ClassAdReferences.EvalAgrees` | src/classad/attrrefs.cpp:174-218 | Evaluation depends on the alternate scope only through covered names, and lists it returns hold covered expressions only |
| `ClassAdReferences.ReferencesExact` | src/classad/classad.cpp:1319-1352 | A successful walk returns exactly the names that the expression can reach outside the ad |
| `ClassAdReferences.WalkFailsIff` | src/classad/classad.cpp:1337-1441 | The walk gives up if and only if some path spends more depth than there is |
| `ClassAdReferences.CyclesAreRefused` | src/classad/classad.cpp:1337-1352 | On a cycle of attributes the walk ends and gives up at every depth |
| `ClassAdReferences.EvalState.GetExternalReferences` | src/classad/classad.cpp:1244-1451 | Collects the names into the given set and restores the remaining depth |
| `ClassAdReferences.EvalState.WalkOperands` | src/classad/classad.cpp:1360-1375 | Operands are walked in turn at the same depth |
| `ClassAdReferences.EvalState.WalkArguments` | src/classad/classad.cpp:1377-1441 | Arguments and list elements are walked one level deeper, and the depth is restored |
| `AnnexSequence.RollbackIsComplete` | src/annex/FunctorSequence.cpp:70-101 | In every run, restarts included: when the last functor's rollback is called, the rollbacks of k, ..., 0 have each gone through in that order since the last restart, and no forward call followed the failure at k |
| `AnnexSequence.SuccessMeansAllDone` | src/annex/FunctorSequence.cpp:70-77 | In every run, when the last functor is called, all functors have gone through in index order and none was compensated |
| `AnnexSequence.RestartResumes` | src/annex/FunctorSequence.cpp:10-24 | A sequence rebuilt during a rollback resumes at the functor that failed |
| `AnnexSequence.RunKeeps` | src/annex/FunctorSequence.cpp:10-101 | Forward progress and compensation are exact at every moment of every run |
| `AnnexSequence.FunctorSequence.constructor` | src/annex/FunctorSequence.cpp:10-24 | Resumes a logged rollback, or begins at the first functor |
| `AnnexSequence.FunctorSequence.Log` | src/annex/FunctorSequence.cpp:26-52 | Records the place at which the rollback begins |
| `AnnexSequence.FunctorSequence.Call` | src/annex/FunctorSequence.cpp:70-101 | Calls the functor whose turn it is and moves on, stays, turns back or ends |
| `AnnexSequence.FinishedIff` | src/annex/FunctorSequence.cpp:70-101 | The sequence is over if and only if its closing functor, or the rollback of it, was called last and did not ask to be called again |
| `AnnexCreate.AttemptCountsOnce` | src/annex/PutRule.cpp:30-93 | An attempt counts once however often its answer is asked for; the third refusal gives up, unless a bulk request asks for more; a grant clears the count |
| `AnnexCreate.ForwardMakes` | src/annex/PutTargets.cpp:8-102 | A granted call makes its own thing and nothing else, and a known request makes none |
| `AnnexCreate.BackRemoves` | src/annex/PutTargets.cpp:110-135 | A granted compensating call removes its own thing and nothing else |
| `AnnexCreate.CheckDecides` | src/annex/CheckConnectivity.cpp:9-91 | The connectivity check decides alone and leaves no trace; the other checks stop at once or at the third refusal |
| `AnnexCreate.KnownRequestPasses` | src/annex/BulkRequest.cpp:307-330 | A known request goes through without a call |
| `AnnexCreate.RestartKnows` | src/annex/FunctorSequence.cpp:10-24 | A new process knows the request and the attempts, but not the rule's name nor the call under way |
| `AnnexCreate.AllOrNothing` | src/annex/annex-create.cpp:337-362 | In every run, restarts included, whose compensating calls succeed: at success rule, target and instances all exist; at the end of a rollback none does if and only if, when the run turned back, nothing existed that an earlier process had made beyond the functor that failed |
| `AnnexCreate.FailureClearsIff` | src/annex/FunctorSequence.cpp:87-100 | A forward failure leaves only what its rollback comes by if and only if no rule or target exists beyond the failing functor and no instances run |
| `AnnexCreate.StepClearsIff` | src/annex/PutTargets.cpp:110-135 | A step of a rollback, restarts included, leaves nothing behind it if and only if no compensating call with something to undo is refused |
| `AnnexCreate.LeftoversAfterRestart` | src/annex/CheckConnectivity.cpp:9-91 | The failing case is reachable: rule and target are made, the daemon restarts, and the connectivity check fails; the rollback ends with both still there |
| `AnnexCreate.InstancesAreLeased` | src/annex/annex-create.cpp:425-440 | In every run, restarts included: running instances have rule and target at every moment and after whatever can happen next if and only if the rule and the target are never given up while the granted request is known |
| `AnnexCreate.StepSafeIff` | src/annex/PutRule.cpp:80-93 | A step keeps every rollback away from the lease of running instances if and only if it does not give up the rule or the target while the granted request is known |
| `AnnexCreate.DesertedLoses` | src/annex/PutTargets.cpp:110-135 | After such a step the next compensating call that is granted takes the lease |
| `AnnexCreate.LeaseLostAfterRestart` | src/annex/PutTargets.cpp:86-102 | That is reachable: a restart before the reply, then a refused target, leaves instances without a target |
| `AnnexCreate.RestartedRollbackFinishesIff` | src/annex/PutTargets.cpp:110-116 | A restarted rollback can finish if and only if the functor that failed comes before the target; then it never aborts, and otherwise it never removes target or rule, however often it is restarted: the rebuilt functors do not know the rule's name |
| `AnnexCreate.OneProcessIsClean` | src/annex/annex-create.cpp:337-362 | A process that is never restarted meets both conditions, whatever the calls return, and never aborts |
| `AnnexCreate.Annex.Attempt` | src/annex/PutRule.cpp:30-55 | An attempt is counted once, however often its answer is asked for, and given up at the third refusal |
| `AnnexCreate.Annex.PutRule` | src/annex/PutRule.cpp:8-97 | A granted rule exists and its name is known |
| `AnnexCreate.Annex.PutTargets` | src/annex/PutTargets.cpp:8-102 | A granted target exists; the rule's name must be known |
| `AnnexCreate.Annex.RequestInstances` | src/annex/BulkRequest.cpp:307-400 | A granted request runs instances and is remembered; a remembered one is not repeated |
| `AnnexCreate.Annex.Compensate` | src/annex/BulkRequest.cpp:402-424 | A compensating call is waited for and given up when refused |
| `AnnexCreate.Annex.CallFunctor` | src/annex/annex-create.cpp:337-362 | The functors in their order, forward and back |
| `AnnexCreate.Annex.Timer` | src/annex/FunctorSequence.cpp:70-101 | One timer call of the whole create sequence |
| `AnnexCreate.Annex.Resume` | src/annex/FunctorSequence.cpp:10-24 | A new process knows what is logged: the place of a rollback, the request and the attempts, and no more |
| `ViewWeeks.WeekLabelsRoundTrip` | view/htcondorview.js:1003-1065 | For every day of a four-digit year, parsing its week's label gives the Monday of its own week, and that Monday has the same label |
| `ViewWeeks.LabelReadsBackIff` | view/htcondorview.js:1025-1065 | A label is read back as its Monday if and only if the year of the week has four digits |
| `ViewWeeks.WeekYearsKeepFourDigits` | view/htcondorview.js:1017-1022 | A day of a four-digit year belongs to a week of a four-digit year |
| `ViewWeeks.WeekCounts` | view/htcondorview.js:1003-1014 | Week numbers are between 1 and 53 and count Thursdays from the first Thursday of the year |
| `ViewWeeks.WeekStartIsMonday` | view/htcondorview.js:1051-1065 | Week number and year lead back to the Monday of the week |
| `ViewWeeks.MondayHasLabel` | view/htcondorview.js:691-699 | Every day of a week has the label of its Monday |
| `ViewWeeks.NewYear2016` | view/htcondorview.js:1003-1022 | 2 January 2016 is in week 53 of 2015, and 4 January begins week 1 |
| `ViewWeeks.TwoDigitYears` | view/htcondorview.js:1051-1065 | A week date of a year below 100 is read as one of the twentieth century, and a week too late if that year begins from Monday to Thursday |
| `ViewWeeks.NamesComplete` | view/htcondorview.js:706-736 | The file of every day or week of the span is in the list |
| `ViewWeeks.NamesNeeded` | view/htcondorview.js:706-736 | Every file in the list is that of a day or week of the span |
| `ViewWeeks.FilesCover` | view/htcondorview.js:706-736 | Every instant of the span is in one of the daily or weekly files |
| `ViewWeeks.FilesNeeded` | view/htcondorview.js:706-736 | Every file meets the span, and there are at most two if the span is at most one step long |
| `ViewWeeks.YearLength` | view/htcondorview.js:1010-1012 | Years have 365 or 366 days by the Gregorian rule, which is what the host's day numbers add up to |
| `ViewWeeks.JsDate.GetUTCWeek` | view/htcondorview.js:1003-1014 | The week number after section 4.1.4 of ISO 8601:2004 |
| `ViewWeeks.JsDate.GetUTCWeekYear` | view/htcondorview.js:1017-1022 | The year that the week belongs to |
| `ViewWeeks.JsDate.GetUTCISOWeekDate` | view/htcondorview.js:1025-1031 | The label of the week |
| `ViewWeeks.ParseMore` | view/htcondorview.js:1051-1065 | A week date means midnight on its Monday; other strings are left to the host |
| `ViewWeeks.WeekDate` | view/htcondorview.js:1057-1064 | Midnight on the Monday of a week, by number and year |
| `ViewWeeks.Truncate` | view/htcondorview.js:686-699 | Midnight of the day, or of the Monday of the week |
| `ViewWeeks.GetFilesAide` | view/htcondorview.js:706-736 | Lists, in order, the file of every instant of the span and no other, and moves the end date that it was given |

## Left out

- Sockets, security sessions, epoll and pipe plumbing, and the registration of handlers: each read or write is an outcome chosen by the environment.
- The broker's target and request objects are entries of its tables, not objects of their own; that a pointer to one of them is kept elsewhere and outlives it is not captured. The worker objects of the pool are modelled in the same way.
- CcbServer.CcbServer.HandleRegistration: the client-side name and version attributes of the message, which are only logged.
- CcbServer.CcbServer.SaveAllReconnectInfo: writing to a second file and renaming it is one step; a fault between the two is not modelled.
- CcbServer.CcbServer.FlushReconnectFile: what a crash leaves of the unflushed lines is any number of whole lines; a line cut in the middle is not modelled.
- CcbServer.CcbServer.RemoveTarget: hanging up on the waiting clients is not shown as messages to them.
- Counters are unbounded integers; identifiers, cookies and their wrap-around are 64 bits wide.
- Changes of the reconnect file's name at reconfiguration.
- The client's blocking mode, its special case for a broker in the same process, and contacts without `#`: the model takes contacts that are well-formed.
- CcbListener.CcbListener.ReadMsgFromCCB: answers and requests that lack attributes end the process in the source and are not among the messages here.
- GahpPool.IOProcess.constructor: start-up is one step, before the first thread takes the mutex.
- GahpPool.IOProcess.NewWorkerId: the case of 989,999,999 workers or more, in which the source may return -1 or search on, is excluded.
- Results of commands, proxies and the HTTP calls of the GAHP.
- GahpFraming.PipeBuffer.GetNextLine: must not be called again after a read error, after which the source ends the process.
- Attribute names are taken folded to one case. Real literals are real numbers without NaN.
- ClassAdChain.SameAsItself: nested ads have no chained parents of their own.
- ClassAdReferences.ReferencesSound: expressions without scoped references, nested ads and special names, over one root ad, so the current ad never changes; a strategy asks a bounded number of questions (any bound) and spends one unit of depth on every list element.
- ClassAdDependence.MattersIff: the same expressions and operators as in the line above, and an expression is looked at through one operator, since a list is a value as it stands.
- ClassAdReferences.EvalState.GetExternalReferences: the variant that reports full names, and the port version of the walk.
- Flatten, internal references, dirty tracking and the experimental rectangle code of ClassAds.
- CcbServer.CcbServer.SaveReconnectInfo: failures to write the file.
- CcbClient.CcbClient.TryNextCcb: a callback that arrives while the message is being sent is a later event.
- ClassAdChain.ClassAd.UpdateFromChain: chains that contain the ad that is being updated.
- ClassAdChain.ClassAd.CopyFromChain: chains in which the ad that becomes the copy is a parent.
- AnnexCreate.AllOrNothing: a call takes effect in the cloud when its answer is read; a crash between the two is not modelled.
- AnnexCreate.Annex.RequestInstances: an on-demand start that succeeds without instances.
- Uploads, connectivity and function checks of the annex have no cloud state here; the replies, setup and status code are not modelled.
- ViewWeeks.GetFilesAide: daily files are named by their day number, since writing and parsing calendar dates is left to the host; monthly files and the URL around a name are not modelled.
- ViewWeeks.ParseMore: strings that are no week dates are left to the host.
- ViewWeeks.Truncate: weekly truncation is taken for years of four digits, outside of which the label cannot be read back.
- `HashTable`, `Lookup` in derived classes and libraries that the source calls are taken at their documented meaning; the `HashTable` source is not part of this model.
