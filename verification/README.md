# yRPC, modelled and proved

yRPC is a peer-to-peer RPC runtime. This project models the parts of it that are hard to get
right, and proves what they are there for.

**Link establishment** (`LinkProtocol`, `LinkInvariant`, `LinkTheorems`, `LinkLate`,
`LinkTimeouts`, `PeerTable`). Two processes may connect to each other at the same moment. Each has
a sending thread and an event thread; every critical section under `m_link_mutex`, every connect,
send, receive and disconnect is one step, and the steps of all four threads interleave freely over
connections that are first-in-first-out in each direction. The reply to a link request always carries the byte 1,
because it is serialized before the decision is made; agreement rests on the second look at the
table and on the choice of the connection that carries the reply. The invariant follows each
attempt as a token that is in one place at a time: a request in flight, the peer's event thread,
or a response in flight. From it come agreement, the absence of deadlock, termination by a
measure, and the fact that closing the losing connection never discards a message.
`LinkTimeouts` and `LinkLate` say which timeouts are harmless: all of those that come after the
peer has decided on the request, in any number, by an invariant of their own. A single one that
comes earlier can leave the tables different for good, and a complete run shows how. `PeerTable`
ties the two-process protocol to the code over a table of many peers, and handles disconnects.

**Calls and responses** (`Correlation`, `Responses`, `CallHistory`, `Deliveries`, `LookupRaces`,
`Lookups`, `ProxyTable`, `ProxyCall`). Any number of processes, callers and handlers share 32-bit
ids that wrap around. Messages are delayed, overtaken and lost; calls time out at any moment;
handlers answer late, twice or never. Finding a proxy and writing into it are separate steps, so a
call may finish between them; filing a proxy and taking its mutex are two as well. So are the two
halves of a lookup: the iterator it sets and reads is a member of the table, shared by all
readers. That makes correlation false of the code in general: two local calls whose responses are
looked up at the same time can get each other's. It holds exactly where lookups do not overlap, in
particular in every process that does not call its own modules. What a call returns and where its
data comes from is read off the run itself. `ProxyTable` has the code take these steps one by one.
`ProxyCall` follows one call through the byte buffers of both processes and compares it with the
local path.

**The wire format** (`Buffers`, `MessageHeads`, `BodyHeads`, `Messages`). The bit-packed header
of 32 bytes, the tag/length/value body head and the user data, as arrays of bytes written and
read in place. The receiver finds the user data by recomputing the size of the body head from the
fields it parsed; exactly when that is right is a theorem.

**Lists and tables** (`IntrusiveList`, `SendThread`, `Tables`, `Observers`, `ObserverCalls`,
`Deadlines`). The intrusive list with its pointers to pointers, the send list and the loop that
drains it, the registry of observers, the lookup tables, and the deadline arithmetic.

Classes carry the fields the C++ objects have and are changed in place; their contracts tie them
to functions on values, about which the lemmas speak.

## Model

| member | source | states |
|---|---|---|
| LinkTheorems.LinkAgreement | src/rpc_core.cpp:1138-1301 | Over every interleaving without timeouts, once no link attempt or link message is outstanding the two table entries are both absent or the same connection with both ends open; if the process with the smaller name ever entered a connection of its own, that one survives |
| LinkTheorems.QuietAgrees | src/rpc_core.cpp:1180-1232 | The agreement, as a consequence of the invariant in any state at rest |
| LinkTheorems.LinkSafety | src/rpc_core.cpp:1257-1295 | In every reachable state no step writes to or frees a connection that either end has freed, freeing one discards nothing in flight, and the reply byte that requestLink reads is always 1 |
| LinkTheorems.ConflictThenEntry | src/rpc_core.cpp:1065-1089 | A requestLink that returned 1 leaves an entry that the next lookup finds; a message meets at most one such conflict and at most three failed connects |
| LinkTheorems.StepDecreases | src/rpc_core.cpp:1065-1109 | Every step other than taking a message lowers a measure, so retries cannot go on for ever |
| LinkTheorems.NoDeadlock | src/rpc_core.cpp:1193-1198 | In a reachable state in which something is left to do, some step can be taken: nobody waits for an answer that will not come |
| LinkTheorems.RunsAreShort | src/rpc_core.cpp:1065-1109 | A run that takes no new message is no longer than the measure it starts with |
| LinkTheorems.EveryRunSettles | src/rpc_core.cpp:1011-1301 | From any reachable state every continuation comes to rest within the measure, and at rest all messages are sent or dropped, all link messages answered and read, and the two tables equal |
| LinkTheorems.FailsAreCounted | src/rpc_core.cpp:1071-1078 | The failure count of a thread never exceeds the connects that failed for it |
| LinkTheorems.DropNeedsThreeFailures | src/rpc_core.cpp:1071-1078 | On every run, with timeouts too, a message is dropped only after three failed connects |
| LinkTimeouts.TimeOutsDecide | src/rpc_core.cpp:1193-1228 | For any two names and every n: all runs with at most n timeouts have equal tables when no attempt or link message is outstanding, if and only if n is 0 |
| LinkTimeouts.EarlyTimeOutsDecide | src/rpc_core.cpp:1193-1228 | For any two names and every n: all runs with any number of timeouts, at most n of them of waits whose request the peer has not yet decided on, have equal tables when nothing is under way, if and only if n is 0 (ids of a process not repeating) |
| LinkTimeouts.LateTimeoutsAgree | src/rpc_core.cpp:1224-1227 | However many waits time out, as long as none does before the peer has decided on its request, the two tables agree whenever no attempt, link message or closing is under way |
| LinkTimeouts.TimeoutBreaksAgreement | src/rpc_core.cpp:1224-1227 | For any two names, a run with exactly one timeout and no repeated id that comes to rest with an entry on one side and none on the other: the delayed request of the abandoned connection replaced the newer entry |
| LinkTimeouts.OvertakenIsReached | src/rpc_core.cpp:1279-1284 | The state of that run in which the abandoned request has replaced the newer entry is reached with one timeout |
| LinkTimeouts.LateRunKeeps | src/rpc_core.cpp:1011-1301 | The invariant for late timeouts holds along every such run |
| LinkTimeouts.EarlyAreTimeOuts | src/rpc_core.cpp:1196 | The early timeouts of a run are among its timeouts |
| LinkLate.StepKeeps | src/rpc_core.cpp:1011-1301 | Every step, late timeouts included, keeps the invariant: an entry for a connection of one side is matched at the other, or is about to be announced, overruled or closed; an answer that arrives finds the tables in order |
| LinkLate.CalmAgrees | src/rpc_core.cpp:1180-1232 | In a state with that invariant and nothing under way the tables agree |
| LinkLate.TimeOutLo | src/rpc_core.cpp:1196-1203 | A late timeout keeps the invariant, for the smaller name |
| LinkLate.TimeOutHi | src/rpc_core.cpp:1196-1203 | The same for the larger name |
| LinkLate.RecheckLo | src/rpc_core.cpp:1204-1232 | The second critical section of requestLink keeps it, for the smaller name, after an answer or a timeout |
| LinkLate.RecheckHi | src/rpc_core.cpp:1204-1232 | The same for the larger name |
| LinkLate.RespondLo | src/rpc_core.cpp:1271-1295 | The decision of responseLink keeps it at the smaller name, also when its entry is a connection the peer has given up |
| LinkLate.RespondHi | src/rpc_core.cpp:1271-1295 | The decision of responseLink keeps it at the larger name |
| LinkLate.WakeHi | src/rpc_core.cpp:1365-1377 | An answer that reaches the larger name, also a belated one, keeps it |
| LinkLate.DiscardOk | src/rpc_core.cpp:1084 | Closing a connection with messages under way loses no request and no end-of-file |
| LinkInvariant.StepKeeps | src/rpc_core.cpp:1011-1301 | Every step other than a timeout keeps the invariant: each attempt is in exactly one place, entries are attempts of one of the two sides, the smaller name's attempt once entered is never replaced, freed connections are referred to by nobody |
| LinkInvariant.RunKeeps | src/rpc_core.cpp:1011-1301 | The invariant holds along every run without timeouts |
| LinkInvariant.InitInv | src/rpc_core.cpp:1011-1023 | It holds at the start |
| LinkInvariant.NothingDiscarded | src/rpc_core.cpp:1082-1086 | When the thread disconnects after a lost conflict no message is in flight on that connection in either direction |
| LinkInvariant.EnterLo | src/rpc_core.cpp:1180-1191 | The first critical section of requestLink keeps the invariant and every packet's promise, for the smaller name |
| LinkInvariant.EnterHi | src/rpc_core.cpp:1180-1191 | The same for the larger name |
| LinkInvariant.RecheckLo | src/rpc_core.cpp:1204-1232 | The second critical section of requestLink keeps the invariant, for the smaller name |
| LinkInvariant.RecheckHi | src/rpc_core.cpp:1204-1232 | The same for the larger name, whose entry may have been replaced while it waited |
| LinkInvariant.RespondLo | src/rpc_core.cpp:1271-1295 | The decision of responseLink keeps the invariant at the smaller name, where its own entry stands and carries the reply |
| LinkInvariant.RespondHi | src/rpc_core.cpp:1271-1295 | The decision of responseLink keeps the invariant at the larger name, where the new connection replaces the entry |
| LinkInvariant.WakeLo | src/rpc_core.cpp:1365-1377 | A link response wakes the attempt it answers and no other, at the smaller name |
| LinkInvariant.WakeHi | src/rpc_core.cpp:1365-1377 | The same at the larger name, also when the response comes over the peer's connection |
| LinkInvariant.CloseLo | src/rpc_core.cpp:1084-1085 | Disconnecting after a lost conflict keeps the surviving entry, at the smaller name |
| LinkInvariant.CloseHi | src/rpc_core.cpp:1084-1085 | The same at the larger name |
| LinkInvariant.EofLo | src/rpc_core.cpp:804-809 | The peer's end-of-file never removes a live entry, at the smaller name |
| LinkInvariant.EofHi | src/rpc_core.cpp:804-809 | The same at the larger name |
| PeerTable.PeerTableIsSound | src/rpc_core.cpp:1180-1290 | Over every run with truthful names each entry of m_process_connect_hash is a connection with the process it is filed under |
| PeerTable.StepKeepsSound | src/rpc_core.cpp:1180-1290 | Every table operation, disconnects and observer operations included, keeps that |
| PeerTable.DisconnectForgets | src/rpc_core.cpp:804-809 | After such a run the first-match removal on a disconnect leaves no entry for the connection, no observer list holds it, and no other entry is touched |
| PeerTable.DisconnectMissesIff | src/data_structure/string_hash.cpp:86-98 | An entry for the connection stays behind exactly when two names hold it |
| PeerTable.RespondIsProtocolStep | src/rpc_core.cpp:1271-1295 | What responseLink does to a table of many peers is, for the sender, the protocol step, with the reply on the same connection, and nothing for anyone else |
| PeerTable.EnterIsProtocolStep | src/rpc_core.cpp:1180-1191 | The same for the first critical section of requestLink |
| PeerTable.RecheckIsProtocolStep | src/rpc_core.cpp:1204-1232 | The same for the second one, whose result 0 is the protocol's going on to send |
| PeerTable.RespondMeans | src/rpc_core.cpp:1271-1295 | An existing entry stays exactly if this process has the smaller name by the byte order of strings, otherwise the new connection replaces it; the reply goes out on the connection that is the entry from then on |
| PeerTable.RecheckMeans | src/rpc_core.cpp:1204-1232 | After a result of 0 the entry is the own connection, after -1 there is none, after 1 it is the connection that carried a byte 0 or else what it was before; when each result comes; no other entry changes |
| PeerTable.Links.RequestLinkEnter | src/rpc_core.cpp:1180-1191 | The code makes exactly the specified change to the whole table and registry and returns 1 exactly when there is an entry |
| PeerTable.Links.RequestLinkRecheck | src/rpc_core.cpp:1204-1232 | The code makes exactly the specified change, with results 1, 0 and -1 where the entry has changed or the byte is 0, the entry stands, and no response came |
| PeerTable.Links.ResponseLink | src/rpc_core.cpp:1271-1295 | The code makes exactly the specified change and replies on the connection the specification names |
| PeerTable.Links.OnDisconnect | src/rpc_core.cpp:804-809 | Both tables lose the connection as specified |
| Names.LessIs | src/rpc_core.cpp:1275 | The order of the tie-break is that of `operator<` on strings: one name is a proper prefix of the other, or has the smaller byte where they first differ |
| Names.LessTotal | src/rpc_core.cpp:1275 | Of two distinct names exactly one is the smaller, so the tie-break is decisive |
| Names.LessTransitive | src/rpc_core.cpp:1275 | The string order is transitive |
| LookupRaces.OverlapsDecide | src/data_structure/uint_hash.cpp:66-74 | For any process and every n: over all runs with at most n lookups in its m_proxy_hash begun while another one is between setting and reading the iterator, each response stored for a call of the process answers that call, if and only if n is 0 |
| LookupRaces.OverlapMisroutes | src/rpc_core.cpp:369-371 | For any process and any two of its functions, a run with one overlapping lookup in which, of two calls to its own modules, one returns 0 with the response to the other |
| LookupRaces.OutwardCallersAreSafe | src/rpc_core.cpp:1376-1411 | A process that makes no call to its own modules has no overlapping lookups, whatever others do, and each of its calls gets its own response |
| LookupRaces.NoOverlaps | src/rpc_core.cpp:1376-1411 | From any state reached without local calls, the event thread being the only reader, no lookup overlaps another |
| LookupRaces.Race | src/data_structure/uint_hash.cpp:70-71 | From any reachable state with two local calls waiting for responses that are under way, four steps bring the response of one to the other |
| Responses.ResponsesReachTheirCall | src/rpc_core.cpp:330-396 | Over every run in which the lookups of a process do not overlap, a response in the proxy of one of its calls was built for that call's own request: same id, module and function, sender and receiver swapped; other processes may race as they like |
| CallHistory.HandlersGaveTheData | src/rpc_core.cpp:366-369 | Over every run the data of a response a call holds or has read was given by a handler in answer to the request of the call it was built for, this very call if the lookups of its process do not overlap |
| CallHistory.RequestIsAsked | src/rpc_core.cpp:449-452 | Over every run a call was made by one action of its caller, as the n-th id of its process, and its request carries the callee, module, function and data given there |
| CallHistory.HandlersGetRequests | src/rpc_core.cpp:1412-1421 | Over every run what a handler is given is the request of a call, unchanged |
| CallHistory.ResultIsItsHistory | src/rpc_core.cpp:476-527 | Over every run a call that has returned has returned -1 if it timed out or was rejected and 0 otherwise; a one-way call never waits and reads nothing |
| CallHistory.StepSourced | src/rpc_core.cpp:330-396 | Every step keeps each response under way, looked up, stored or read tied to an answer some handler gave |
| Deliveries.MessagesAreConserved | src/rpc_core.cpp:995-1009 | Over every run what is under way is what was put there and has not left, the lookups under way are those begun and not ended, and the writes to come are those of lookups that found a call, as multisets |
| Deliveries.ServedAtMostOnce | src/rpc_core.cpp:1412-1421 | Over every run the request of a call reaches a handler at most once, and no more often than it was queued |
| Responses.RunOwn | src/rpc_core.cpp:995-1009 | Over such a run from any state in order, what is stored, read, found and looked up for the process stays its own |
| Responses.OwnKeeps | src/rpc_core.cpp:995-1009 | Every step but an overlapping lookup keeps that |
| Lookups.OverlapsDecide | src/data_structure/string_hash.cpp:66-74 | In a table with any keys and values, over all runs with at most n overlapping lookups every reader fetches the entry of its own key, if and only if n is 0; this is StringHash::find, UINTHash::find and the two lookups of ObserverHash |
| Lookups.OverlapMisleads | src/rpc_observer.cpp:92-100 | With one overlap a reader fetches another key's entry |
| Lookups.OneReaderIsSafe | src/data_structure/string_hash.cpp:66-74 | The lookups of a single thread never overlap |
| Responses.NoLostWakeup | src/rpc_core.cpp:474-527 | Over every run, overlapping lookups included, a response is stored only once the caller has begun to wait, although the mutex is free between the insert into the table and the lock; a signalled caller has one, and a two-way call that returns success has read one, its own if the lookups of its process do not overlap |
| Responses.WaitReadsLastStored | src/rpc_core.cpp:524-527 | Over every run a call whose wait ended, by a signal or by the clock, returns for good with the message last stored before the caller had the mutex back, and with none exactly if nothing had been stored; the message answers this call if the lookups of its process do not overlap |
| Responses.StoredIsLast | src/rpc_core.cpp:1003-1006 | At every moment of every run a proxy holds what was last written into it |
| Responses.FinishedStays | src/rpc_core.cpp:525-526 | What a call returned with never changes, whatever is still written into its proxy |
| Responses.PendingIdsAreFresh | src/rpc_core.cpp:474-475 | Over every run with fewer than 2^32 ids issued since anything still alive got its own, the ignored insert into the pending table succeeds |
| Correlation.RegisterSucceeds | src/data_structure/uint_hash.cpp:100-112 | In a state that satisfies the invariant the id of a call about to register is not in the table |
| Correlation.SameIdSameCall | src/rpc_core.cpp:986-993 | Two calls of a process fewer than 2^32 ids apart with the same id are the same call |
| Responses.IdsRepeatIff | src/rpc_core.cpp:986-993 | Two calls get the same id exactly when a multiple of 2^32 ids lies between them |
| Correlation.StepKeeps | src/rpc_core.cpp:330-527 | Every step of callers, handlers, network, event threads and workers keeps the invariant over calls, messages, lookups and the pending table |
| Correlation.RunKeeps | src/rpc_core.cpp:330-527 | The invariant holds along every run, with overlapping lookups too |
| Correlation.LookupIsOrigin | src/rpc_core.cpp:999 | What is filed under the id of a response is, if anything, the very call it was built for, even across wrapped ids |
| Correlation.SeekKeeps | src/data_structure/uint_hash.cpp:70 | Setting the iterator keeps the invariant: it stands at a call whose request is queued, or at the end |
| Correlation.FetchKeeps | src/data_structure/uint_hash.cpp:71 | So does reading it, wherever another lookup has moved it |
| Correlation.StoreKeeps | src/rpc_core.cpp:1003-1006 | The delayed write keeps the invariant of all runs whatever call the lookup ended at, one that has finished meanwhile included |
| Correlation.RespondKeeps | src/rpc_core.cpp:366-374 | A handler's response, at whatever time and however often, belongs to its request's call |
| Correlation.RegisterKeeps | src/rpc_core.cpp:474 | Filing a call, with its mutex still free, keeps the table exact: every filed call is there under its own id |
| Correlation.LockKeeps | src/rpc_core.cpp:475 | Taking the mutex is a step of its own and keeps the invariant |
| Correlation.RejectKeeps | src/rpc_core.cpp:479-513 | So does the early return of a call whose function is missing or whose request cannot be queued |
| Correlation.RetireKeeps | src/rpc_core.cpp:527 | So does taking it out |
| Correlation.GetIdKeeps | src/rpc_core.cpp:986-993 | Issuing a new id keeps every id in use distinct |
| ProxyTable.CallTable.GetFrameId | src/rpc_core.cpp:986-993 | The wrapping counter yields the id the protocol gives to the call |
| ProxyTable.CallTable.NewCall | src/rpc_core.cpp:449-466 | The code issues the id and makes the proxy as the protocol step does, each call with an object of its own |
| ProxyTable.CallTable.FileProxy | src/rpc_core.cpp:474 | The insert into the table is the protocol step |
| ProxyTable.CallTable.RemoveProxy | src/rpc_core.cpp:527 | The removal from the table is the protocol step |
| ProxyTable.CallTable.SeekProxy | src/rpc_core.cpp:999 | The first step of the lookup sets the iterator of the table as the protocol step does |
| ProxyTable.CallTable.FetchProxy | src/rpc_core.cpp:999-1001 | The second one returns the object of the call the iterator stands at by then, and nothing at the end |
| ProxyTable.CallTable.FetchAndStore | src/rpc_core.cpp:999-1009 | From the second step on, undisturbed, the response goes into the proxy the iterator stands at; -1 at the end |
| ProxyTable.CallTable.StoreIn | src/rpc_core.cpp:1003-1006 | The second half is the protocol step from any state in between, the call finished or not; no other proxy changes |
| ProxyTable.CallTable.WakeupOneThread | src/rpc_core.cpp:995-1009 | All three steps undisturbed are the protocol steps in a row; -1 exactly when the id is not filed |
| ProxyTable.RPCProxy.Deliver | src/rpc_core.cpp:1003-1006 | Storing and signalling change the proxy as the protocol changes the call |
| ProxyTable.RPCProxy.FinishWait | src/rpc_proxy.cpp:74-89 | The end of wait and the read give the result and response of the protocol step |
| ProxyTable.RPCProxy.Wakeup | src/rpc_proxy.cpp:69-72 | A signal reaches a waiter and is kept for nobody else |
| ProxyCall.LocationTransparency | src/rpc_core.cpp:476-566 | With names of at most 255 bytes the local and the remote path give the caller the same result, bytes and `*rlen`, for any services, data and timeout, exactly when the call is two-way or the function exists |
| ProxyCall.AnswerIsDelivered | src/rpc_core.cpp:529-563 | The caller gets the handler's answer cut to its buffer; an empty answer leaves buffer and `*rlen` alone, a missing function gives -1 |
| ProxyCall.RequestArrives | src/rpc_core.cpp:449-466 | A request is received with the caller as sender, the callee as receiver, module, function and data of the call, and the header of an apply request with its id and timeout |
| ProxyCall.ReplyGoesToCaller | src/rpc_core.cpp:363-369 | The reply is addressed to the caller and comes from the callee, with id, timeout, module and function of the call, the status and the data the handler gave, before and after the wire; there is none exactly for a one-way call of a function that exists |
| ProxyCall.OneWayIsServed | src/rpc_core.cpp:1400-1429 | A one-way request arrives with its data and is answered exactly when its function is missing |
| ProxyCall.CopyOut | src/rpc_core.cpp:529-563 | At most the original `*rlen` bytes are written and `*rlen` never grows |
| ProxyCall.CallRemotely | src/rpc_core.cpp:398-567 | The whole remote path over byte buffers has the outcome of the remote specification and, unless it is one-way to a missing function, of the local one |
| ProxyCall.Answer | src/rpc_core.cpp:1350-1514 | From received bytes to replied bytes the callee does what the specification of serving says, for any buffer |
| ProxyCall.Finish | src/rpc_core.cpp:529-563 | The end of proxyCall writes the caller's buffer in place as specified |
| ProxyCall.NewMessage | src/rpc_core.cpp:366-374 | A message built by the setters has the given header, names and data and a body size that matches them |
| Messages.WireRoundTrip | src/message/message.cpp:253-293 | Parsing what serializeMessage wrote gives back every header field, the four names and the exact user data, whatever bytes these are, the timeout modulo 4096 |
| Messages.ExactRoundTripIff | src/message/message.cpp:253-293 | A message comes back unchanged exactly when its names have at most 255 bytes and both timeout parts are in 0..4095, if no tag byte lies where a longer name is cut |
| Messages.AnyOrderRoundTrip | src/rpc_core.cpp:1364-1368 | A message whose body head lists its records in any order, each tag once at most and no value empty, yields the same fields and the user data at the right offset |
| Messages.LongMessageCanSurvive | src/rpc_core.cpp:1364-1368 | With any header a whole message with such a name comes back, names and data |
| Messages.ReceivedBehind | src/rpc_core.cpp:1364-1368 | Any body head that parses may follow the header: the fields are the parsed ones and the data starts at the recomputed size |
| Messages.ParseShifted | src/message/body_head.cpp:182-218 | Parsing does not depend on where in the buffer the body head begins |
| Messages.Wire | src/message/message.cpp:268-271 | A message is as long on the wire as getMessageSize says |
| Messages.Message.Serialize | src/message/message.cpp:273-293 | The new buffer has getMessageSize bytes and every one is written |
| Messages.Message.Receive | src/rpc_core.cpp:1364-1368 | The receiving code reconstructs the specified message, or would have read outside the buffer |
| Messages.Message.UpdateBodySize | src/message/message.cpp:253-256 | The header's body size becomes total length minus 32, in 32 bits, and equals it when that fits |
| Messages.Message.MallocBodyData | src/message/message.cpp:216-234 | The message owns exactly the given bytes; header and names stay |
| Messages.Message.SetBodyHead | src/message/message.cpp:185-191 | The four names are set and nothing else |
| BodyHeads.BodyRoundTrip | src/message/body_head.cpp:134-218 | Names of at most 255 bytes come back whatever follows them, and the parser stops at the BD tag |
| BodyHeads.ParseOfRender | src/message/body_head.cpp:190-217 | For any sequence of records each field is the in-order concatenation of its tag's values and the loop stops at the first byte that is not a tag |
| BodyHeads.ParseOfRecord | src/message/body_head.cpp:192-209 | One record is one turn of the loop, which moves at least three bytes on |
| BodyHeads.ParseAnyOrder | src/message/body_head.cpp:182-218 | With each tag at most once and no empty value the order does not matter, and the recomputed size is the offset of the user data |
| BodyHeads.SizeIsConsumedIff | src/message/body_head.cpp:67-80 | For any record sequence the recomputed size equals the bytes consumed exactly when no tag occurs twice and none with an empty value |
| BodyHeads.LengthOfRender | src/message/body_head.cpp:67-80 | The consumed bytes, counted by tags and joined values |
| BodyHeads.OnlyOne | src/message/body_head.cpp:192-209 | A record that is the only one of its tag gives the field its value |
| BodyHeads.NamesSurviveIff | src/message/body_head.cpp:146-147 | The four names come back exactly when all have at most 255 bytes, for any buffer that holds the printed body head and any names without a tag byte at the first cut |
| BodyHeads.LongFieldIsCut | src/message/body_head.cpp:146-147 | A name of 256 bytes or more is cut to its length modulo 256 and parsing ends inside it, unless a tag byte lies there |
| BodyHeads.LongNameIsLost | src/message/body_head.cpp:146-147 | If no tag byte lies at the cut of the first name that is too long, whichever of the four it is, the parsed names differ from the printed ones |
| BodyHeads.LongNameCanSurvive | src/message/body_head.cpp:190-217 | The condition on the cut is needed: a module name of 256 bytes and user data with which it comes back exactly |
| BodyHeads.PrintHolds | src/message/body_head.cpp:134-180 | Where each field of a printed body head lies |
| BodyHeads.Print | src/message/body_head.cpp:134-180 | The printer's output is as long as size says, for all names |
| BodyHeads.BodyLayout | src/message/body_head.cpp:17-21 | A printed body head is A5 5A, then the letters SN, RN, MN and FN, each with a length byte and the name byte for byte, then BD |
| BodyHeads.BodyHead.GetSize | src/message/body_head.cpp:67-80 | size, by accumulation, is the printed length |
| BodyHeads.BodyHead.SerializeField | src/message/body_head.cpp:142-149 | One block of the printer extends what is written by the field, or by nothing when it is empty |
| BodyHeads.BodyHead.Serialize | src/message/body_head.cpp:134-180 | Exactly size bytes are written at the offset, and nothing outside them |
| BodyHeads.BodyHead.Deserialize | src/message/body_head.cpp:182-218 | The loop appends to the fields what the recursive parser does, and never reads outside the buffer when the parser does not |
| MessageHeads.HeadRoundTrip | src/message/message_head.cpp:99-151 | Every header field comes back, the timeout modulo 4096 |
| MessageHeads.HeadLayout | src/message/message_head.cpp:54-87 | The layout of the 32 bytes: every number big-endian at its offset, types and flags in their bits, the timeout as one 24-bit number of two 12-bit parts, the reserved bytes zero |
| MessageHeads.TimeoutModulo | src/message/message_head.cpp:54-57 | The 12+12-bit packing decodes to each part modulo 4096 |
| MessageHeads.TimeoutSurvivesIff | src/message/message_head.cpp:79-83 | It is the identity exactly when both parts are in 0..4095 |
| MessageHeads.ConfiguredSurvivesIff | src/rpc_core.cpp:165-174 | A timeout configured in milliseconds survives the wire exactly below 4,096,000 |
| MessageHeads.MessageHead.Serialize | src/message/message_head.cpp:99-123 | The 32 bytes at the offset are the encoded header, and no other byte changes |
| MessageHeads.MessageHead.Deserialize | src/message/message_head.cpp:125-151 | The fields are the decoding of the 32 bytes |
| Buffers.PatchTwice | src/message/message.cpp:283-288 | Two adjacent writes are one write of the joined bytes |
| Buffers.PatchAt | src/message/message.cpp:273-293 | After a write the target range holds the bytes and every other byte is what it was |
| Buffers.From32Big32 | src/message/message_head.cpp:63-68 | Four big-endian bytes give back a 32-bit number |
| Buffers.From16Big16 | src/message/message_head.cpp:69-72 | Two give back a 16-bit number |
| Buffers.Write | src/message/body_head.cpp:147 | A copy into the buffer changes its target range and nothing else |
| IntrusiveList.BackPointsForward | src/data_structure/queue.h:148-152 | In a well-formed list each `le_prev` is the address of a slot that points to its element, and of no other element's |
| IntrusiveList.InsertHead | src/data_structure/queue.h:189-194 | The list becomes the element followed by the old list, well-formed |
| IntrusiveList.InsertAfter | src/data_structure/queue.h:174-180 | The element comes right behind the given one |
| IntrusiveList.InsertBefore | src/data_structure/queue.h:182-187 | The element comes right before the given one, first or not, without knowing the head |
| IntrusiveList.Remove | src/data_structure/queue.h:196-201 | Exactly the element goes, from any position, without knowing the head |
| IntrusiveList.RemoveFirst | src/rpc_core.cpp:1038-1039 | Removing the first element leaves the rest, which does not contain it |
| IntrusiveList.Replace | src/data_structure/queue.h:203-209 | The new element takes the old one's place |
| IntrusiveList.RemoveThenInsertBefore | src/data_structure/queue.h:182-201 | Removing an element and inserting it before its old successor restores the list |
| IntrusiveList.TwoLists | src/data_structure/queue.h:189-201 | Moving an element from one list to another leaves both as specified; what is done to one does not disturb the other |
| SendThread.Conservation | src/rpc_core.cpp:1121-1136 | Over any interleaving of inserters and the thread, what was inserted is what was taken and what is pending, as multisets |
| SendThread.StepConserves | src/rpc_core.cpp:1038-1041 | One insertion or one take moves or adds exactly one message |
| SendThread.PutsAreDistinct | src/rpc_core.cpp:1121-1136 | Each insertion is accounted for once, so nothing is taken twice |
| SendThread.NewestFirst | src/rpc_core.cpp:1131 | What is pending lies newest first, so a take returns the most recent insertion still there |
| SendThread.RecordPut | src/rpc_core.cpp:1121-1136 | A list that holds the messages of the pending insertions of its history, and whose taken messages are those of the taken ones, still does after one more insertion |
| SendThread.RecordTake | src/rpc_core.cpp:1037-1041 | And after one more take, also from the empty list |
| SendThread.SendList.Insert | src/rpc_core.cpp:1121-1136 | A fresh node with the message goes to the front, the rest is unchanged; the history grows by one insertion and the list keeps agreeing with it |
| SendThread.SendList.TakeFirst | src/rpc_core.cpp:1037-1041 | The front node is returned and is no longer in the list; null exactly when the list is empty; contents and taken messages keep agreeing with the history |
| SendThread.Sender.Route | src/rpc_core.cpp:1065-1097 | However lookups, connects and links turn out, if the link is lost a bounded number of times the loop ends within three passes more; it sends once or not at all and disconnects once per lost link |
| SendThread.DroppedIff | src/rpc_core.cpp:1071-1078 | A message is dropped exactly when three connects have failed and there is still no entry |
| SendThread.EndsOnce | src/rpc_core.cpp:1065-1097 | How the loop ends is determined by what its passes meet |
| SendThread.FailuresBefore | src/rpc_core.cpp:1074-1085 | Every pass but the last is a failed connect or a lost link |
| SendThread.Sender.Notify | src/rpc_core.cpp:1044-1063 | One transmission for each registration in the list, in its order, none if there is no list |
| SendThread.FanOutAt | src/rpc_core.cpp:1055-1059 | The i-th transmission goes to the i-th registration, with the message |
| SendThread.FanOutCounts | src/rpc_core.cpp:1055-1059 | Each connection gets the message as many times as it is registered |
| SendThread.FanOutReachesSurvivors | src/rpc_core.cpp:1044-1063 | After any history of the registry an invocation sends one message to each registration that no later event took away, in their order |
| SendThread.Sender.Process | src/rpc_core.cpp:1043-1097 | Between being taken and released a message goes to every registration of its object, or to one connection or none, as its passes decide |
| SendThread.Sender.Iterate | src/rpc_core.cpp:1024-1104 | The newest pending message is taken and, on every path of the goto graph, released once and its node freed once; what is released remains what was taken |
| SendThread.Sender.ReleaseFirst | src/rpc_core.cpp:284-291 | One turn of the drain takes and releases the first message and frees its node |
| SendThread.Sender.Drain | src/rpc_core.cpp:283-291 | At shutdown every pending message is released once, in order, exactly their nodes are freed, and all that was taken has been released |
| SendThread.Sender.FreeMemory | src/rpc_core.cpp:1099-1103 | The message and its node are released; a node is never freed twice |
| Observers.RegistryIsItsHistory | src/rpc_observer.cpp:102-167 | After any history an object has a list exactly if it was created and not destroyed since, and the list holds in order the registrations no later event took away |
| Observers.OthersKeep | src/rpc_observer.cpp:102-159 | An event on one object never changes another's list |
| Observers.DisconnectClears | src/rpc_observer.cpp:161-167 | After a disconnect no list holds the connection |
| Observers.DroppedMembers | src/rpc_observer.cpp:142 | Removing a connection from a list removes all its occurrences and nothing else |
| Observers.SurvivorsSnoc | src/rpc_observer.cpp:137-167 | What one more event does to the registrations a history leaves |
| Observers.PresentSnoc | src/rpc_observer.cpp:102-135 | What one more event does to the existence of an object |
| Observers.ObserverList.Remove | src/rpc_observer.cpp:142 | Removal in place is removal of every occurrence, order kept |
| Observers.ObserverHash.InsertKey | src/rpc_observer.cpp:115-135 | A new object gets a list of its own, distinct from all others; an existing one is left alone |
| Observers.ObserverHash.RemoveKey | src/rpc_observer.cpp:102-113 | The object and its list go, nothing else |
| Observers.ObserverHash.Insert | src/rpc_observer.cpp:146-159 | A registration goes to the end of its object's list; -1 and no change without the object |
| Observers.ObserverHash.Remove | src/rpc_observer.cpp:137-144 | The connection goes from one object's list |
| Observers.ObserverHash.RemoveFd | src/rpc_observer.cpp:161-167 | The connection goes from every object's list, in whatever order they are visited |
| Observers.ObserverHash.Find | src/rpc_observer.cpp:92-100 | A lookup that no other one comes between finds the list with the object's contents |
| Observers.ObserverHash.Empty | src/rpc_observer.cpp:81-90 | With no other lookup in between, true exactly when there is no such object or nothing is registered for it |
| ObserverCalls.InvocationFindsItsHandler | src/rpc_core.cpp:1444-1456 | An invocation sent over the wire runs at the receiver the handler registered for that very object, with the very data, and none if none was registered |
| ObserverCalls.InvocationArrives | src/rpc_core.cpp:621-631 | An invocation is received as a one-way observer request from the invoking process, under the name of the object, with the very data |
| ObserverCalls.DispatchIs | src/rpc_core.cpp:1444-1456 | For any received packet: only an invocation runs a handler, the one registered for its module, with its data |
| ObserverCalls.LocalIs | src/rpc_core.cpp:633-641 | The local handler that an invocation runs is the one registered for this very object, with its data, and none if none was registered |
| ObserverCalls.LocalIsCurrent | src/rpc_core.cpp:633-641 | After any history of registrations it is the first one registered since the object was last unregistered |
| ObserverCalls.FilesInsert | src/rpc_core.cpp:860-867 | Registering handlers, also repeatedly, keeps the handler table filed by object, the first handler staying |
| ObserverCalls.FilesRemove | src/rpc_core.cpp:933-935 | Unregistering takes out the object's own handler and no other |
| ObserverCalls.TableIsItsHistory | src/rpc_core.cpp:860-936 | After any history of registrations the handler filed for an object is the first one registered since it was last unregistered |
| ObserverCalls.TableHoldsHandlersOnly | src/rpc_core.cpp:860-936 | And the table holds nothing else, so it is filed by object after any history |
| ObserverCalls.HandlerKeysDiffer | src/rpc_core.cpp:860 | A handler key is the object's name with the suffix behind it; keys are equal only for equal objects |
| ObserverCalls.Subject.InvokeObserver | src/rpc_core.cpp:592-682 | -1 and no effect without the object; otherwise one local dispatch if there is a handler, and one queued message if anyone is registered |
| ObserverCalls.Subject.DispatchLocally | src/rpc_core.cpp:633-641 | At most one local dispatch, of this object's handler with this data |
| ObserverCalls.Subject.QueueInvocation | src/rpc_core.cpp:643-680 | One message for all observers, none when the list is empty |
| ObserverCalls.Subject.Transmit | src/rpc_core.cpp:1044-1063 | An invocation at the front of the send list is sent once for each registration, in order |
| ObserverCalls.Subject.InvokeAndSend | src/rpc_core.cpp:592-682 | An invocation taken at once by the thread yields one transmission per registration and one local dispatch if there is a handler, and leaves the send list as it was |
| Tables.RemovedFirstClears | src/data_structure/string_hash.cpp:86-98 | Removal by value clears a table of the value exactly when no two keys hold it |
| Tables.FirstIsUnique | src/data_structure/string_hash.cpp:86-98 | The entry that removal by value takes is determined |
| Tables.StringHash.RemoveValue | src/data_structure/string_hash.cpp:86-98 | The search in key order removes the first entry with the value and no other |
| Tables.StringHash.Insert | src/data_structure/string_hash.cpp:100-112 | An existing entry is never replaced; 1 exactly when there is one |
| Tables.StringHash.Remove | src/data_structure/string_hash.cpp:76-84 | The key goes, the rest stays |
| Tables.UintHash.Insert | src/data_structure/uint_hash.cpp:100-112 | An existing entry is never replaced; 1 exactly when there is one |
| Tables.UintHash.Remove | src/data_structure/uint_hash.cpp:76-84 | The key goes, the rest stays |
| Deadlines.AddTimeval | src/rpc_proxy.cpp:9-17 | The sum of the two times is kept, also with the result in the summand, and is normalized exactly when the two sub-second parts add up to less than two seconds |
| Deadlines.Deadline | src/rpc_proxy.cpp:83-85 | For a configured timeout the deadline is normalized and never too late, and lies the configured time ahead exactly when that is a whole number of seconds |

## Left out

Assumptions of the model:

- Link establishment is between two processes; a thread's work for other peers only keeps it busy elsewhere.
- Link agreement is not claimed when a wait times out before the peer has decided on its request, and receiving and deciding are one step of the model: `TimeoutBreaksAgreement` is a run in which it fails. Termination with timeouts is bounded by the number of lost links (`Sender.Route`).
- For agreement with late timeouts the ids of a process do not repeat (2^32 attempts).
- What arrives at an end that has been freed is lost.
- Setting the shared iterator of a table is atomic, and so is reading it; in C++ the two overlapping accesses are a data race.
- LinkAgreement: assumes that the link responses find their proxies, which are in m_proxy_hash too; where local calls are made at the same time, `LookupRaces` applies to them as well. The lookups in m_process_connect_hash are all under m_link_mutex and cannot overlap.
- LocationTransparency: assumes that the lookups of the service in m_service_func_hash (src/rpc_core.cpp:478, 1413) and of the proxy do not overlap others; `Lookups` says what happens where they do.
- InvokeObserver: assumes the same of the lookups in m_observer_connect_hash and m_observer_func_hash (src/rpc_core.cpp:609, 635, 644).
- Notify: assumes the same of the lookup of the sending thread (src/rpc_core.cpp:1048).
- ObserverHash.Find: models an undisturbed lookup; the field m_it is in `Lookups`.
- ObserverHash.Empty: likewise.
- StringHash.Find: likewise, of the field `it`.
- The failure of an established connection by itself is not among the link steps; a connection ends when one side closes it.
- A connection value is never used again for a later connection.
- Each receive event carries one complete message; the code does no framing.
- The condition variable wakes no one spuriously; the code has no loop around its waits.
- A proxy lives on its caller's stack; here it stays allocated, so the late write of `wakeupOneThread` goes to a finished call and not to reused memory.
- Allocation succeeds, the runtime is running, and the configuration knows the module and its process. Queueing succeeds, but for `Reject`, the early return of a call.
- A service handler is a function that sets one response. In `Correlation` it may answer late, several times or never.
- The worker pool is a later step of the model, in any order.
- The clock is a parameter; timeouts are steps that may happen at any time while waiting.

Where the statements end:

- Received: where the C++ would read outside the buffer the model gives up (`None`, or `inside` false) and says nothing about what is read.
- NamesSurviveIff: says nothing of a long name that has a tag byte at its cut; what is parsed then depends on the bytes behind it, the user data included, and `LongNameCanSurvive` shows that it may come back.
- ExactRoundTripIff: has the same condition on the cut, which `LongMessageCanSurvive` shows to be needed.
- LongNameIsLost: has the same condition.
- TimeoutBreaksAgreement: is one run for any two names; not every run with an early timeout ends in disagreement.
- CallRemotely: like `LocationTransparency`, is stated for names of at most 255 bytes and a remote path on which both messages arrive; what happens when they do not is in `Correlation`.
- InvokeAndSend: takes lookup and transmission as one step; the code iterates over an observer list that other threads may change meanwhile.
- Route: each pass meets what its environment gives; that a lost link is followed by a lookup that succeeds is `ConflictThenEntry`.
- EnterStep, RecheckStep, RespondStep: the result of a send is ignored, as the code ignores it.

Where the code and its appearance differ, the code is followed:

- The send list is last-in-first-out.
- The byte in a link response is always 1, although a decision is computed for it (src/rpc_core.cpp:1257-1267).
- The second part of a configured timeout is in milliseconds and is used as microseconds (src/rpc_core.cpp:173).
- A one-way call of a missing function fails locally and succeeds remotely, and the callee still answers it.
- Registering a service or an observer handler again keeps the first one, although the log announces a replacement (src/rpc_core.cpp:319-322).

Not modelled:

- Registration of observers over the wire: the request is an ordinary call of `Correlation`, the registry steps are in `Observers`, and the caller does not look at the status code of the response (src/rpc_core.cpp:930-936), so a return value of 0 promises nothing about the object.
- `m_process_connect_list` and `PointerList`, which do not hold exactly the live connections.
- The release of every message object: `responseLink` and some error paths keep theirs.
- `UINTHash::remove(void *)`, `change`, `clear`, `size` and `print`.
- Heartbeat messages, which are received and dropped.
- Socket driver, thread pool, configuration parser, start and stop, signals, logging.
- The header's reserved bits and bytes, which are always zero.
