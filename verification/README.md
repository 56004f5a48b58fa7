# RelayAgent, modelled and proved

RelayAgent runs packaged agents behind one local daemon. This project models the parts of it whose
behaviour cannot be read off one function and proves what they are for.

| part | modules | source |
|---|---|---|
| Turns of a session: queue, promise chain, adopted turns, ledgers, live streams, observers | `Turns`, `TurnInvariants`, `TurnRuns`, `TurnOrder`, `TurnViews`, `TurnForeign`, `TurnEnds`, `TurnClients`, `Wire` | runner/runtime/wire.ts |
| Processes that serve turns: the gate of one turn per slot, cancel, stall, retirement, death | `Residents`, `ResidentRuns`, `ResidentOutcomes`, `Harness` | runner/runtime/harness.ts |
| Deterministic ustar archives (ustar interchange format, pax utility, IEEE Std 1003.1) | `Ustar`, `UstarImages`, `UstarEntries`, `Pack` | runner/supply/pack.ts |
| DER certificates (ITU-T X.690, RFC 5280) | `Bytes`, `Der`, `DerValues`, `Certificate`, `CertificateFields` | runner/tls.ts |
| Script worker and its pool | `ScriptRuns`, `ScriptRecords`, `ScriptPool` | runner/runtime/script-pool.ts |
| Event-stream parser and the frames it reads | `Sse`, `SseMessages` | chat/src/sse.ts, runner/runtime/wire.ts |
| Suite contents and install order | `Suites`, `SuiteLayers` | runner/supply/suites.ts |
| Parents in the navigation and the pass that cuts cycles | `Nav` | runner/runtime/shell.ts |
| At-least-once delivery of delegated work | `Deliveries`, `DeliveryRuns`, `PendingLedger` | runner/runtime/tools.ts |
| Single-flight token rotation | `Rotation`, `RotationRuns`, `RotationLife`, `OAuth` | runner/runtime/oauth.ts |
| Trigger ticker | `Triggers` | runner/runtime/triggers.ts |

JavaScript runs one handler at a time between awaits. So each protocol is a state with one step
function for everything that runs between two awaits, an interleaving is any sequence of steps, and the
theorems are about every such sequence. Where the source changes module-level maps, fields or buffers, a
class or a method with loops does the same and is proved to compute the step or function that the
theorems are about (`View() == old(Step(View()))`, `h[..] == Header(...)`).

Several properties hold only under a condition. Each of these is proved as an equivalence, with a
concrete run or input on the failing side:

* A session that was refused adoption, because another turn stands in its slot, goes on writing events to
  its own turn's file, and each is relayed to the turn that runs. Which turns a run mixes up in this way
  is `TurnOrder.MixedExactly`. Everything about which turns run, in what order, and who holds which sink
  holds of all runs alike; what streams, observers and ledgers contain is proved turn by turn, for turns
  that no such event crosses. For one that is crossed: a stream or an observer keeps matching its ledger
  exactly when the event is the turn's own (`TurnForeign.ForeignEvent`, `TurnForeign.ForeignNote`), its
  flags keep saying what the ledger holds exactly when the event is its own or changes no flag
  (`TurnForeign.RelayedFlags`), and it ends with a reply or an error in its ledger exactly when its flag
  claims none that is missing (`TurnForeign.FinishCompletes`). In a reachable run a relayed reply
  suppresses the running turn's own error, and its ledger is `started`, `settled` and nothing else
  (`TurnForeign.LostAnswer`).
* The subscription handler looks an observer up before it awaits the request body. A closed observer
  stays without sinks through every step but a subscription of that observer
  (`TurnViews.QuietUnlessSubscribed`).
* `oid` keeps the first octet modulo 256 and does not encode it in base 128: an identifier comes back
  exactly when its two first arcs fold into seven bits (`DerValues.OidReads`). The certificate's own
  identifiers all do.
* `asn1Time` round-trips exactly the years 1950 to 9999 (`DerValues.TimeReads`), and `integer` every
  octet string but the empty one (`DerValues.IntegerReads`).
* A path over a hundred octets is cut at its last slash among the first hundred and one. The error speaks of
  255, and ustar has room for 155 before the slash, so paths are refused that the format holds
  (`UstarEntries.SplitIff`, `UstarEntries.SplitMissed`).
* Frames carry exactly the payloads without a line feed that do not end in a carriage return
  (`Sse.FramesRead`).
* The comment in shell.ts says that a package is raised when its chain returns to itself. The code raises
  one whose chain runs into any cycle; exactly which ones is `Nav.CutSpec`, and `Nav.CutBelowCycle` is a
  package raised although its chain never comes back to it.
* A process of one turn that reports `error` and only later `close` deletes the slot's entry a second
  time, whosever it is by then. The one-turn gate holds of every run without such a late close, and a
  step keeps it exactly when it is none (`Residents.OnceEndsInv`, `ResidentRuns.LateClose`). Everything
  else about the processes holds of all runs.
* A resident that a signal ended has no exit code and is reused until it closes
  (`ResidentRuns.FedProcess`, `ResidentRuns.SignalReuse`).
* A replaced refresh token is presented again exactly when the stored credential changed between a
  consumer's read and its start of a rotation (`RotationRuns.StaleIff`, `RotationRuns.Gap`). A server
  that then issues no refresh token makes the code store the replaced one, or none, over the newer one
  (`RotationRuns.OldOverNew`). That one refresh is under way at a time holds of all runs.
* A trigger fires again in a minute exactly when it has fired in another minute since
  (`Triggers.RefireIff`), which takes a clock set back (`Triggers.ClockSetBack`), or a sweep that died
  before it saved (`Triggers.DiesBeforeSaving`).

`dafny verify dfyconfig.toml` checks the project.

## Model

| member | source | states |
|---|---|---|
| TurnRuns.StepInv | runner/runtime/wire.ts:332-565 | Every handler and every harness event of any session, on every enabled input, keeps the whole invariant: queues, promise chains, observers and sinks agree, and so do the ledgers and streams of turns that no foreign event crosses. |
| TurnRuns.ReachableInv | runner/runtime/wire.ts:332-565 | The invariant holds after any interleaving of handlers and harness events from a start with any ledgers on disk. |
| TurnOrder.OneRunning | runner/runtime/wire.ts:332-345 | In every reachable state a session runs at most one turn, and it is the head that attach lands on. |
| TurnOrder.NoOverlap | runner/runtime/wire.ts:487-515 | A step that begins a turn, a thunk of a chain dropped with an emptied queue or an adoption included, finds no turn of its session running. |
| TurnOrder.StartsFollowArrivals | runner/runtime/wire.ts:637-665 | Over any run, foreign events included, the turns a session begins, followed by those still waiting, are its arrivals in order with some left out. |
| TurnOrder.PassedOver | runner/runtime/wire.ts:1123-1128 | A turn left out of that order has settled, and unless an event was written into its file without being relayed to it, its ledger is an error and `settled`, without `started`. |
| TurnOrder.RunLogs | runner/runtime/wire.ts:541-564 | Ledgers only grow; a settled turn never stands again, and its ledger never changes unless a later event is written into its file. |
| TurnOrder.SettledLedger | runner/runtime/wire.ts:541-564 | A settled turn's ledger, if no event was written into it without being relayed, has `started` at most once and first and `settled` once and last, and a reply or error before it if no foreign event was relayed to the turn either; always, no queue, stream or observer has the turn any more, and its thunk only resolves. |
| TurnOrder.StandingLedger | runner/runtime/wire.ts:566-612 | A queued turn has written nothing; a running one `started` and then envelopes; its flags cover what its ledger holds, and say exactly that unless a foreign event was relayed to it, so a closing envelope is then synthesised only when none is there. |
| TurnOrder.MixedExactly | runner/runtime/wire.ts:467-473 | The turns that a run parts from their ledgers are exactly the file's turn and the running turn of each event that is not the running turn's own. |
| TurnViews.StreamSeesTheTurn | runner/runtime/wire.ts:702-730 | Whenever a stream is opened on a turn that no foreign event crosses: it equals the ledger so far while open, the complete ledger when ended by the server, a prefix when the client left. |
| TurnViews.EndedStreamsAgree | runner/runtime/wire.ts:716-730 | All streams ever ended on such a turn, opened before or after it settled, carry the same lines. |
| TurnViews.ObserverSeesItsSessions | runner/runtime/wire.ts:392-404 | For each subscribed session every standing turn is among those an open observer has seen, and the lines it got for a turn since it subscribed are that turn's ledger so far, unless a foreign event crosses that turn. |
| TurnViews.SinksAgree | runner/runtime/wire.ts:380-390 | An observer's sinks and the turns' sinks name each other exactly for the standing turns of subscribed sessions. |
| TurnViews.CloseIsQuiet | runner/runtime/wire.ts:433-437 | After closeObserver no subscription is left and no turn holds the observer's sink. |
| TurnViews.QuietUnlessSubscribed | runner/runtime/wire.ts:1066-1079 | A closed observer stays so through a step if and only if the step does not subscribe it. |
| TurnViews.LateSubscription | runner/runtime/wire.ts:1066-1079 | A subscription that reaches a closed observer plants sinks in the session's standing turns. |
| TurnForeign.ForeignEvent | runner/runtime/wire.ts:467-473 | An event relayed to the running turn keeps a stream equal to its ledger if and only if it is that turn's own. |
| TurnForeign.ForeignNote | runner/runtime/wire.ts:467-473 | The same of an observer's lines for that turn. |
| TurnForeign.RelayedFlags | runner/runtime/wire.ts:441-446 | After a relayed event the turn's flags say what its ledger holds if and only if the event is its own, or neither closes a turn that was open nor announces a file for the first time. |
| TurnForeign.FinishCompletes | runner/runtime/wire.ts:519-539 | A turn whose file got only events relayed to it ends with a complete ledger, a reply or an error before `settled`, if and only if its flag was unset or its ledger had one. |
| TurnForeign.FilesAnnounced | runner/runtime/wire.ts:598-604 | A file of the result is in the ledger at the end if and only if it was there or was not marked as announced. |
| TurnForeign.ForeignEventReachable | runner/runtime/wire.ts:487-490 | A reachable state in which a session refused adoption sends such an event, and a stream with a line that its ledger lacks. |
| TurnForeign.LostAnswer | runner/runtime/wire.ts:598-612 | A reachable state in which a turn has settled with neither a reply nor an error, since a foreign reply was relayed to it. |
| TurnForeign.EventCrosses | runner/runtime/wire.ts:467-473 | An event of the turn that runs at the head of its session crosses no turn; any other crosses exactly the turn whose file it goes to and the one that runs, and only that file grows. |
| TurnForeign.OwnCrossNothing | runner/runtime/wire.ts:467-473 | A run whose events are all of that kind crosses no turn. |
| TurnEnds.Interrupted | runner/runtime/wire.ts:1114-1131 | Interrupting a queued turn takes it out of memory and its queue, its ledger gets an error and `settled` (not ok), and every other turn, queue, ledger and chain is as before; for a running or absent turn nothing changes. |
| TurnEnds.InterruptedNeverBegins | runner/runtime/wire.ts:1123-1128 | No run begins an interrupted turn. |
| TurnEnds.Deleted | runner/runtime/wire.ts:1257-1264 | Deleting a session ends exactly its queued turns so; its running turn and all other sessions stand as before. |
| TurnEnds.DeletedNeverBegin | runner/runtime/wire.ts:1257-1264 | No run begins one of them. |
| TurnEnds.Finished | runner/runtime/wire.ts:598-612 | A turn that ends leaves the files still owed, each once in order of first mention, its own answer unless one was relayed, and `settled` with its outcome; it is gone, and nothing else is touched. |
| TurnEnds.HeadCanBegin | runner/runtime/wire.ts:653-665 | The turn at the head of a session, if it has not begun, begins once its chain has passed over what settled before it: no session is stuck. |
| TurnClients.DroppedForGood | runner/runtime/wire.ts:711-713 | A client that leaves has what it was sent until then; nothing more is ever sent to it, no turn holds its sink, and its turn goes on. |
| TurnClients.EndedForGood | runner/runtime/wire.ts:702-714 | Nothing is sent to a stream after its end. |
| TurnClients.Replayed | runner/runtime/wire.ts:716-730 | A turn not in memory is replayed from its ledger and ends there, with a failure added exactly when the ledger has no `settled`. |
| TurnClients.OneObserver | runner/runtime/wire.ts:1049-1060 | In every run at most one observer is open under an id. |
| TurnClients.Replaces | runner/runtime/wire.ts:1049-1060 | One that arrives under an id in use closes the other, subscriptions and all, and touches no third. |
| TurnClients.Subscribes | runner/runtime/wire.ts:392-404 | A subscription, the first or another, sends the session's queue and then each of its ledgers, and adds that session to the others. |
| TurnClients.Unsubscribes | runner/runtime/wire.ts:406-420 | Dropping one ends it and no other, and sends nothing. |
| Wire.Wire.RelayTurnEvent | runner/runtime/wire.ts:441-446 | The loop over the sinks sends the line to each of the turn's streams and observers and to no other. |
| Wire.Wire.AppendTurnEvent | runner/runtime/wire.ts:450-458 | The ledger grows by the line, then as relayTurnEvent. |
| Wire.Wire.AnnounceTurn | runner/runtime/wire.ts:423-431 | Every observer of the session hears of the turn, gets its ledger and holds a sink, in whatever order the set is walked. |
| Wire.Wire.EnqueueTurn | runner/runtime/wire.ts:637-665 | Is the enqueue step, and keeps the invariant. |
| Wire.Wire.AdoptSessionTurn | runner/runtime/wire.ts:487-515 | Is the adoption step, which a standing turn refuses, and keeps the invariant. |
| Wire.Wire.RunThunk | runner/runtime/wire.ts:566-570 | The front thunk starts its turn, or only resolves when the turn has settled. |
| Wire.Wire.SettleTurn | runner/runtime/wire.ts:541-564 | Search and splice remove exactly the turn from its queue, the chain goes with an emptied queue, all sinks end, the record is gone. |
| Wire.Wire.FinishTurn | runner/runtime/wire.ts:519-539 | The closing clauses that runTurn and releaseSessionTurn share: unannounced files, an envelope when none was relayed, settled. |
| Wire.Wire.InterruptTurn | runner/runtime/wire.ts:1114-1131 | Is the interrupt step, of which TurnEnds.Interrupted says what it does. |
| Wire.Wire.DeleteSession | runner/runtime/wire.ts:1257-1264 | The sweep over a copy of the queue is the deletion step, of which TurnEnds.Deleted says what it does. |
| Wire.Wire.HarnessEvent | runner/runtime/harness.ts:742-746 | Any session's event is appended to its file and tapped in one step, whichever turn runs. |
| Wire.Wire.TapSessionEvent | runner/runtime/wire.ts:467-473 | Relays to the head turn of the session when it runs, else nothing. |
| Wire.Wire.OpenTurnStream | runner/runtime/wire.ts:702-730 | Replay and sink for a standing turn; for a ledger alone replay, with a closing line when it has none. |
| Wire.Wire.ObserveSession | runner/runtime/wire.ts:392-404 | The loop over the queue replays each ledger once, in queue order, and takes a sink of each turn. |
| Wire.Wire.UnobserveSession | runner/runtime/wire.ts:406-420 | Takes the observer out of the watch list and its sinks out of that session's turns. |
| Wire.Wire.Close | runner/runtime/wire.ts:433-437 | Closing unsubscribes from every session, and frees the id only if it still names this observer. |
| Wire.Wire.OpenObserverStream | runner/runtime/wire.ts:1049-1060 | A new observer replaces one that stands under the same id. |
| Wire.Wire.SubscribeObserver | runner/runtime/wire.ts:1066-1079 | A second subscription drops the first and replays from the start. |
| Residents.StepInv | runner/runtime/harness.ts:333-350 | Every step on serving and one-turn processes keeps what ties live entries, standing processes, waiting turns and what was written to each process; all but a late close also keep the gate of one turn per slot. |
| Residents.OnceEndsInv | runner/runtime/harness.ts:1054-1064 | The end of a one-turn process keeps the invariant with the gate if and only if the slot's entry is its own or absent. |
| ResidentRuns.OneTurn | runner/runtime/harness.ts:965-971 | In every state reached without a late close a slot has at most one open turn, on the process its live entry names. |
| ResidentRuns.LiveHasTurn | runner/runtime/harness.ts:965-971 | In every such state a slot is busy exactly when it has an open turn. |
| ResidentRuns.SettledStays | runner/runtime/harness.ts:728-741 | Whatever happens, late closes included, a settled turn keeps its first outcome. |
| ResidentRuns.SettlingFrees | runner/runtime/harness.ts:728-741 | But for a late close, the step that settles a turn leaves its slot free. |
| ResidentRuns.NeverFedCondemned | runner/runtime/harness.ts:454-515 | In no run is a turn written to a process after a cancel or EOF. |
| ResidentRuns.StandingIsClean | runner/runtime/harness.ts:500-515 | In no run has a standing process been cancelled, told to leave or closed. |
| ResidentRuns.ClosedSettles | runner/runtime/harness.ts:678-693 | The turn that waited on a process is settled when it closes, in every run; without late closes every turn on it is. |
| ResidentRuns.IdleSpares | runner/runtime/harness.ts:577-585 | In no run does the idle clock end a process with a turn in flight or background tasks. |
| ResidentRuns.CancelThenFresh | runner/runtime/harness.ts:336-351 | After a cancel the slot's next turn gets a new process. |
| ResidentRuns.FedProcess | runner/runtime/harness.ts:629-640 | A turn goes to a process told nothing but turns and without an exit code; it has exited if and only if it is the fitting standing one that a signal ended. |
| ResidentRuns.SignalReuse | runner/runtime/harness.ts:632-640 | A reachable state in which such a process is reused. |
| ResidentRuns.LateClose | runner/runtime/harness.ts:1054-1064 | A reachable state and two steps after which two turns of one slot are open. |
| ResidentOutcomes.ServedOutcome | runner/runtime/harness.ts:742-757 | A turn on a serving process is replied exactly at a reply line of that process while it waits there, and fails exactly at an error line, a failure or the close of it; no other step settles it. |
| ResidentOutcomes.OwnOutcome | runner/runtime/harness.ts:1054-1064 | A turn on a process of its own ends exactly with that process, as that one ends. |
| ResidentOutcomes.BeginOutcome | runner/runtime/harness.ts:968-971 | Where the slot is free a turn waits on its process, and one whose write throws has failed and left the slot free; where it is busy nothing changes. |
| ResidentOutcomes.BeginOnceOutcome | runner/runtime/harness.ts:998-1000 | The same for a turn on its own process. |
| ResidentOutcomes.OutcomeOfRun | runner/runtime/harness.ts:728-757 | Over any run, a turn on a serving process has been replied if and only if its process replied while it waited, and failed if and only if the process broke while it waited. |
| ResidentOutcomes.CancelTells | runner/runtime/harness.ts:336-351 | A cancel is written to the process of the slot's turn and to no other, settles nothing, and takes that process out of use if it stood. |
| ResidentOutcomes.StallTells | runner/runtime/harness.ts:717-726 | The same for a turn that stalls. |
| ResidentOutcomes.RetireTells | runner/runtime/harness.ts:486-499 | Retiring a slot tells its standing process, and no other, to leave, and it stands no more. |
| ResidentOutcomes.IdleTells | runner/runtime/harness.ts:577-585 | The idle clock ends a process if and only if it stands and has no background task; with tasks it keeps its clock. |
| ResidentOutcomes.FedWhere | runner/runtime/harness.ts:629-640 | A turn goes to the standing process if and only if that one's fingerprint fits and it has no exit code; else that one is told to leave and the turn gets a new one. |
| ResidentOutcomes.TasksOfRun | runner/runtime/harness.ts:664-668 | A process has a task exactly when its last word on it in the run was that it started. |
| ResidentOutcomes.NoneForgotten | runner/runtime/harness.ts:736-739 | In every run a standing process without a turn and without an exit code has its idle clock running. |
| ResidentOutcomes.PutOut | runner/runtime/harness.ts:686-693 | An exit with a code, a failure, a close, a cancel, a stall and a retirement each put a process out of use. |
| ResidentOutcomes.OverForGood | runner/runtime/harness.ts:629-640 | Over any run, no turn is ever again given or written to a process out of use. |
| Harness.Sessions.ResidentTurn | runner/runtime/harness.ts:968-971 | The gate, acquireResident and the written turn are the begin step; a busy slot changes nothing. |
| Harness.Sessions.AcquireProc | runner/runtime/harness.ts:629-640 | Reuses a fitting process with its clock stopped, or retires it and spawns one. |
| Harness.Sessions.FinishTurn | runner/runtime/harness.ts:728-741 | Clears the sink, the slot's own live entry, and arms the clock of a process that still stands. |
| Harness.Sessions.OneShotTurn | runner/runtime/harness.ts:998-1000 | The gate and the live entry of a turn on its own process. |
| Harness.Sessions.OneShotEnds | runner/runtime/harness.ts:1054-1064 | Ends such a turn and deletes the slot's entry, whosever it is. |
| Harness.Sessions.CancelSession | runner/runtime/harness.ts:336-351 | Condemns the process of the slot's turn and tells it to cancel. |
| Harness.Sessions.StallTick | runner/runtime/harness.ts:717-726 | The same for a turn that stalls. |
| Harness.Sessions.RetireSlots | runner/runtime/harness.ts:486-499 | The loop tells exactly the standing processes of the slots to leave, and none of them stands afterwards. |
| Harness.Sessions.IdleClock | runner/runtime/harness.ts:577-585 | Retires only the standing process, and not one with background tasks. |
| Harness.Sessions.OnLine | runner/runtime/harness.ts:742-757 | Is the line step: tasks are kept, and a reply or error finishes the waiting turn, as ResidentOutcomes.ServedOutcome says. |
| Harness.Sessions.OnServeClose | runner/runtime/harness.ts:686-693 | Is the close step: the process leaves the map and its waiting turn fails, as ResidentOutcomes.ServedOutcome says. |
| Ustar.ChecksumFits | runner/supply/pack.ts:57-60 | The sum of any 512 octets is below 8^6 and its field is exactly 8 octets. |
| Ustar.HeaderReads | runner/supply/pack.ts:32-62 | For any path and size the header accepts, the reader gets back path, size, mode and a matching checksum, and the block is not the end marker. |
| UstarImages.UnpackImage | runner/supply/pack.ts:257-301 | Unpacking a written image gives its entries in order with contents and one of two modes, if and only if it is within the limit, not empty and every path is one the reader writes. |
| UstarImages.RoundTrip | runner/supply/pack.ts:72-82 | packEntries then unpackArtifact gives a sorted permutation of the entries, under the same condition on the entries given. |
| UstarImages.PackDeterministic | runner/supply/pack.ts:72-82 | Entries with distinct paths give the same octets in any order. |
| UstarImages.ListAgrees | runner/supply/pack.ts:227-240 | Listing an image names exactly the paths that unpacking writes, in order. |
| UstarEntries.ModesKept | runner/supply/pack.ts:295-295 | Unpacked entries are the packed ones in path order with path and contents, mode 0755 if any of the three digits had its execute bit and 0644 otherwise; entries with one of these modes come back unchanged. |
| UstarEntries.PathsAscend | runner/supply/pack.ts:68-75 | Paths ascend by the first octet in which they differ, a beginning before what it begins. |
| UstarEntries.LegalIs | runner/supply/pack.ts:287-287 | A path is written if and only if it is not empty, does not begin with a slash, and none of its components is `..`. |
| UstarEntries.StaysBelow | runner/supply/pack.ts:287-289 | Such a path, resolved at any directory, stays below it. |
| UstarEntries.UnpackSafe | runner/supply/pack.ts:257-301 | Whatever the octets: unpacking that succeeds has written at least one file and only files that sound headers of regular files describe, within both limits, under such paths, with one of two modes. |
| UstarEntries.LookSays | runner/supply/pack.ts:262-294 | Which refusal a header meets, or that it is a directory or a file, each as an equivalence, in the order of the reader's questions. |
| UstarEntries.AlteredHeader | runner/supply/pack.ts:270-275 | One octet of any header of a sound image changed, but in the checksum field, and unpacking stops at that header. |
| UstarEntries.DirsPassed | runner/supply/pack.ts:283-283 | A directory's header between any two entries of a sound image changes nothing. |
| UstarEntries.SplitIff | runner/supply/pack.ts:36-44 | A path is accepted if and only if it is at most 100 octets, or has a slash among the first 101 with at most 100 octets after it. |
| UstarEntries.SplitMissed | runner/supply/pack.ts:36-44 | A path that ustar's fields hold and the writer refuses. |
| UstarEntries.PackRefuses | runner/supply/pack.ts:72-82 | Packing fails if and only if some entry is too big or has a path that is refused, with the error of the first such entry in path order. |
| UstarEntries.HeaderLayout | runner/supply/pack.ts:45-61 | Every field of the header stands at its offset in the ustar format, with its number in octal or its text padded by NUL. |
| Pack.HeaderBuffer | runner/supply/pack.ts:32-62 | The writes into the zeroed buffer, the checksum last, produce the specified header. |
| Pack.OctalField | runner/supply/pack.ts:26-30 | A padded octal field, cut off at its length. |
| Pack.PackEntries | runner/supply/pack.ts:72-82 | The loop produces the blocks of the sorted entries and two empty ones, or the first entry's refusal. |
| Pack.UnpackArtifact | runner/supply/pack.ts:257-301 | The loop over offset and total computes the specified reading of any image, errors included; UstarEntries.UnpackSafe and UstarEntries.ModesKept say what that reading writes. |
| Pack.ListArtifact | runner/supply/pack.ts:227-240 | The loop computes the specified listing of any image. |
| Der.EncodeLength | runner/tls.ts:46-51 | The loop produces the octets of derLen. |
| Der.LengthReads | runner/tls.ts:46-51 | A reader of X.690 sections 8.1.3 and 10.1 gets the length back, and what followed. |
| Der.LengthCanonical | runner/tls.ts:46-51 | Any length it accepts is derLen's own. |
| Der.FewestOctets | runner/tls.ts:46-51 | No definite form of a length, of any width, is shorter than derLen's. |
| Der.DecodeEncode | runner/tls.ts:53-58 | Decoding an encoded tree of any depth, followed by anything, gives exactly the tree and what followed. |
| Der.EncodeDecode | runner/tls.ts:53-58 | Whatever decodes is the encoding of the tree it decodes to. |
| Der.PrefixFree | runner/tls.ts:53-58 | No encoding is a prefix of another; different trees differ. |
| DerValues.IntegerContents | runner/tls.ts:88-93 | The loop and the padding produce the contents of integer. |
| DerValues.IntegerReads | runner/tls.ts:87-93 | The contents are the minimal two's complement of the same non-negative number if and only if the octets are not empty. |
| DerValues.IntegerUnique | runner/tls.ts:87-93 | No other minimal contents denote that number. |
| DerValues.OidContents | runner/tls.ts:72-85 | The loops produce the contents of oid. |
| DerValues.Subidentifier | runner/tls.ts:76-81 | The digit loop and the marking loop give base 128 with the high bit on all but the last. |
| DerValues.OidReads | runner/tls.ts:71-85 | The reader of X.690 section 8.19 gets the arcs back if and only if the first two are an identifier's and 40a+b is below 128. |
| DerValues.OidTooFar | runner/tls.ts:72-85 | 2.48 is not read back. |
| DerValues.TimeReads | runner/tls.ts:95-103 | The reader of RFC 5280 section 4.1.2.5 gets a second back if and only if its year is 1950 to 9999, across the switch at 2050. |
| Certificate.TbsIs | runner/tls.ts:151-171 | The octets put together for signing are the encoding of the intended tree. |
| Certificate.CertificateReads | runner/tls.ts:151-173 | Decoding the certificate gives that tree, and its first part encodes to the very octets that were signed. |
| Certificate.FieldsRead | runner/tls.ts:105-137 | Version, serial, validity, all seven identifiers and the value in each extension read back. |
| CertificateFields.Minted | runner/tls.ts:151-173 | A reader of RFC 5280 sections 4.1 and 4.2 finds version 3, the serial's value, SHA-256 with RSA inside and out, localhost as issuer and subject, the validity, the key, the four extensions, and the signature. |
| CertificateFields.UsageMeans | runner/tls.ts:122-136 | The usage bits are digitalSignature, keyEncipherment and keyCertSign, and the purpose is server authentication. |
| ScriptRuns.ExactlyOnce | runner/runtime/script-pool.ts:75-145 | After any run of a worker each promise was settled exactly once or its call is in flight; `live` counts those; a dead worker has none; the worker is referenced exactly while it has some. |
| ScriptRuns.StepSettles | runner/runtime/script-pool.ts:117-137 | A message settles its own call if pending and nothing else; a loss settles exactly what is in flight; other steps settle nothing. |
| ScriptRuns.QuietRejectsNobody | runner/runtime/script-pool.ts:86-90 | A quiet retirement rejects no call. |
| ScriptRuns.DeathSpares | runner/runtime/script-pool.ts:79-82 | Only a loss takes a worker down with calls in flight; a retirement inside a message never does. |
| ScriptRuns.SweepKeeps | runner/runtime/script-pool.ts:187-194 | sweep keeps order and every pending run, and at most 256 finished ones, none over an hour old. |
| ScriptRuns.OldestGo | runner/runtime/script-pool.ts:187-194 | Every record dropped to make room was started before every finished one that stays. |
| ScriptRecords.SweepExact | runner/runtime/script-pool.ts:187-194 | A finished record stays if and only if it is at most an hour old and fewer than 256 such records were started after it, so that all of those stay, or 256; a pending one always stays. |
| ScriptRecords.StartRecords | runner/runtime/script-pool.ts:92-105 | The records once a run has started are the new one, those in flight, and the finished ones that stay. |
| ScriptRecords.ReturnRecords | runner/runtime/script-pool.ts:126-134 | A return marks its own record with its time and no other, unless the worker goes with it. |
| ScriptRecords.DoorsOpen | runner/runtime/script-pool.ts:146-151 | The record that a returned run's requests need is there, over any run, for an hour and until more than 256 calls started after it, while the worker is up. |
| ScriptRecords.GoesIff | runner/runtime/script-pool.ts:79-90 | A worker goes if and only if it is lost; or asked to retire, or asked again, with nothing in flight fifteen minutes after the last return; or retiring, as its last call, one for metadata, comes back that late. |
| ScriptRecords.ReturnGrace | runner/runtime/script-pool.ts:86-90 | Over any run, a worker that is not lost stays up for fifteen minutes after a run of its returned. |
| ScriptRecords.CallIssues | runner/runtime/script-pool.ts:92-115 | A call on a live worker is a promise under a new number, in flight; on a dead one it is none. |
| ScriptRecords.LossRejects | runner/runtime/script-pool.ts:197-215 | A loss rejects with its own reason and leaves nothing in flight. |
| ScriptPool.PkgWorker.StartRun | runner/runtime/script-pool.ts:92-105 | Is the start step: numbered, swept, held; on a dead worker a rejected promise. |
| ScriptPool.PkgWorker.StartMetaCall | runner/runtime/script-pool.ts:107-115 | The same for a meta call. |
| ScriptPool.PkgWorker.ReceiveDone | runner/runtime/script-pool.ts:117-137 | Is the message step: the hold let go, and possibly the worker, before the promise settles. |
| ScriptPool.PkgWorker.CollapseWorker | runner/runtime/script-pool.ts:197-215 | The loops reject every pending run and meta once, in order. |
| ScriptPool.PkgWorker.SweepRuns | runner/runtime/script-pool.ts:187-194 | The two passes compute the sweep, of which ScriptRecords.SweepExact says what stays. |
| ScriptPool.Pool.WorkerFor | runner/runtime/script-pool.ts:235-247 | The standing worker or a fresh one, never dead or retiring. |
| ScriptPool.Pool.Deliver | runner/runtime/script-pool.ts:233-247 | Whatever happens to a worker, the pool holds no dead one and loses only that worker, if it died. |
| ScriptPool.Pool.RunInWorker | runner/runtime/script-pool.ts:250-252 | A call is always taken and pending. |
| ScriptPool.Pool.RetireScriptWorkers | runner/runtime/script-pool.ts:264-282 | Every standing worker of the package is retiring afterwards, nobody was rejected, and the count is right. |
| Sse.FeedIsChars | chat/src/sse.ts:43-56 | feed computes what a character-at-a-time reference does. |
| Sse.Chunking | chat/src/sse.ts:43-56 | Any split of a text gives the messages and state of the whole text. |
| Sse.CutShort | chat/src/sse.ts:43-56 | A stream cut short yields a prefix of the messages. |
| Sse.FramesRead | runner/runtime/wire.ts:263-276 | Frames with heartbeats between them, cut anywhere, read as exactly the payloads sent, with nothing left over, if and only if every payload is a single line. |
| SseMessages.FlushIs | chat/src/sse.ts:59-66 | What flush gives is exactly what two more line feeds would have ended, and the parser stands as at the start. |
| SseMessages.FlushedWhole | chat/src/sse.ts:43-66 | Any cut of a text, fed and then flushed, gives the messages of that text followed by two line feeds. |
| SseMessages.MessageRead | chat/src/sse.ts:36-56 | A message in any number of data lines, with or without the space and the carriage return, other fields between them, is read as the one text whose lines are their values. |
| SseMessages.TextRead | chat/src/sse.ts:36-56 | So any text without a line ending in a carriage return comes back, of however many lines. |
| Sse.SSEParser.FeedChunk | chat/src/sse.ts:43-56 | The loop over the lines computes feed. |
| Sse.SSEParser.FlushTail | chat/src/sse.ts:59-66 | Computes flush, of which SseMessages.FlushIs says what it gives, and resets the parser. |
| Suites.OrderOrDeadlock | runner/supply/suites.ts:106-133 | The order is a permutation with every provider of the set first; it fails if and only if some non-empty subset has each member needing another of it, and names such members. |
| Suites.ComputeOrder | runner/supply/suites.ts:106-133 | The loops compute that order, the first member not installed, or the members left over. |
| Suites.Closure | runner/supply/suites.ts:140-148 | Terminates over the list it lengthens; no duplicates; the least set with the installed members that is closed under component grants. |
| Suites.SuiteOrder | runner/supply/suites.ts:163-167 | The packages of an archive are that least set, each once, every provider that a manifest names before its consumer. |
| SuiteLayers.OrderIsLayers | runner/supply/suites.ts:121-132 | The order goes by depth of need, and within a depth by the list. |
| SuiteLayers.OneDepth | runner/supply/suites.ts:121-132 | Depths are determined by the needs alone. |
| SuiteLayers.LeftOver | runner/supply/suites.ts:124-125 | What is named when there is no order is, in the order of the list, every member of any set whose members need one another. |
| SuiteLayers.MissingFirst | runner/supply/suites.ts:110-112 | It is refused for a member that is not installed if and only if there is one, and the first is named. |
| Nav.CollectMounts | runner/runtime/shell.ts:197-203 | The loop collects each provider's consumers in ledger order. |
| Nav.MountedInIs | runner/runtime/shell.ts:194-203 | They are exactly the installed consumers of a component grant, each once, the first from the first such grant. |
| Nav.PlaceBefore | runner/runtime/shell.ts:233-250 | Before the pass a package stands at the top if and only if its mode is always or no installed package mounts it, and else below the consumer of the first such grant in the ledger. |
| Nav.CutCycles | runner/runtime/shell.ts:253-268 | After the pass every chain ends, and the parents are as Nav.CutSpec says. |
| Nav.CutSpec | runner/runtime/shell.ts:253-268 | A package whose chain ended keeps its parent; one whose chain did not loses it if and only if no package before it in the ledger is on its chain. |
| Nav.CutBelowCycle | runner/runtime/shell.ts:253-268 | A package below a cycle is cut although its chain never returns to it. |
| Nav.Place | runner/runtime/shell.ts:194-268 | From grants and modes to a forest over all installed packages. |
| DeliveryRuns.NothingLost | runner/runtime/tools.ts:234-313 | After any run with crashes anywhere each promise is on disk, was delivered, or was dropped by the rule; attempts never exceed 3; every delivery goes where its promise says, and the sweep delivers only the delegation's own lines, never one older than the promise. |
| DeliveryRuns.RecordLeaves | runner/runtime/tools.ts:241-245 | A record leaves the disk only after its delivery or by the rule. |
| DeliveryRuns.OnceWithoutCrash | runner/runtime/tools.ts:268-276 | Without crash, sweep or late failure each promise is delivered at most once. |
| DeliveryRuns.LookDoes | runner/runtime/tools.ts:290-303 | The sweep gives a record up if and only if it is over a week old or has failed three times, and delivers it if and only if not and the last line is the delegation's own and later than the promise; else it leaves it alone. |
| DeliveryRuns.DirectNotice | runner/runtime/tools.ts:268-274 | A delivery by the promise's own process clears its record, or leaves it as it is when it fails. |
| DeliveryRuns.SweptNotice | runner/runtime/tools.ts:304-310 | One by the sweep clears it, or costs it one attempt. |
| PendingLedger.DeliverNotice | runner/runtime/tools.ts:194-206 | Succeeds if and only if the first try that does not find the parent busy succeeds, within 360. |
| PendingLedger.Ledger.DeliverOnSettle | runner/runtime/tools.ts:268-270 | The record is on disk before anything else. |
| PendingLedger.Ledger.SweepPending | runner/runtime/tools.ts:285-313 | The loop leaves each record its due: gone when given up or delivered, one more attempt when failed, untouched when not answered; and counts the deliveries. |
| RotationRuns.StepInv | runner/runtime/oauth.ts:222-263 | Every step but a start from a replaced bundle keeps the invariant on flights, consumers and stored tokens. |
| RotationRuns.StepBase | runner/runtime/oauth.ts:222-245 | Every step without exception keeps flights and the map of refreshes under way in agreement, and each sharing consumer behind a flight of its own credential. |
| RotationRuns.SingleFlight | runner/runtime/oauth.ts:222-245 | At most one refresh of a credential is under way, in every run. |
| RotationRuns.Shares | runner/runtime/oauth.ts:224-226 | In every run a consumer that finds one under way sends nothing and waits for it. |
| RotationRuns.SharedResult | runner/runtime/oauth.ts:249-263 | In every run it gets the result of that flight of its own credential. |
| RotationRuns.StaleIff | runner/runtime/oauth.ts:249-263 | Until a rotation first starts from a replaced bundle, a replaced refresh token is presented if and only if the stored one changed between read and start. |
| RotationRuns.NeverStale | runner/runtime/oauth.ts:249-263 | With read and start in one step it never is. |
| RotationRuns.Gap | runner/runtime/oauth.ts:249-263 | A reachable state in which it is. |
| RotationRuns.OldOverNew | runner/runtime/oauth.ts:55-66 | A reachable state in which such a rotation then stores the replaced refresh token, or none, over the newer one. |
| RotationRuns.KeepsRefresh | runner/runtime/oauth.ts:55-66 | In every run a stored refresh token gives way to none exactly when a flight that got none is written over it; such a flight set out without one, and this takes an earlier start from a replaced bundle. |
| RotationRuns.NonIssuing | runner/runtime/oauth.ts:55-66 | In every run a rotation answered without a refresh token stores the new access token with the refresh token it set out with, which is not put out of use; that is the stored one unless a rotation started from a replaced bundle. |
| RotationLife.Arrives | runner/runtime/oauth.ts:249-253 | A consumer reads at once if and only if no refresh of its credential is under way, and else waits behind it. |
| RotationLife.Decides | runner/runtime/oauth.ts:211-217 | A token is used with a minute left, or a week where only the token itself can renew it, or where nothing can; else it is rotated, by whoever rotates it already. |
| RotationLife.Lasts | runner/runtime/oauth.ts:55-66 | What a rotation stores has the new access token, the new refresh token or else the old, and the rest; a consumer that reads it uses it exactly until a minute before its time. |
| RotationLife.Fails | runner/runtime/oauth.ts:228-243 | A refresh that fails, or cannot be stored, leaves what is stored and frees the credential, and whoever shares it fails. |
| RotationLife.Lands | runner/runtime/oauth.ts:228-243 | One that succeeds frees it too, and whoever shares it gets the new token. |
| RotationLife.RestKept | runner/runtime/oauth.ts:55-66 | Over any run no credential comes or goes, and the client, its secret and the declared fields of each stay what they were. |
| OAuth.Tokens.Rotate | runner/runtime/oauth.ts:224-245 | Returns the flight under way, or starts one and enters it. |
| OAuth.Tokens.UseCredential | runner/runtime/oauth.ts:254-263 | From the read to the await of rotate is the decision step, whatever has happened to the stored credential since the read. |
| Triggers.NotTwice | runner/runtime/triggers.ts:119-140 | With a clock that does not go back, and restarts between sweeps, no trigger fires twice in a minute. |
| Triggers.ExactlyOnce | runner/runtime/triggers.ts:119-140 | With sweeps at most a minute apart every matching minute between the first and the last fires exactly once. |
| Triggers.RefireIff | runner/runtime/triggers.ts:119-140 | Whatever the clock does, a matching trigger fires if and only if its last firing was not in this minute. |
| Triggers.FiresWhen | runner/runtime/triggers.ts:12-37 | A trigger fires if and only if it has not fired in this minute and each of the five fields names what the clock shows: any value, a multiple of a step, a value of an interval, or one value. |
| Triggers.MinuteIs | runner/runtime/triggers.ts:131-131 | A minute is sixty seconds, from the first and without the next minute's. |
| Triggers.ClockSetBack | runner/runtime/triggers.ts:119-140 | A clock set back makes one fire twice. |
| Triggers.DiesBeforeSaving | runner/runtime/triggers.ts:77-85 | After a sweep that dies before it saves, a trigger fires in that minute if and only if the record does not have it there. |
| Triggers.Ticker.SweepOnce | runner/runtime/triggers.ts:119-140 | The loop is the sweep step, record saved at its end. |
| Triggers.Ticker.Recover | runner/runtime/triggers.ts:87-91 | A new process has the recorded firings. |

## Left out

- HTTP, the file system, child processes, worker threads: files are maps and sequences, processes are sources of events, an SSE response is a sequence of lines. Writes to ledgers and pending records are taken to succeed, each as one step.
- gzip, sha256, signatures, base64 and UTF-8: an archive is its tar image with gunzip's output limit, and paths are octets, so that sorting, splitting and limits count octets where the code counts UTF-16 units in the first two.
- Turns: a TurnRecord is a value in a map keyed by id, not an object that several structures share. The `t` stamp of a line and its JSON form are left out, the fixed messages are stand-ins, and pruning old ledgers is not modelled.
- TurnOrder.SettledLedger: of a turn whose file got an event that was not relayed to it, what the ledger then looks like is left open, since such events may come at any point; who still has the turn is not.
- Turns: several sessions added or removed in one request are that many steps, and so are the two halves of an awaited handler.
- Residents: spontaneous turns (`spont`), the clock of open questions, stall times, signals and steering. A resident is the same thing as its process. What the output and exit code of a process of one turn come to is a parameter. Lines come from processes that have not closed.
- ResidentRuns.OneTurn: asks for a run without late closes, and so do ResidentRuns.LiveHasTurn and ResidentRuns.SettlingFrees; ResidentRuns.LateClose is a run where they fail.
- Ustar: what unpacking does to a real tree (paths that normalise to one target, a file where a directory is needed). The check that a joined path stays below its destination is left out, since UstarEntries.StaysBelow shows that it never fails. A size field that does not parse as a natural number ends the modelled reading (`OddSize`).
- UstarImages.RoundTrip: asks for paths without NUL and modes below 8^7, what the octal and text fields hold.
- Der: splitting dotted text into arcs and `Number`; every length is below 2^53; tags are one octet. PEM, key generation and the signature itself are parameters.
- ScriptRuns: doors (requests a verb makes back) and what runs and metas return; a run's deadline is one of the losses that can happen while it is in flight.
- Sse: decodeSSEData, and lone carriage returns as line ends, which the parser does not treat as such.
- Suites: reading manifests and resolveProvider are the `edges` of the ledger.
- Nav: labels, faces and the order of the list. Modes and grants are inputs.
- Deliveries: the text of an answer. A crash in the middle of a file write is not modelled.
- Rotation: the sign-in flow that stores a credential anew, empty refresh tokens, bundles from before bundles existed, and the tokens that a server spends although the result could not be stored.
- Triggers: the text form of cron fields, time zones (a clock gives what each minute shows), event triggers and their debouncing, the report of missed minutes.
