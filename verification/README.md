# The vault supervisor

A model, with proofs, of the part of MaidSafe's vault manager that keeps vaults running:
a daemon that starts vault processes on behalf of clients, watches over them, restarts
them, hands their keys to their owners and remembers them in a config file.

## What is modelled

**The child table** (`Supervision`, `ProcessManagement`). A vector of children searched by
label, connection and process id. A child has a status, a timer, an on-exit functor and a
restart count. Exits come from a signal, from the start timer, from the stop timer or from
a closed connection, and all go through one function that erases the child, calls its
functor, which may add a process again, and posts a restart.

**The registries and the handlers** (`Registries`, `Management`, `VaultManagement`). New
connections, unvalidated and validated clients, the stability flag, the config file, and
the handlers that move connections and vaults between them. `Management.Step` takes one of
seventeen events; a run is a sequence of them after one of the three ways the constructor
goes. Key pairs are shared between infos that were copied from one another, and moving out of
one is seen through all of them.

**The client side** (`Rpc`, `ClientRequests`). Promises with a timer and a once-flag, the
chain of response callbacks that each capture the one before, and the map of vault requests
under way.

**The config file** (`ConfigFiles`). Its writer and reader over a stream of tokens, one
optional field per record, and the handler that owns file and key.

Where the program changes objects in place the model has classes: `ProcessManager`,
`NewConnections`, `ClientConnections`, `VaultManager`, `ResponseCallback`,
`ClientInterface`, `ConfigFile`, `ConfigFileHandler`. Each method is proved to make of the
object's `State()` what a function on values makes of it, and the properties of runs are
proved of these functions. `VaultManager.Dispatch` ties the two together: one event changes
the object graph exactly as `Step` says and keeps the invariant.

| file | holds |
|---|---|
| `Types.dfy`, `Network.dfy` | vaults, messages, what was sent and closed |
| `Registries.dfy` | the two connection registries |
| `Supervision.dfy`, `ProcessManager.dfy` | the child table, as values and as the object |
| `TableProofs.dfy`, `LineageProofs.dfy`, `SupervisorProofs.dfy`, `ConnectionProofs.dfy` | what each operation on it keeps |
| `Management.dfy`, `VaultManager.dfy` | the handlers, as a step function and as the object |
| `ManagerProofs.dfy` | the invariant of every reachable state |
| `Safety.dfy`, `Ownership.dfy`, `Relocation.dfy`, `ClosedConnections.dfy`, `Persistence.dfy`, `Traces.dfy`, `Effects.dfy`, `Shutdown.dfy`, `WindingDown.dfy` | the results about runs |
| `Outcomes.dfy` | event by event, all that comes of it |
| `Witnesses.dfy` | runs that show where a property ends |
| `Rpc.dfy`, `ClientRequests.dfy` | promises, timers and requests of a client |
| `ConfigFile.dfy` | the config file |

## How the world appears

- One io thread runs the handlers, so an event is one atomic step. Events may come in any
  order and number.
- A timer that runs out queues its handler; cancelling the timer does not take the handler
  back, and the handler acts by label, on whichever child has that label by then. Queued
  handlers and posted restarts may run in any order, which allows more than the first in,
  first out of the io_service. So it is with the time limits of the two registries, whose
  handlers have only the connection, and close it whoever has it by then.
- What the environment decides travels in the event: the outcome of a launch and the
  process id (any number, even one in use), whether a file write succeeds, keys, challenge
  bytes, exit codes. A connection may close, and any process id be signalled, at any time.
- A connection is a number that stands for its place in the order of owners; an empty one is
  None, and two empty ones are equal, as in `process_manager.cc:61-63`.
- `History`, `seen`, `asked` and `cleared` are bookkeeping of the model. A lineage is opened by
  each successful AddProcess that is not a restart. `pairs` numbers the key pairs as they are
  allocated.
- Signatures, key names, encryption, decryption and what is left of a key pair that was moved
  from are arbitrary functions; all that is asked is that decryption undoes encryption.
- `halted` marks what the program does not survive: a constructor that throws, or an empty
  connection being dereferenced. No event changes a halted manager.

## Where code and intention differ

- `ConfigFile::load` reads every vault into a local and never appends it
  (`config_file.h:64-75`), though vaults in the file are meant to be restarted
  (`vault_manager.h:51`). `ReaderForgetsVaults` says exactly when this loses vaults. The
  round trip is proved of the records the loop reads; `Boot.FromFile` is the construction that
  was intended, `Boot.Default` and `Boot.Empty` are what the code comes to, whatever the file
  records. `NextLifeIntended` and `NextLifeAsWritten` follow the vaults into the next life.
- Even so the constructor's loop gets through one vault at most, because two unconnected
  vaults conflict: `ReloadExact`, with `TwoVaultsDoNotReload` as an instance.
- Taking over, or tearing down with, a vault that has not connected yet dereferences an empty
  connection: `HaltsExactlyOnEmpty` says when, `TearDownHalts` is a run.
- Taking a vault over in place answers by moving the key pair out of where the table has it
  (`vault_manager.cc:319-320`). From then on the table, the next delivery and the next file
  write have what the move left. `LineageIdentity` says what that is, and `NamesStayDistinct`
  when it costs the table its distinct Pmid names.
- A relocated vault is re-added with its old connection (`vault_manager.cc:335-339`), so a
  starting child may hold one, which its predecessor's exit has closed if it still had it. The
  holder count and the unique keys take this in; `ReturnedIsCutOff` says what becomes of it.
- The handler of a new connection's time limit may run after a vault has reported over that
  connection (`new_connections.cc:43-48`), and closes it. `ClosedByOwnLimit` says that before a
  tear-down this is the one way the connection of a running vault is closed by the manager;
  `LateLimit` is a run.
- `HandleVaultStarted` makes a child running again even if it was being stopped
  (`process_manager.cc:247-249`), and then it is restarted when it exits:
  `StoppedVaultComesBack`. `DrainsExactlyWhenCalm` lists the events that end a shutdown.
- An entry in the client's map may belong to a request that has already timed out, if its
  timer handler runs between the two halves of AddVaultRequest: `EntryResolvedExactly` says that
  this is the one way, and `EntryMayBeResolved` is a run.
- The timer handler of one promise empties the callback for all promises registered by then,
  newer ones too: `ClearedIsForGood`.

## Model

| member | source | states |
|---|---|---|
| `Safety.OneHolder` | src/maidsafe/vault_manager/vault_manager.cc:175-188 | in every state any run of events can reach, a connection is held by at most one of: the new connections, the unvalidated clients, the validated clients, one child. A connection captured by a child's on-exit functor counts as held by that child |
| `Safety.AssertsNeverFire` | src/maidsafe/vault_manager/client_connections.cc:42-54 | the asserts in both registries' Add and in Validate hold whatever event comes next, given only that the listener hands out each connection once |
| `Safety.KeysStayUnique` | src/maidsafe/vault_manager/process_manager.cc:73-86 | in every reachable state children have pairwise distinct labels, directories and connections (an empty connection is a value like any other, so at most one child has none), all are complete, none is left before its start and restart counts stay in 0..5 |
| `Ownership.NamesStayDistinct` | src/maidsafe/vault_manager/process_manager.cc:66-71 | the fourth key: over any run the Pmid names of the children are distinct in all its states if and only if no step takes a vault over in place that the move out of its key pair leaves with the Pmid name of another child |
| `Ownership.NamesStep` | src/maidsafe/vault_manager/vault_manager.cc:314-321 | the same for one step from any state that satisfies the invariant |
| `Witnesses.NamesAlwaysDistinct` | src/maidsafe/vault_manager/vault_manager.cc:319-320 | where anyone can be validated, the names are distinct in every state of every run if and only if moving out of a key pair never changes its name |
| `Witnesses.MovedNameClashes` | src/maidsafe/vault_manager/vault_manager.cc:319-320 | else there is a run of eight events that ends with two children of one name |
| `TableProofs.AddProcessExact` | src/maidsafe/vault_manager/process_manager.cc:219-236 | strong guarantee: exactly one child, starting and with its timer set, is appended if and only if the vault is complete, its restarts are allowed, the launch succeeds and no child has its label, directory, connection or Pmid name; the table then keeps its unique keys and, if it had them, its distinct names. A refusal returns no new state, and ProcessManager.AddProcess then leaves the old one |
| `TableProofs.VaultStartedKeepsUnique` | src/maidsafe/vault_manager/process_manager.cc:238-251 | overwriting a child's connection keeps the keys unique if and only if no other child has the new connection |
| `TableProofs.FindIsExact` | src/maidsafe/vault_manager/process_manager.cc:395-428 | with unique keys the first match by label or by connection is the child meant |
| `ConnectionProofs.RelocationSound` | src/maidsafe/vault_manager/process_manager.cc:482-486 | the re-add by an on-exit functor, with the child gone from the table, succeeds if and only if its directory is not empty, no other child uses it or has the vault's Pmid name, and the launch succeeds: never a conflict with its own old label, Pmid or connection |
| `Relocation.RelocationNeverSelfConflicts` | src/maidsafe/vault_manager/vault_manager.cc:331-341 | the same in every reachable state, for every functor on any child |
| `Relocation.RelocationEndToEnd` | src/maidsafe/vault_manager/vault_manager.cc:307-341 | in every reachable state a validated client takes a connected vault over in another directory; after any further events, as long as that functor is in place it sits on that vault, bound to the directory, owner and limit of the take-over and to the vault's label, key pair and old connection; and the exit then brings the vault back, once, at the end of the table and as a new lineage, if and only if the directory is not empty, no other child has come to use it or the Pmid name, and it launches; a lineage that was stopping has ended as stopped |
| `Relocation.ContinueFunctorsStay` | src/maidsafe/vault_manager/process_manager.cc:347-369 | over any events functors that are in place sit on the vault they sat on and will add what they would have added, but for what became of its keys |
| `Relocation.RelocationReturns` | src/maidsafe/vault_manager/process_manager.cc:478-486 | the exit of a child with a functor closes the child's connection and leaves the table without the child and, if and only if it may return, with its successor at the end |
| `ClosedConnections.ReturnedIsCutOff` | src/maidsafe/vault_manager/vault_manager.cc:335-339 | the successor a functor adds holds the connection of the take-over, which is closed after the exit if and only if it was closed before or its predecessor still had it; if the news of a closing comes then, the successor is out of the table and a restart without a connection is all that is left of it |
| `ClosedConnections.ClosedByOwnLimit` | src/maidsafe/vault_manager/new_connections.cc:41-56 | over every run without a tear-down, a connection that is new, or a running child's, has been closed if and only if the handler of its time limit as a new connection has run: in time, or late, when a child had got it |
| `ClosedConnections.OverranExactly` | src/maidsafe/vault_manager/new_connections.cc:43-48 | that it has run means that an event of the run ran it, when it was queued |
| `ClosedConnections.NobodyLingers` | src/maidsafe/vault_manager/client_connections.cc:42-54 | over every run each new connection and each client still to be validated has its time limit set, or its handler queued, or that has run |
| `ClosedConnections.LimitCloses` | src/maidsafe/vault_manager/new_connections.cc:43-48 | a limit that runs out and whose handler runs closes its connection |
| `Witnesses.SilentConnection` | src/maidsafe/vault_manager/new_connections.cc:41-52 | a run after which a new connection is closed and still registered |
| `Witnesses.LateLimit` | src/maidsafe/vault_manager/new_connections.cc:54-56 | a run in which the handler is queued when the vault reports over the connection: the vault runs, and its connection is closed under it |
| `Safety.LaunchesBounded6` | src/maidsafe/vault_manager/process_manager.cc:514-526 | over every run, launches made plus restarts still possible are at most six for each vault added; launches are exits plus children in the table; no lineage is launched more than six times; a posted restart never asks for more than five |
| `Safety.LaunchesToCome` | src/maidsafe/vault_manager/process_manager.cc:451-487 | from any reachable state on, further launches and exits are bounded by the remaining budget plus six for each vault added later: with no new adds there are finitely many |
| `Safety.LineagesBalance` | src/maidsafe/vault_manager/process_manager.cc:458-486 | every vault ever added is at any time exactly one child, or exactly one posted restart, or has ended, and nothing else is |
| `LineageProofs.ExitFate` | src/maidsafe/vault_manager/process_manager.cc:458-487 | an exit ends the lineage as stopped if and only if the child was stopping, as exhausted if and only if it was not and had used its five restarts, and posts a restart if and only if neither; the lineage leaves the table in each case |
| `Ownership.LineageIdentity` | src/maidsafe/vault_manager/process_manager.cc:460-473 | two children of one lineage, in states any number of events and restarts apart, have the same label, directory and key pair, and the later keys are what the moves in between left of the earlier ones; keys, owner and disk limit are the same unless a TakeOwnershipRequest in between named the label |
| `Safety.PostedRestartsAreClean` | src/maidsafe/vault_manager/process_manager.cc:469-472 | a posted restart carries no connection, and the terms and launch count recorded for its lineage |
| `Ownership.OwnerChangesExactly` | src/maidsafe/vault_manager/process_manager.cc:253-258 | in one step from any reachable state a child that stays has the client's name and the requested limit if it is the one taken over in place, and its old owner and limit if not |
| `Ownership.TermsStep` | src/maidsafe/vault_manager/vault_manager.cc:314-321 | every event changes owner, disk limit and keys recorded of a vault by being a take-over of it, or of one that shares its pair, and exactly so |
| `Ownership.OwnershipIsTaken` | src/maidsafe/vault_manager/vault_manager.cc:314-321 | in every reachable state taking a vault over in its own directory gives that child the client's name and the limit asked for; if the file was written its keys, and those its functor has captured, are what the move left; no other child changes |
| `Safety.NoChildIsStuck` | src/maidsafe/vault_manager/process_manager.cc:294-303 | in every reachable state a starting or stopping child has its timer set or the handler already queued, and that handler, when it runs, takes the child out of the table, even if a functor puts a successor in |
| `Safety.FunctorsRunOnce` | src/maidsafe/vault_manager/process_manager.cc:371-380 | over every run each functor installed is on one child, or was replaced, or has run: one of the three; no functor ran twice, and none while a child with its label was in the table |
| `LineageProofs.ExitRunsFunctorOnce` | src/maidsafe/vault_manager/process_manager.cc:482-512 | the functor in place at an exit had not run before, runs once, with the report of that exit, and finds its child gone; a child without one runs none |
| `Effects.FunctorHearsTheEnd` | src/maidsafe/vault_manager/process_manager.cc:496-512 | a functor is told success or the exit code when a signal brought the exit, and termination when a timer did |
| `Traces.KeysGoToOwners` | src/maidsafe/vault_manager/vault_manager.cc:317-363 | over every run, every message was sent by a step after which it is properly addressed: a vault's keys to a connection validated under exactly the owner of the child with that label, and they are the keys that child had just before; credentials to the vault itself; a shutdown request to a child then stopping; and so on for each kind |
| `Traces.ValidatedWasProved` | src/maidsafe/vault_manager/client_connections.cc:56-78 | over every run, a connection validated under a name was earlier sent a challenge on that connection and later returned a signature on exactly that challenge, verifying under a key of that name |
| `Traces.WaitingWasChallenged` | src/maidsafe/vault_manager/vault_manager.cc:233-239 | over every run, a connection waiting to be validated was sent the challenge that is kept for it |
| `Safety.NoLostStabilityNotice` | src/maidsafe/vault_manager/vault_manager.cc:371-387 | over every run, a client that asked while it was tracked and still is has been sent a NetworkStableResponse once the network is marked stable, whichever came first |
| `Effects.StableIsForGood` | src/maidsafe/vault_manager/vault_manager.cc:380-387 | once stable always stable, and every later request is answered |
| `Traces.OwnersAreTold` | src/maidsafe/vault_manager/vault_manager.cc:356-363 | over every run, if a vault reports when its owner is validated, a connection validated as that owner has been sent the keys the vault had then |
| `Traces.LogsAreTold` | src/maidsafe/vault_manager/vault_manager.cc:403-411 | over every run, what a vault logs when its owner is validated has been sent to a connection of the owner |
| `Traces.AllAreTold` | src/maidsafe/vault_manager/vault_manager.cc:371-378 | over every run, each client tracked when the network is marked stable has been told |
| `Traces.ClosedIsGone` | src/maidsafe/vault_manager/vault_manager.cc:182-188 | in every reachable state a connection that closes is in no registry then, nor after any further events |
| `Shutdown.StopAllStopsAll` | src/maidsafe/vault_manager/process_manager.cc:182-191 | StopAll on a connected table leaves each child in its place, stopping, with no functor and its timer set, and sends one shutdown request to each in table order; the state is then draining if and only if no restart is posted |
| `Shutdown.ShutdownConverges` | src/maidsafe/vault_manager/process_manager.cc:451-487 | from a draining state (every child stopping without functor, no restart posted) every sequence of events, none of which breaks it, only removes children and launches none |
| `Shutdown.DrainsExactlyWhenCalm` | src/maidsafe/vault_manager/process_manager.cc:238-251 | a draining state stays so throughout a run of events if and only if none is a StartVaultRequest that is granted, a VaultStarted over a new connection from a process in the table, or a validated client's take-over of a connected vault in another directory |
| `Shutdown.DrainingStep` | src/maidsafe/vault_manager/process_manager.cc:451-487 | the same for each single event |
| `Witnesses.StoppedVaultComesBack` | src/maidsafe/vault_manager/process_manager.cc:247-249 | a run in which the manager's own vault is torn down, reports once more over another connection, which closes, and is launched again |
| `Shutdown.DrainedWhenTimersRan` | src/maidsafe/vault_manager/process_manager.cc:359-368 | after any events that do not break the draining, the table is empty if and only if no child has its timer set or a handler for it queued |
| `Shutdown.TimersEmptyTheTable` | src/maidsafe/vault_manager/process_manager.cc:359-368 | from a draining state there are timer events alone that empty the table |
| `Shutdown.TearDownDrains` | src/maidsafe/vault_manager/vault_manager.cc:159-173 | the destructor's work in any reachable state with all vaults connected and no restart posted closes every registered connection and stops every child; from there any events that do not break the draining only remove children and launch none |
| `WindingDown.TearDownWindsDown` | src/maidsafe/vault_manager/process_manager.cc:182-191 | with restarts posted as well: whatever follows and does not break the shutdown, every child is starting or stopping without a functor, no vault is added, launches and exits do not exceed what the restarts left at the tear-down allow, and the table is empty if and only if no child has its timer set or a handler for it queued |
| `WindingDown.WindingStep` | src/maidsafe/vault_manager/process_manager.cc:451-487 | every event keeps all children starting or stopping without a functor if and only if it is not a VaultStarted for a child over a new connection nor a relocation |
| `WindingDown.NothingIsLeft` | src/maidsafe/vault_manager/process_manager.cc:514-526 | from such a state timers and posted restarts, even if all of those launch, come to an end: no child and no restart is left |
| `Safety.HaltsExactlyOnEmpty` | src/maidsafe/vault_manager/vault_manager.cc:314-341 | in every reachable state a handler dereferences an empty connection if and only if it is a take-over, by a validated client, of an unconnected vault into another directory or with a new limit other than 0, or a first tear-down with an unconnected vault |
| `Witnesses.TearDownHalts` | src/maidsafe/vault_manager/process_manager.cc:357-357 | a run in which it happens: a tear-down before the manager's own vault has reported |
| `Safety.ReloadExact` | src/maidsafe/vault_manager/vault_manager.cc:137-138 | the constructor's loop gets through the vaults of the file if and only if there are none, or there is one, complete, and it launches: a second one is refused for being unconnected like the first |
| `Safety.TwoVaultsDoNotReload` | src/maidsafe/vault_manager/vault_manager.cc:137-138 | two vaults that differ in everything but their missing connections, for which construction fails |
| `Safety.DefaultExact` | src/maidsafe/vault_manager/vault_manager.cc:109-135 | the constructor that has read no vaults starts and writes its own, over whatever the file recorded, if and only if that is complete, launches and the file can be written |
| `Persistence.FileStaysSound` | src/maidsafe/vault_manager/vault_manager.cc:283-318 | over every run from a construction that worked, the manager brought down or not, the file records complete vaults with pairwise distinct labels and directories, and with distinct Pmid names if the children always had them |
| `Persistence.NextLifeIntended` | src/maidsafe/vault_manager/vault_manager.h:51-52 | from one life to the next: had the reader kept what it reads, the vaults the file of any run records would be up and recorded in the next construction if and only if there is at most one and it launches |
| `Persistence.NextLifeAsWritten` | src/maidsafe/vault_manager/vault_manager.cc:108-139 | as the code stands none of them is up after the next construction; a build that starts a vault of its own overwrites the file, one for testing leaves it until the next write |
| `ManagerProofs.StepKeeps` | src/maidsafe/vault_manager/vault_manager.cc:190-231 | every event keeps the invariant of the whole manager (unique keys, watched timers, lineage partition, ledger, functors, budget, key pairs, registries, holders, stability) and forgets nothing sent |
| `ManagerProofs.RunInv` | src/maidsafe/vault_manager/vault_manager.cc:95-141 | that invariant holds after construction and after every run |
| `ManagerProofs.ContinueKeeps` | src/maidsafe/vault_manager/vault_manager.cc:190-231 | between any two states of a run lineages are never lost nor change identity, and the launch budget is never exceeded |
| `Effects.ValidClientIsAccepted` | src/maidsafe/vault_manager/client_connections.cc:56-78 | a fresh connection that asks and answers is validated under the name of its key if and only if the signature verifies; else it is closed; other clients are untouched |
| `Effects.StartedVaultIsServed` | src/maidsafe/vault_manager/vault_manager.cc:343-354 | a known process that reports over a new connection gets it, runs, has its timer cancelled and is sent its own credentials, and no other child changes; an unknown process changes nothing but its registration |
| `Effects.ClosedLeavesTable` | src/maidsafe/vault_manager/process_manager.cc:371-380 | in every reachable state the child that held a connection that closes is out of the table |
| `Effects.RestartExact` | src/maidsafe/vault_manager/process_manager.cc:514-526 | in every reachable state a posted restart puts its vault back, with one restart more, if it launches and all keys stay unique, else its lineage ends as refused; too many restarts are never the reason |
| `Outcomes.ExitEventExact` | src/maidsafe/vault_manager/process_manager.cc:451-487 | in every reachable state a closed connection, a timer's handler or a signal that finds a child ends it exactly so: its connection is closed, its functor called once with how it ended, its restart posted without the connection and with its count, or its lineage ended as stopped or exhausted, and its vault put back if it has a functor and may return; the file records the table if and only if a vault was put back and the write succeeds; nothing else changes |
| `Outcomes.NobodyLeaves` | src/maidsafe/vault_manager/vault_manager.cc:182-188 | one that finds no child ends none: a signal changes nothing, a handler is off the queue, a connection is out of its registry, timer and all |
| `Outcomes.TakeOverIsRefused` | src/maidsafe/vault_manager/vault_manager.cc:300-328 | a take-over by a client that is not validated, or of a label no child has, is answered by one refusal and changes nothing else |
| `Outcomes.TakeOverHalts` | src/maidsafe/vault_manager/vault_manager.cc:314-334 | in every reachable state a take-over of an unconnected vault that would have to be told of it brings the manager down and changes nothing else |
| `Outcomes.TakeOverRelocates` | src/maidsafe/vault_manager/vault_manager.cc:307-341 | in every reachable state a take-over of a connected vault elsewhere sends it two shutdown requests and nobody an answer, and stops it with the functor that adds it there; nothing else changes |
| `Outcomes.TakeOverInPlace` | src/maidsafe/vault_manager/vault_manager.cc:314-328 | in every reachable state a take-over where the vault is sends a new limit to the vault, if it is new and not 0, then the keys to the client, or a refusal if the file could not be written; the file records the table as it was before the keys were moved out |
| `Outcomes.RequestExact` | src/maidsafe/vault_manager/vault_manager.cc:248-293 | a request for a vault is granted, recorded and not answered, or refused, exactly under the conditions on label, keys, directory, names, connections, launch and write, and touches nothing else |
| `Outcomes.RestartRunsExact` | src/maidsafe/vault_manager/process_manager.cc:519-525 | in every reachable state a posted restart that runs appends its vault with one restart more, or ends its lineage as refused, and touches nothing else |
| `Outcomes.ReportExact` | src/maidsafe/vault_manager/vault_manager.cc:343-363 | in every reachable state a report over a new connection takes that out of the new ones; the child with the process, if any, runs over it and is sent its credentials, and then the least connection of its owner, if any, the keys; nothing else changes |
| `Outcomes.LogExact` | src/maidsafe/vault_manager/vault_manager.cc:403-411 | in every reachable state what a vault logs is sent to the least connection of its owner, if there is one, and nothing else changes |
| `Outcomes.NobodyAnswers` | src/maidsafe/vault_manager/vault_manager.cc:413-418 | an event that is addressed to nobody (twelve cases, from a connection no longer new to a process id no child has) changes nothing and is not answered |
| `Outcomes.ArrivalExact` | src/maidsafe/vault_manager/new_connections.cc:41-52 | a new connection is registered and its time limit set |
| `Outcomes.ChallengeExact` | src/maidsafe/vault_manager/vault_manager.cc:233-239 | in every reachable state a new connection that asks is sent its challenge and waits with it under a time limit, and no longer as new |
| `Outcomes.ResponseExact` | src/maidsafe/vault_manager/client_connections.cc:56-78 | in every reachable state a waiting connection is validated under its key's name if the signature verifies, and is closed and left waiting if not; nothing else changes |
| `Outcomes.LimitExact` | src/maidsafe/vault_manager/client_connections.cc:44-50 | a time limit that runs out is queued, and its handler closes the connection, in either registry |
| `Outcomes.ExpiryExact` | src/maidsafe/vault_manager/process_manager.cc:294-303 | a child's timer that runs out is queued under the child's label |
| `Outcomes.StabilityExact` | src/maidsafe/vault_manager/vault_manager.cc:371-387 | marking the network stable only sends and sets the flag; a request is answered if and only if the flag is set |
| `Outcomes.TearDownExact` | src/maidsafe/vault_manager/vault_manager.cc:159-173 | in every reachable state a tear-down closes every registered connection; the first stops all children, or brings the manager down if one is unconnected; a later one leaves them alone |
| `Outcomes.RefusalsExact` | src/maidsafe/vault_manager/process_manager.cc:219-236 | which of the three errors an AddProcess ends with, and when |
| `Outcomes.UnknownProcess` | src/maidsafe/vault_manager/process_manager.cc:238-258 | stopping, starting or assigning an owner finds nothing if and only if no child has the connection, process id or label, and then changes nothing |
| `Outcomes.NameOfExact` | src/maidsafe/vault_manager/client_connections.cc:103-116 | the name of a client, or which of the two exceptions |
| `Outcomes.ListedInOrder` | src/maidsafe/vault_manager/client_connections.cc:130-137 | the list of clients is two ascending parts, the validated ones first |
| `ProcessManagement.ProcessManager.constructor` | src/maidsafe/vault_manager/process_manager.cc:144-171 | an empty table and nothing queued |
| `ProcessManagement.ProcessManager.DoFind` | src/maidsafe/vault_manager/process_manager.cc:384-428 | the loop finds the first match or the end |
| `ProcessManagement.ProcessManager.GetAll` | src/maidsafe/vault_manager/process_manager.cc:212-217 | the infos of all children in table order |
| `ProcessManagement.ProcessManager.StartProcess` | src/maidsafe/vault_manager/process_manager.cc:260-304 | on success, for a child not started before, it has its process, is starting and its timer is set; else nothing changed |
| `ProcessManagement.ProcessManager.AddProcess` | src/maidsafe/vault_manager/process_manager.cc:219-236 | emplace, launch and, if that fails, erase again come to the specified addition or to exactly the old state |
| `ProcessManagement.ProcessManager.HandleVaultStarted` | src/maidsafe/vault_manager/process_manager.cc:238-251 | by process id: the specified new state and the updated info, or no such element and no change |
| `ProcessManagement.ProcessManager.AssignOwner` | src/maidsafe/vault_manager/process_manager.cc:253-258 | owner and disk limit of the child with the label, or no such element and no change |
| `ProcessManagement.ProcessManager.StopProcess` | src/maidsafe/vault_manager/process_manager.cc:347-369 | functor, status, shutdown request and timer of the child with the connection; an unknown one is ignored |
| `ProcessManagement.ProcessManager.StopAll` | src/maidsafe/vault_manager/process_manager.cc:182-191 | once only, the loop of stops by lookup |
| `ProcessManagement.ProcessManager.InvokeOnExitFunctor` | src/maidsafe/vault_manager/process_manager.cc:496-512 | the functor's AddProcess, its exceptions caught, and whether it went on to write the file |
| `ProcessManagement.ProcessManager.RestartIfRequired` | src/maidsafe/vault_manager/process_manager.cc:514-526 | ends the lineage or posts the restart |
| `ProcessManagement.ProcessManager.OnProcessExit` | src/maidsafe/vault_manager/process_manager.cc:451-487 | close, erase, call, decide on a restart, in that order |
| `ProcessManagement.ProcessManager.HandleConnectionClosed` | src/maidsafe/vault_manager/process_manager.cc:371-380 | false and no change if no child has the connection, else its exit as terminated |
| `ProcessManagement.ProcessManager.HandleChildSignal` | src/maidsafe/vault_manager/process_manager.cc:306-345 | the exit of the first child with the process id, with its exit code |
| `ProcessManagement.ProcessManager.RunTimeout` | src/maidsafe/vault_manager/process_manager.cc:360-368 | a queued timer handler acts on whichever child has the label by then |
| `ProcessManagement.ProcessManager.RunRestart` | src/maidsafe/vault_manager/process_manager.cc:519-525 | a posted restart adds its vault with one restart more, a failure being only logged |
| `Registries.NewConnections.Add` | src/maidsafe/vault_manager/new_connections.cc:41-52 | the connection joins, under a time limit; that it was not there, the assert, is what the caller owes |
| `Registries.NewConnections.Remove` | src/maidsafe/vault_manager/new_connections.cc:54-56 | whether it was there, and that it is no longer, nor waited for; a handler that is queued stays so |
| `Registries.NewConnections.LimitRuns` | src/maidsafe/vault_manager/new_connections.cc:43-48 | a queued handler closes its connection, wherever that is by then |
| `Registries.NewConnections.CloseAll` | src/maidsafe/vault_manager/new_connections.cc:58-61 | every registered connection is closed and no other |
| `Registries.ClientConnections.Add` | src/maidsafe/vault_manager/client_connections.cc:42-54 | the connection waits with its challenge, under a time limit; both asserts are what the caller owes |
| `Registries.ClientConnections.LimitRuns` | src/maidsafe/vault_manager/client_connections.cc:45-50 | a queued handler closes its connection, validated by then or not |
| `Registries.ClientConnections.Validate` | src/maidsafe/vault_manager/client_connections.cc:56-78 | moves the connection to the validated clients under the key's name if and only if it waits and the signature verifies; a bad signature closes it and leaves it waiting; an unknown one, or one validated before, changes nothing |
| `Registries.ClientConnections.Remove` | src/maidsafe/vault_manager/client_connections.cc:80-94 | whether it was tracked, and that it is no longer |
| `Registries.ClientConnections.CloseAll` | src/maidsafe/vault_manager/client_connections.cc:96-101 | every tracked connection is closed and no other |
| `Registries.ClientConnections.NameOf` | src/maidsafe/vault_manager/client_connections.cc:103-116 | the name, or which of the two exceptions |
| `Registries.ClientConnections.GetAll` | src/maidsafe/vault_manager/client_connections.cc:130-137 | the two loops list the validated clients, then the others |
| `Registries.ClientConnections.FindValidated` | src/maidsafe/vault_manager/client_connections.cc:118-128 | the search in map order finds a client of the name, if there is one |
| `Registries.Clients.FindValidated` | src/maidsafe/vault_manager/client_connections.cc:118-128 | what is found is validated under the name and the least such; none means no client has the name |
| `Registries.Clients.GetAll` | src/maidsafe/vault_manager/client_connections.cc:130-137 | lists exactly the tracked connections |
| `VaultManagement.VaultManager.constructor` | src/maidsafe/vault_manager/vault_manager.cc:95-141 | for any config file, with vaults or without, ends in the state constructed from what was made of it, in which the invariant holds |
| `VaultManagement.VaultManager.ReloadVaults` | src/maidsafe/vault_manager/vault_manager.cc:137-138 | the loop adds the vaults in order and the first refusal leaves it |
| `VaultManagement.VaultManager.HandleNewConnection` | src/maidsafe/vault_manager/vault_manager.cc:175-180 | a fresh connection is registered as new |
| `VaultManagement.VaultManager.HandleConnectionClosed` | src/maidsafe/vault_manager/vault_manager.cc:182-188 | a child's, else a client's, else a new connection, in that order; a functor's file write happens |
| `VaultManagement.VaultManager.HandleValidateConnectionRequest` | src/maidsafe/vault_manager/vault_manager.cc:233-239 | moves a new connection to the unvalidated clients and sends its challenge; any other is an exception and no change |
| `VaultManagement.VaultManager.HandleChallengeResponse` | src/maidsafe/vault_manager/vault_manager.cc:241-245 | validation on the client registry |
| `VaultManagement.VaultManager.HandleStartVaultRequest` | src/maidsafe/vault_manager/vault_manager.cc:248-293 | adds and writes, or refuses |
| `VaultManagement.VaultManager.HandleTakeOwnershipRequest` | src/maidsafe/vault_manager/vault_manager.cc:295-329 | relocates, or assigns in place, or refuses |
| `VaultManagement.VaultManager.Answer` | src/maidsafe/vault_manager/vault_manager.cc:318-328 | writes the file and then answers with the keys, which are moved out of the pair the table shares, or refuses |
| `VaultManagement.VaultManager.ChangeChunkstorePath` | src/maidsafe/vault_manager/vault_manager.cc:331-341 | two shutdown requests and the functor that re-adds the vault as captured |
| `VaultManagement.VaultManager.HandleVaultStarted` | src/maidsafe/vault_manager/vault_manager.cc:343-368 | the vault gets its credentials and a connected owner the keys |
| `VaultManagement.VaultManager.HandleVaultLog` | src/maidsafe/vault_manager/vault_manager.cc:390-411 | a message for the owner of the vault on the connection, if there is one |
| `VaultManagement.VaultManager.HandleSetNetworkAsStable` | src/maidsafe/vault_manager/vault_manager.cc:371-378 | all clients are told and the flag set |
| `VaultManagement.VaultManager.HandleNetworkStableRequest` | src/maidsafe/vault_manager/vault_manager.cc:380-387 | answered if the flag is set |
| `VaultManagement.VaultManager.HandleLimitRuns` | src/maidsafe/vault_manager/client_connections.cc:45-50 | the handler of a time limit of either registry |
| `VaultManagement.VaultManager.TearDown` | src/maidsafe/vault_manager/vault_manager.cc:165-170 | closes both registries and stops all vaults |
| `VaultManagement.VaultManager.Dispatch` | src/maidsafe/vault_manager/vault_manager.cc:190-231 | whatever comes, the object's handlers change it exactly as the step function says and keep the invariant |
| `Rpc.PromisesResolveOnce` | src/maidsafe/vault_manager/rpc_helper.h:45-72 | under any interleaving of registrations, waits, responses, expiries, errors and handlers each promise is resolved at most once; an unresolved one has a timer that was not cancelled and has not drained; a cancelled or drained timer means it is resolved |
| `Rpc.HandlerExact` | src/maidsafe/vault_manager/rpc_helper.h:96-106 | in every reachable state the handler of a timer that ran out or failed resolves its promise, if that is not yet, as timed out or with the timer's error, and empties the callback: all promises registered by then are stranded and a response next changes nothing; an aborted one leaves promise and callback alone, and one not queued is none |
| `Rpc.TimerResolves` | src/maidsafe/vault_manager/rpc_helper.h:96-106 | in every reachable state the handler of an unresolved promise resolves it, with an exception |
| `Rpc.WaitedTimesOut` | src/maidsafe/vault_manager/rpc_helper.h:96-106 | in every reachable state an unresolved promise that is waited on, and whose timer then runs out or fails and has its handler run, ends as timed out or with the error |
| `Rpc.TimerExact` | src/maidsafe/vault_manager/rpc_helper.h:45-50 | waiting sets a timer not waited on before, and only a timer that is set runs out |
| `Rpc.RegisterExact` | src/maidsafe/vault_manager/rpc_helper.h:79-95 | a registration adds one unresolved promise, before the chain that was there |
| `Rpc.ResponseResolvesChain` | src/maidsafe/vault_manager/rpc_helper.h:81-95 | in every reachable state one response resolves every unresolved promise registered since the callback was last emptied, all with the same outcome, aborts those of their timers that are waiting, touches no other promise and leaves the callback in place |
| `Rpc.InvokeSetsAll` | src/maidsafe/vault_manager/rpc_helper.h:84-94 | one pass through the chain of captured callbacks, each setting its own before calling the next and cancelling its timer after |
| `Rpc.HandlerStrands` | src/maidsafe/vault_manager/rpc_helper.h:96-106 | in every reachable state, once the handler of a timer that ran out or failed has run, no promise registered by then gets a value over any further run; those unresolved end by an exception of their own timers |
| `Rpc.ClearedIsForGood` | src/maidsafe/vault_manager/rpc_helper.h:96-106 | the same of any promise registered before the callback was last emptied |
| `Rpc.RunInv` | src/maidsafe/vault_manager/rpc_helper.h:76-108 | the callback is always the promises registered since it was last emptied, newest first, and every promise is sound |
| `Rpc.ResponseCallback.SetResponseCallback` | src/maidsafe/vault_manager/rpc_helper.h:79-95 | a new promise at the head of the chain that was there |
| `Rpc.ResponseCallback.AsyncWait` | src/maidsafe/vault_manager/rpc_helper.h:96-96 | the timer is waited on after the lock is given back |
| `Rpc.ResponseCallback.InvokeClosure` | src/maidsafe/vault_manager/rpc_helper.h:84-94 | set, call the captured callback, cancel: the recursion does what the chain function says |
| `Rpc.ResponseCallback.RunHandler` | src/maidsafe/vault_manager/rpc_helper.h:96-106 | an aborted wait does nothing; any other empties the callback and sets the exception |
| `Rpc.ResponseCallback.InvokeCallBack` | src/maidsafe/vault_manager/client_interface.cc:200-206 | an empty callback is left alone |
| `ClientRequests.RequestsResolveOnce` | src/maidsafe/vault_manager/client_interface.cc:116-135 | with repeated labels and any interleaving each request is resolved at most once, an unresolved one has a timer still to come, and a cancelled or drained timer means it is resolved |
| `ClientRequests.ValueWasAnswered` | src/maidsafe/vault_manager/client_interface.cc:165-192 | over every run a request resolved with keys has a response among the events with its own label and those keys |
| `ClientRequests.ResponseResolvesListed` | src/maidsafe/vault_manager/client_interface.cc:179-191 | in every reachable state a response resolves the request in the map for its label with exactly its outcome, aborts its timer if that is waiting, removes the one entry and leaves every other request and entry as it was |
| `ClientRequests.NextResponseResolves` | src/maidsafe/vault_manager/client_interface.cc:165-192 | over any run an unresolved request in the map stays there unresolved, whatever happens to others, until a response for its label or the handler of a timer for its label; and that response resolves it |
| `ClientRequests.RequestIsEntered` | src/maidsafe/vault_manager/client_interface.cc:116-135 | a request begins unresolved with its timer set, and is entered once, unless its label has an entry, which stays |
| `ClientRequests.RequestHandlerExact` | src/maidsafe/vault_manager/client_interface.cc:120-130 | in every reachable state the handler resolves its request, if that is not yet, as timed out or with the timer's error, and erases the entry of its label, whosever that is; aborted, it does nothing |
| `ClientRequests.RequestTimerExact` | src/maidsafe/vault_manager/client_interface.cc:118-120 | only a timer that is set runs out |
| `ClientRequests.EntryResolvedExactly` | src/maidsafe/vault_manager/client_interface.cc:120-135 | over every run a map entry belongs to a request that is resolved if and only if, among the events, the handler of its own timer ran, the timer having run out or failed, before the second half of its AddVaultRequest |
| `ClientRequests.EntriesAreUnresolved` | src/maidsafe/vault_manager/client_interface.cc:120-135 | over every run a map entry belongs to a request of that label, and that request is resolved if and only if its timer's handler has run |
| `ClientRequests.EntryMayBeResolved` | src/maidsafe/vault_manager/client_interface.cc:120-133 | a run of four events after which the map holds a request that has timed out |
| `ClientRequests.UnlistedTimesOut` | src/maidsafe/vault_manager/client_interface.cc:129-133 | a request the map does not have, for its label was taken or its entry erased, never gets in: over any further run it is resolved by an exception or not at all |
| `ClientRequests.RunRequestsInv` | src/maidsafe/vault_manager/client_interface.cc:116-192 | the invariant behind these |
| `ClientRequests.ClientInterface.AddVaultRequest` | src/maidsafe/vault_manager/client_interface.cc:116-135 | both halves: the promise with its waiting timer, and the entry unless the label has one |
| `ClientRequests.ClientInterface.HandleVaultRunningResponse` | src/maidsafe/vault_manager/client_interface.cc:165-192 | resolves the listed request, cancels its timer and erases the entry; else no change |
| `ClientRequests.ClientInterface.RunHandler` | src/maidsafe/vault_manager/client_interface.cc:120-130 | an aborted wait does nothing; any other sets the exception and erases the entry of the label |
| `ConfigFiles.RoundTrip` | src/maidsafe/vault_manager/config_file.h:60-89 | for any key and vaults, decoding what was written gives the key and every vault's persisted fields in order, owner or none, and takes exactly what was written |
| `ConfigFiles.SavedRecord` | src/maidsafe/vault_manager/config_file.h:78-89 | a file that is written starts with its key and count; record i is the two parts of that vault's key pair encrypted under the file's key, its directory, label and limit, whether it has an owner, and the owner if it has |
| `ConfigFiles.LoadVaultsRoundTrip` | src/maidsafe/vault_manager/config_file.h:81-88 | record by record, whatever follows in the stream |
| `ConfigFiles.LoadExtends` | src/maidsafe/vault_manager/config_file.h:61-76 | a read that succeeds never looks past what it takes |
| `ConfigFiles.TruncatedIsRefused` | src/maidsafe/vault_manager/config_file.h:61-76 | a file cut short anywhere is not read as anything |
| `ConfigFiles.ReaderForgetsVaults` | src/maidsafe/vault_manager/config_file.h:61-76 | as the code stands, a file that was written is read back with its vaults if and only if it has none: the loop drops each record it has read |
| `ConfigFiles.ConfigFile.SaveTo` | src/maidsafe/vault_manager/config_file.h:79-89 | the writing loop appends exactly the specified stream |
| `ConfigFiles.ConfigFile.SaveRecord` | src/maidsafe/vault_manager/config_file.h:82-87 | one record, with the owner only if there is one |
| `ConfigFiles.ConfigFile.LoadRecord` | src/maidsafe/vault_manager/config_file.h:65-74 | one record off the stream, or an exception, exactly when the specification says so |
| `ConfigFiles.ConfigFile.LoadRecords` | src/maidsafe/vault_manager/config_file.h:64-75 | the reading loop parses what the specification parses, or ends with an exception exactly when that does |
| `ConfigFiles.ConfigFile.LoadFrom` | src/maidsafe/vault_manager/config_file.h:61-76 | the key, then the records; `vaults` is left as it was |
| `ConfigFiles.ConfigFileHandler.Open` | src/maidsafe/vault_manager/config_file_handler.cc:52-93 | a file that exists must decode and keeps its key; one that does not is created with the random key and no vaults; what is returned is valid |
| `ConfigFiles.ConfigFileHandler.ReadConfigFile` | src/maidsafe/vault_manager/config_file_handler.cc:95-99 | an exception if and only if the file does not decode; else the program's result and, beside it, what the file records. The source's assert on the key is what the caller owes, and every other method keeps it |
| `ConfigFiles.ConfigFileHandler.WriteConfigFile` | src/maidsafe/vault_manager/config_file_handler.cc:101-108 | after a successful write the file records the persisted view of the vaults given, under the handler's key; after a failed one what it did before |
| `VaultManagement.VaultManager.WriteConfigFile` | src/maidsafe/vault_manager/vault_manager.cc:318-318 | the file then records the persisted view of the whole table |

## Left out

- Sends that throw: a Send is assumed to succeed. `StopProcess` sets the status before it
  sends and the timer after, so a throwing Send would leave a stopping child without a timer;
  `NoChildIsStuck` relies on it not throwing.
- What is left of a key pair that was moved from: it belongs to the passport library, which is
  not part of this model, and so does whether using it throws. It is an arbitrary pair here.
- The contents of error replies: their label may have been moved from or never been set, so a
  refusal carries nothing.
- Config file writes that fail half way: a failed write is taken to leave the file as it was.
- The file system otherwise: existence checks, creating directories, free space.
- Terminating a process, `IsRunning`, the re-arming and cancelling of the signal set, and
  Windows handles: a child may exit at any time, before or after it is erased.
- `TearDownWithInterval` and `StopAllWithInterval`, which sleep on a thread of their own.
- Parsing of messages and their tags: a message that does not parse, or with an unknown tag,
  changes nothing and is not an event. A challenge response that parses but has no public key,
  which `vault_manager.cc:243` would dereference, is not an event either.
- The listener stopping: new connections may come after a tear-down.
- The client's connecting, its start-up handshake, and the once-flag for a stable network.
- The widths of DiskUsage, of counts and of process ids: all are unbounded.
- The byte format of the archive: one token per field.
- Real time: timers are set, queued or cancelled, never early or late.
- Vlogging fields, log output, `VaultInterface`, `VaultConfig`, the message structures, the
  tools, the installer and main: they would add easy members only.
