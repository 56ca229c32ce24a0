# Verification of hid-device-server

This project models the daemon that relays Bluetooth HID connections to Unix
sockets, and proves what holds on all of its runs: how connection tasks are
spawned, cancelled, joined and cleaned up around a shared list; what two relayed
message streams lose when a pipe is rebuilt; who owns the registration when many
clients command the daemon; and what is left in the file system.

`dafny verify dfyconfig.toml` checks everything (Dafny 4.11).

## How it is organised

| file | contents |
|---|---|
| `common.dfy`, `fs.dfy`, `address.dfy` | bytes and addresses; a file system of directories, files and sockets with the owned temporary paths; path names and their text |
| `info_file.dfy`, `connection_setup.dfy` | `create_info_files` and the synchronous half of `handle_connection`, with every early error |
| `incarnation.dfy` | one connection: wrapper, control handler and interrupt handler as one step-by-step machine |
| `connection_list.dfy`, `lifecycle.dfy`, `lifecycle_frames.dfy` | the shared list; the whole daemon as a transition system; what its actions leave alone |
| `lifecycle_invariant.dfy`, `lifecycle_steps.dfy` | the global invariant and its preservation by every action |
| `lifecycle_theorems.dfy`, `lifecycle_log.dfy`, `lifecycle_cleanup.dfy` | what the invariant means: panics, loops, file system, event log, absence of deadlock in cleanup |
| `lifecycle_endings.dfy`, `lifecycle_descriptions.dfy`, `lifecycle_links.dfy` | how a connection ends by itself and what else ends it; whose registration describes it and what its directory holds; which interrupt sockets reach it |
| `lifecycle_hearing.dfy`, `lifecycle_late.dfy` | exactly when a registered server still accepts connections, and exactly when a Disconnected event is the last of its connection |
| `server.dfy` | the mutable `Server` and `handle_command`, proved against the transition system |
| `pipe.dfy`, `pipe_session.dfy`, `handler_runs.dfy` | the relay on four arrays, the supervisor loops that rebuild it, and those loops as steps of a connection |
| `command.dfy`, `command_protocol.dfy`, `command_clients.dfy` | parsing, replies and the registration fold; N clients, a bounded queue and the main loop; order of service and the life of a client |
| `event.dfy`, `event_ring.dfy` | the byte form of events; the 16-slot broadcast ring and its subscribers |
| `daemon.dfy`, `delivery.dfy` | the command system and the lifecycle as one transition system; what a subscriber of the ring sees of the lifecycle's log |

The environment is nondeterministic throughout. In the transition systems an
action carries what the environment chose (which socket became ready, whether a
call failed), and a theorem about `Run(s, acts)` for all valid `acts` is a theorem
about every interleaving. A step is the code between two await points or less;
aborted tasks may go on stepping until the abort takes effect. `FileSystem` has a
fault for every system call.

Where comments or documentation and code differ, the model follows the code:

- A comment at src/connection.rs:155 speaks of clearing the last message to the
  local side. The pipe is rebuilt anyway, so the message pending in the other
  direction is lost too (`PipeSession.RestartLosesBoth`); nothing is lost exactly
  if both slots were empty whenever a pipe was given up
  (`PipeSession.NothingMissingIff`).
- README.md:54 calls DISCONNECTED the event of a peer that has disconnected. It is
  sent before the sibling handlers are aborted, and either handler may announce its
  socket afterwards (`LifecycleLog.DisconnectedNotLast`,
  `LifecycleLate.InterruptAfterDisconnected`). It is the last event on every
  continuation if and only if the control handler has ended and the interrupt handler
  has ended or waits for a socket that nobody can hand to it any more
  (`LifecycleLate.DisconnectedIsLast`).
- A registered server does not always accept connections: its accept loop ends by
  itself on an accept error, a dangling interrupt connection or a failed hand-off
  (`LifecycleHearing.LoopEndsByItself`, `LifecycleHearing.DeafServer`). Any peer can
  still be accepted if and only if the loop has not ended and is not handing a socket
  to an interrupt handler that takes no further one
  (`LifecycleHearing.ReachableIffHearing`); otherwise only a deregistration helps.
- An early error of `handle_connection` restores the file system unless one of its
  three `set_permissions` calls is the first call to fail, and then it does not
  (`ConnectionSetup.OpenConnection`, `ConnectionSetup.LeaksHappen`).

The file system that a run starts from (`base`) is the one after main has bound its
two sockets `event` and `command` in the runtime directory (src/main.rs:53-64); it
holds no connection directory.

## Model

| member | source | states |
|---|---|---|
| LifecycleTheorems.NoPanicEver | src/connection.rs:173-205 | on every run from a clean directory: one list entry per peer at most, the "impossible race" is never met, no unfinished CancelHandle is dropped (by `retain`, after a join or by an abort), no wrapper, control, interrupt or accept-loop handle is awaited twice, no connection is cancelled twice |
| LifecycleSteps.StepKeeps | src/connection.rs:385-455 | each of the 18 kinds of action of accept loops, connection tasks and main task keeps the global invariant (unique peers among all owned handles, every running task owned, joins equal cancels, tree equals ownership, ordered log) |
| LifecycleSteps.AbortMeetsEndedLoop | src/connection.rs:633-638 | the abort in AcceptingServer's drop only ever meets a loop that has ended and was joined once, so it drops no handle |
| LifecycleTheorems.CrashNeedsFailedListen | src/command.rs:289-290 | the main task can only die in a run in which `up` failed to listen: the `unwrap` on `down` never fails |
| LifecycleTheorems.OneAcceptLoop | src/connection.rs:664-688 | of all accept loops ever spawned at most one is alive, and it is the one the server holds |
| LifecycleTheorems.DownThenUp | src/connection.rs:690-701 | when `down` returns, whether or not the loop had ended by itself, no loop is alive, each was joined exactly once, and a later `up` starts a new one |
| LifecycleTheorems.EndedLoopStaysDeaf | src/connection.rs:594-602 | after a loop has ended by itself, no run without a `down` spawns a connection or a loop, registering again included |
| LifecycleHearing.LoopEndsByItself | src/connection.rs:561-607 | a step ends a loop that was not cancelled if and only if it is an accept error, an interrupt connection of a peer that is not listed, or a hand-off to a handler whose channel is closed |
| LifecycleHearing.AcceptFailureDeafens | src/connection.rs:561-607 | an accepting loop can at any time be ended by an accept error or by an interrupt connection of an unlisted peer, and is then deaf |
| LifecycleHearing.DeafServer | src/connection.rs:458-483 | a concrete run, an interrupt connection right after registering, that leaves the server registered and serving with an ended loop |
| LifecycleHearing.ReachAccepting | src/connection.rs:385-402 | from every reachable state in which the loop hears, `cancel_existing`, storing or a hand-off can be finished by a bounded run, and the loop accepts again |
| LifecycleHearing.ReachableIffHearing | src/connection.rs:561-607 | a serving, registered daemon can still spawn a connection, for any given peer and without a deregistration, if and only if its loop has not ended and does not hand a socket to a handler that takes no further one |
| LifecycleTheorems.SendersNeverGone | src/connection.rs:119-129 | the `recv()` of a running interrupt handler never returns None, and a wrapper's select is cancelled only by the one cancel message |
| LifecycleTheorems.ReplacementNeverCollides | src/connection.rs:413-440 | when a replacement connection is built, nothing exists below the peer's directory and create_dir cannot find it taken |
| LifecycleTheorems.FinishedLeavesNothing | src/connection.rs:340-345 | once all incarnations of a peer have finished, no path below its directory is left |
| LifecycleTheorems.TreeRestored | src/connection.rs:344-345 | once every incarnation has finished, the file system equals the one the lifecycle started from, after main bound its own two sockets |
| LifecycleTheorems.TreeStaysWellFormed | src/connection.rs:241-251 | the file system stays well formed on every run, which is what OpenConnection expects |
| LifecycleTheorems.ReadyWhenAnnounced | src/connection.rs:132-141 | every InterruptListening event is sent while the ready file contains "1" |
| LifecycleTheorems.ReadyNeverBack | src/connection.rs:119-136 | along every run the ready file never returns from "1" to "0", and the handler's socket stays the first one ever queued |
| LifecycleTheorems.CleanExit | src/main.rs:115-126 | when main returns: no accept loop, empty list, every incarnation finished, joined exactly as often as cancelled (at most once), file system as it was once main had bound its own two sockets |
| LifecycleEndings.SelectingEnds | src/connection.rs:313-348 | in every reachable state, if either handler of a selecting incarnation has ended, at most 13 steps of that incarnation alone, without a cancel, bring it to its end: exactly one Disconnected in all, nobody else touched, nothing left below its directory |
| LifecycleEndings.FailureEndsConnection | src/connection.rs:77-91 | the same after the remote side of either handler fails, or no local peer can be accepted, or the ready file cannot be rewritten, whatever the other handler is doing |
| LifecycleEndings.UpUntilCause | src/connection.rs:313-331 | a connection that is up stays up, uncancelled and without a Disconnected event, along every run in which none of its handlers fails, its peer does not connect again and the daemon does not shut down |
| LifecycleDescriptions.DescribedByItsLoop | src/connection.rs:557-575 | on every run every incarnation is described, ever since, by the registration of the accept loop that spawned it, the one the server held at that moment |
| LifecycleDescriptions.DirectoryListing | src/connection.rs:243-287 | in every reachable state the directory of a running incarnation holds the ready file ("0", then "1") and the interrupt socket while that handler runs, the control socket while the other runs, the info files of its registration until they are dropped, and nothing else |
| LifecycleLinks.QueuedAsOpened | src/connection.rs:458-483 | on every run the sockets queued for an incarnation are those its peer opened while it was listed, first to last without gaps; while the channel is open only the one in flight is missing, and the one used is the very first |
| LifecycleCleanup.CleanupMoves | src/main.rs:115-121 | in every reachable state of `down` or shutdown some action is possible that strictly shortens the distance to the end |
| LifecycleCleanup.CleanupCompletes | src/connection.rs:690-708 | from every such state a run no longer than the distance ends a `down` back in service with no accepting server, or a shutdown with the process gone: no deadlock |
| LifecycleCleanup.ShutdownCompletes | src/main.rs:104-121 | from every reachable serving state a signal can be followed by a bounded run to a clean exit: no server, empty list, every incarnation finished, file system as it started |
| LifecycleLog.LogIsSegmented | src/connection.rs:313-349 | on every run and for every peer the events about it are the concatenation of its incarnations' segments, oldest first; a segment has exactly one Disconnected once announced, so every finished incarnation has one |
| LifecycleLog.LateControlEvent | src/connection.rs:327-339 | in any reachable state a further ControlListening of an incarnation is possible if and only if its control handler has not ended |
| LifecycleLate.LateAnnouncement | src/connection.rs:119-141 | in any reachable state a further ControlListening or InterruptListening of an incarnation is possible if and only if its control handler has not ended, or its interrupt handler has a socket, has one queued, or can still be handed one |
| LifecycleLate.DisconnectedIsLast | src/connection.rs:327-342 | once announced, Disconnected is the last event of its incarnation on every continuation if and only if that condition fails |
| LifecycleLate.InterruptAfterDisconnected | src/connection.rs:327-336 | a concrete run in which InterruptListening follows Disconnected although the control handler has ended and was joined |
| LifecycleLog.DisconnectedNotLast | src/connection.rs:327-331 | a concrete run in which ControlListening follows Disconnected of the same incarnation |
| Incarnation.DoKeepsLocal | src/connection.rs:313-342 | whatever the rest of the daemon does, the awaited flags, abort flags, join counts and interrupt channel of an incarnation stay consistent |
| Incarnation.TouchHolds | src/connection.rs:289-308 | each step leaves below the connection directory exactly what the incarnation then owns, so remove_dir meets an empty directory |
| ConnectionList.TakeExistingSpec | src/connection.rs:385-396 | the locked section of cancel_existing takes out the finished connections and the one to the peer, nothing else |
| Server.Server.TakeExisting | src/connection.rs:386-396 | the retain loop, the search and the removal compute that section in place |
| Server.Server.Store | src/connection.rs:442-454 | the push, and the race check that fails exactly if the peer is already listed |
| Server.Server.Up | src/connection.rs:664-688 | an existing accepting server is kept with its registration; otherwise the new registration becomes active if listening works |
| Server.Server.FinishDown | src/connection.rs:690-701 | the second half of `down` leaves no active registration and the joined loop behind |
| Server.Server.Drain | src/connection.rs:704-708 | the drain of `clear` empties the shared list and keeps every handle to cancel, in order |
| Server.Server.HandleCommand | src/command.rs:265-319 | the reply is true of the resulting server: Okay to a Register exactly if it was carried out and the sender holds the registration, Okay to a Deregister exactly if none is left, else Refused and nothing changed; reply and registration are those of `Serve`, except for the crash when `up` cannot listen, which happens exactly then |
| Server.RegistrationStep | src/connection.rs:664-713 | in the concurrent system the active registration changes by `up` and `down` only, as the handler computes it |
| ConnectionSetup.OpenConnection | src/connection.rs:241-287 | success exactly if the directory is free and all system calls work, and then adds exactly the connection's tree; an early error restores the old tree if and only if the first failing call is not one of the three set_permissions, and else leaves just the leaked path |
| ConnectionSetup.LeaksHappen | src/fs.rs:55-56 | each of the three set_permissions calls can be the first to fail, and then something is left behind |
| FileTree.NewWithData | src/fs.rs:205-216 | a failed write leaves no file behind, not even a partial one |
| FileTree.NewDirectory | src/fs.rs:47-60 | the directory is owned if both calls work, and left behind without owner if and only if it could be created and setting its permissions fails |
| FileTree.BindSocket | src/fs.rs:149-156 | the socket path is owned if both calls work, and leaked if and only if it could be bound and setting its permissions fails |
| FileTree.DropOwners | src/fs.rs:30-37 | dropping a vector of owners removes exactly their paths |
| FileTree.RemoveAllAt | src/fs.rs:30-37 | the effect of such a drop path by path, duplicate owners included |
| FileTree.NothingUnderMissing | src/fs.rs:47-60 | nothing exists below a directory that does not exist |
| InfoFile.CreateInfoFiles | src/info_file.rs:9-73 | on success exactly the planned files exist and are owned; on failure at any write every path written or attempted is gone |
| InfoFile.InfoFilesLeft | src/info_file.rs:15-70 | for every configuration each file's final contents: fixed fields, and of several REPORT or PHYSICAL descriptors the last |
| InfoFile.DroppingRestores | src/info_file.rs:55-72 | dropping the returned vector gives back the earlier tree even when duplicate descriptors make two owners of one path |
| AddressName.DirectoryNameInjective | src/connection.rs:243-245 | two peers share a directory name only if they are the same peer |
| AddressName.DirectoryNameReadsBack | src/connection.rs:243-245 | a directory name is the six bytes of the address, first to last, two upper-case hexadecimal digits each, with underscores between |
| AddressName.DirectoryNameIsItsOwn | src/main.rs:53-64 | a connection directory is never called like the command or event socket or any other fixed name |
| AddressName.DirectoryNameIsOneComponent | src/connection.rs:243-245 | no directory name contains a separator, so each is one path component |
| AddressName.TextInjective | src/connection.rs:243-268 | the path components of the model have different texts, so no two of the daemon's paths are confused |
| Pipe.Pipe.Work | src/pipe.rs:154-246 | one select on four arrays, whatever unused swap buffers contain: it computes `Step` on the pending messages and keeps, in each direction, buffers sent followed by the pending one equal to the packets received, each byte for byte or cut to its first 1024 bytes |
| Pipe.Pipe.WorkUntilError | src/pipe.rs:248-254 | the loop returns the first error and stops there |
| Pipe.RefinesChannel | src/pipe.rs:158-245 | each direction is a one-slot channel that depends on its own operations only |
| Pipe.Conservation | src/pipe.rs:154-246 | what was pending and accepted is what was delivered in full plus what is pending, in order |
| Pipe.AcceptsPackets | src/pipe.rs:160-181 | what a pipe accepts in a direction are the packets received, in order, byte for byte up to 1024 bytes and else their first 1024 |
| Pipe.OneBranchLive | src/pipe.rs:158-224 | after any run without an error the select has, in each direction, exactly one enabled branch: receiving if nothing is pending there, else sending |
| Pipe.Alternation | src/pipe.rs:161-224 | up to the first error the operations of a direction strictly alternate receive and send |
| Pipe.ErrorSide | src/pipe.rs:88-97 | the error returned comes from the last event and names the side of the failing call |
| PipeSession.HandleControl | src/connection.rs:45-94 | the control supervisor builds a pipe per local peer, goes on after local failures only, and announces each round |
| PipeSession.HandleInterrupt | src/connection.rs:138-162 | likewise for the interrupt supervisor, whose clearing of one buffer makes no difference |
| PipeSession.RelayOverRestarts | src/connection.rs:51-93 | over any number of restarts and in each direction the delivered messages are an order-preserving selection of the packets received, each byte for byte or cut to its first 1024 bytes, none twice, and the missing ones are the pending messages of given-up pipes, one per pipe at most |
| PipeSession.NothingMissingIff | src/connection.rs:144-160 | nothing is missing if and only if every pipe ended with an empty slot |
| PipeSession.RestartLosesBoth | src/connection.rs:155-159 | a concrete local failure that loses one message in each direction |
| HandlerRuns.ControlSupervisor | src/connection.rs:45-94 | for every course of events on its sockets the steps of the control supervisor can be taken by a connection's control handler, with as many ControlListening events as rounds, and it ends exactly if the loop gives up |
| HandlerRuns.ControlTrace | src/connection.rs:51-93 | conversely, whatever steps a control handler takes before it is aborted, its supervisor loop takes them for some course of events |
| HandlerRuns.InterruptSupervisor | src/connection.rs:138-162 | the same as ControlSupervisor for an interrupt handler that has received its socket |
| CommandHandling.ParseInvertsSerialize | src/command.rs:45-66 | parsing recovers every expressible command, accepts nothing else but trailing data after DOWN, and every reply is read back from its byte |
| CommandHandling.HolderWon | src/command.rs:270-317 | after any trace of commands the registration is that of the one winning Register: successful, made while no earlier one held, and not yet deregistered by its client |
| CommandHandling.OwnershipRules | src/command.rs:271-316 | while somebody is registered: others are refused without effect, the holder's repeats change nothing, its Deregister frees the registration |
| CommandHandling.HolderLasts | src/command.rs:271-316 | whatever any mix of clients asks, a registration lasts until its holder deregisters, and all others are refused meanwhile |
| CommandHandling.ServeIsTruthful | src/command.rs:265-319 | whoever is registered and whatever is asked, the reply tells the sender exactly whether the registration is now its own (Register) or gone (Deregister), and Refused changes nothing |
| CommandProtocol.OneCommandEach | src/command.rs:116-152 | with any number of clients, each has at most one command queued or in service, exactly one while it waits |
| CommandProtocol.EveryPacketAnswered | src/command.rs:160-194 | every packet gets one answer, in order; the main loop is asked exactly the well-formed commands, the others are answered MalformedCommand |
| CommandProtocol.RepliesTruthful | src/command.rs:289-316 | on every run every reply was true when given: a client told Okay on its Register was the registrant at that point, one told Refused had not become it |
| CommandClients.ServedInOrder | src/main.rs:70-89 | at any time of any run the commands served, then the one in service, then those queued are the commands sent to the main loop, in that order, none lost or repeated |
| CommandClients.ReadsOnIff | src/command.rs:184-191 | after a reply a client reads on exactly if the reply was delivered and is not Disconnected; otherwise its closing Deregister is next |
| CommandClients.LoyalRegistrantStays | src/command.rs:160-194 | over any run a registrant that sends no DOWN, does not hang up and gets its replies keeps its registration, whatever malformed packets it sends and whatever others do |
| CommandClients.EveryCommandServed | src/main.rs:70-89 | from every reachable state a bounded run of the main loop alone answers every waiting client |
| CommandProtocol.RegistrationIsFold | src/main.rs:70-89 | at any time of any run the registration is the fold of the served commands, so held by a winning Register |
| CommandProtocol.DeadClientNeverHolds | src/command.rs:242-251 | once a client's closing Deregister has been served it is never the registrant again |
| CommandProtocol.ClosingDeregisters | src/command.rs:301-317 | the closing Deregister ends its client and takes down the registration exactly if it is its own |
| Daemon.ServerHoldsFold | src/main.rs:70-126 | on every run of clients, main loop, accept loops and connections together, the registration the server accepts connections for is the fold of the commands served, belongs to the one winning Register and never to a closed client |
| Daemon.ReplyIsTrue | src/command.rs:265-319 | in the whole daemon every reply of the main loop is true of the server's registration at that moment |
| Daemon.SpawnedForWinner | src/connection.rs:557-575 | at the moment a connection is spawned it is described by the winning Register of the commands served so far, and its directory holds the record that client sent |
| Daemon.ConnectionsDescribed | src/info_file.rs:9-73 | on every run every connection is described by a Register that won at some time, and until its wrapper drops them its info files are those of that registration |
| Daemon.CommandCompletes | src/command.rs:301-317 | whatever command the main loop has taken and whatever the accept loop is doing, a run without further decisions of clients answers it and gets back to serving |
| Event.RoundTrip | src/event.rs:19-47 | decoding inverts `as_bytes` for every lag count and address, and every decodable packet is the byte form of one event |
| Event.SelfDelimiting | src/event.rs:21-44 | the code byte fixes the length, and no event's bytes are a proper prefix of another's |
| EventRing.Broadcast.Send | src/main.rs:54 | publishing into the 16-slot ring extends the history and keeps its last 16 events retrievable |
| EventRing.Broadcast.Receive | src/event.rs:60-69 | what a receiver gets from the ring is the next event, or the exact number of events it must skip |
| EventRing.Subscriber.ForwardPending | src/event.rs:59-75 | a client task that catches up ends level with the ring and has forwarded every event in order if it was at most 16 behind, else the exact lag and then all 16 events the ring retained |
| EventRing.OldestRetained | src/event.rs:60-64 | a subscriber is told of a lag exactly if it is more than 16 behind, and then stands at the oldest event the ring retains |
| EventRing.ClientCanCount | src/event.rs:59-75 | under every interleaving forwarded events plus forwarded lag counts are the subscriber's cursor, and each event stands at the position so counted |
| EventRing.NoLagNoGap | src/event.rs:62-64 | a client never told of a lag was sent every event since it subscribed, in order |
| EventRing.BytesSuffice | src/event.rs:71-74 | the positions can be recovered from the packets on the socket alone |
| Delivery.ClientSeesSegments | src/event.rs:59-75 | a subscriber level with the ring and never told of a lag has seen, for every peer, the segments of its incarnations in order, but for what was said before it subscribed |

## Left out

- LifecycleSteps.StepKeeps: an unsuccessful `handle_connection` leaves the tree of the running system unchanged, that is, set_permissions failures are excluded there; OpenConnection states exactly what they leak.
- LifecycleTheorems.TreeRestored: removals of existing paths are assumed to succeed and no other process touches the daemon's directory.
- CommandProtocol.DeadClientNeverHolds: ids are unbounded naturals; the source counts in u128 and would have to accept 2^128 clients to reuse one.
- LifecycleCleanup.CleanupCompletes: shows that cleanup can always be finished and never deadlocks; that the scheduler eventually does so is fairness of the runtime and not stated.
- PipeSession.RelayOverRestarts: that a receive call cuts a longer packet to the 1024 bytes of its buffer is the contract of the socket interface.
- Server.Server.HandleCommand: what other tasks do while `down` awaits its loop is an interference on the list and that loop only.
- CommandProtocol.EveryPacketAnswered: packets are those the receive call hands over, at most 4096 bytes of each.
- Handler loops, wrapper tasks and client tasks run concurrently and are transition systems over values instead of methods; the locked sections, the pipe, file creation and command handling are methods on mutable objects.
- Registration with BlueZ, btmgmt and the SDP parser: outcomes of foreign calls, parameters of the model. The formatting of the device subclass belongs to the configuration crate.
- tokio and uds internals: FIFO channels, one-shot replies, join after abort, cancellation-safe sockets and the broadcast ring are modelled by their contracts.
- The accept loop and the drop of EventServer, CommandServer's aborts at shutdown, and the replies a client gets once the main loop has ended.
- Signal set-up, logging, Display and error conversions, permission bits, the systemd unit.
