# remote-shell-mcp, modelled and proved in Dafny

remote-shell-mcp keeps SSH sessions, port forwards, shells and Docker hosts alive behind an MCP
daemon, and a launcher proxies an MCP client to it. This project models the parts of it where
threads, failures and clean-up meet, and proves what they promise. `dafny verify dfyconfig.toml`
checks everything.

| file | what it models |
|---|---|
| `session_protocol.dfy` | the life of one SSH session as a step relation over any number of threads: the connecting thread, user reconnects, the keepalive thread and its own reconnects, closers, forward openers and cancellers, lazy SFTP openers, shell openers |
| `session_invariants.dfy`, `session_updates.dfy`, `session_steps.dfy` | its invariant, the promise a step makes to the other threads, and the proof that every step keeps both |
| `session_theorems.dfy` | what follows for every run: conservation of connections and listeners, the SFTP cache, finality of close, where a rebind leaves forwards |
| `session_overlap.dfy` | every run, with `Reconnect` overlapping `Connect` or not: exactly when a connection is lost |
| `session_runs.dfy` | runs built step by step: a completed close, a lost client, a late swap, a forward left behind |
| `session_listeners.dfy` | the listener of a forward marked closed: exactly when it can still be replaced |
| `session_rebinds.dfy` | what refers to a client, and exactly which forwards a rebind leaves behind |
| `session_progress.dfy` | some unfinished call can always go on; the protocol's mutexes taken along `LockOrder`'s rank |
| `session_object.dfy` | the same session as the object its methods update, one call at a time, stated by the protocol's updates |
| `lock_order.dfy` | the nested critical sections of every manager and session operation, and the absence of deadlock |
| `shell_buffer.dfy` | the bounded output buffer of a shell as a class, and readers and pumps around its wake channel |
| `flusher.dfy` | the debounced state flusher with its timer, and its final write |
| `dispatcher.dfy` | the launcher's parallel dispatcher: feeder, semaphore, wait group, first failure |
| `event_stream.dfy` | the launcher's event-stream reader, against an encoder |
| `event_standard.dfy` | the same reader beside the parser of section 9.2.6 of the HTML Living Standard |
| `dial_chain.dfy` | dialing through jump hosts with fallback addresses and clean-up |
| `tree_mirror.dfy` | writing a directory tree to a tar archive and extracting it |
| `tree_members.dfy` | what an archive holds member by member, and what extracting one member does to any disk |
| `snapshot.dfy` | capturing and restoring the daemon's state, and scrubbing secrets |
| `socks.dfy` | the SOCKS5 server side, against encoders of RFC 1928 |
| `duration.dfy` | the duration parser in 64-bit wrapping arithmetic |
| `wrappers.dfy` | the usual option and result types, and a few shared definitions |

## How the session protocol follows the source

A thread's program counter says where it is and which mutexes it holds (`SessionProtocol.Holds`);
it may step only to a counter whose mutexes it already held or nobody holds. Each load of an
atomic `closed` flag, each dial, listen and close, and each body of a critical section is a step
of its own, and outcomes of I/O are free. Beside the program's variables runs a history: where
each connection and listener is (in a thread's hand, installed, cached, bound to a forward, shut)
and how often it was closed.

- `InstallStep` is the dial and `setClient` (internal/sshx/session.go:77-95, internal/sshx/manager.go:51-67);
  `ClearStep` and `DropStep` are `clearClient` and the closing that follows it (internal/sshx/session.go:110-137).
- `StartStep` and `IdleStep` are `startKeepalive`, `runKeepalive` and the `TryLock` of
  `attemptReconnect` (internal/sshx/manager.go:167-246).
- `CloseStep` is `close` up to `clearClient` (internal/sshx/session.go:179-210).
- `BuildStep` is `sftpClient` (internal/sshx/sftp.go:18-34).
- `SnapStep`, `RebindStep` and `WorkStep` are `rebindForwards` (internal/sshx/forward.go:445-487);
  `OpenStep` is `Open*Forward` with `registerForward` (internal/sshx/forward.go:184-217, 387-398);
  `CancelStep` is `CloseForward` with `Forward.Close` (internal/sshx/forward.go:74-84, 400-414).
- `ShellStep` is the registration tail of `OpenShell` (internal/sshx/shell.go:248-259).

In a guarded run a user's `Reconnect` begins only after `Connect` has returned.

## Where the code does not do what it says

- `setClient` closes a client that lost a race against `close` "so it isn't leaked", and does. But
  `Connect` does not hold `reconnectMu`, so a `Reconnect` during an unfinished `Connect` can
  install a client that `Connect` then overwrites: nobody holds it and nobody closes it.
  `SessionRuns.ReconnectDuringConnectLeaks` is such a run. `SessionOverlap.ConservedExactly` says
  of every run, guarded or not, that no connection is ever lost if and only if no step stores a
  client over one that is still installed. In guarded runs no step does
  (`SessionTheorems.NeverOverwrites`).
- A rebind looks at a forward's closed flag and swaps its listener in two steps. A canceller that
  wins the flag in between does not stop the swap (`SessionRuns.SwapAfterFlag`): a listener is
  installed on a forward already marked closed, and it is that one which is then shut.
  `SessionListeners.ClosedForwardExactly` says that a forward marked closed can still get another
  listener if and only if some rebind stands between its look and its swap.
- After a `Reconnect` a live remote forward may still listen on the client that was closed
  (`SessionRuns.RegisteredTooLate`): its opener listened before, and registered after the rebind had
  copied the map. `SessionRebinds.LeftBehindExactly` says that a live remote forward is left behind if
  and only if it was registered, or its opener had read the client, by the time the new client was
  stored, and then either its Listen failed or it was not in the map when the rebind copied it.
- `ScrubSSH` copies the spec but shares its slice of jump hosts, so capturing state erases the
  jump hosts' passwords and passphrases in the live session (`Scrubbing.LivePasswordIsErased`).
  `Scrubbing.ScrubSSH` proves when it does not: exactly when no jump host has one.
- A captured session does not always come back as it was captured: with its password scrubbed, a
  spec without a key or an agent gets one from `ssh_config` (`Snapshots.PasswordBecomesKey`).
  `Snapshots.Restart` proves that the
  second capture has the same sessions if and only if `ssh_config` adds nothing to any of them.
- The event-stream reader is not the parser of section 9.2.6 of the HTML Living Standard. It joins
  the names of repeated `event` fields (`EventStandard.RepeatedEvent`), drops leading and trailing
  empty data lines (`EventStandard.LeadingEmpty`, `EventStandard.TrailingEmpty`) and delivers an
  event cut off by the end of the stream (`EventStandard.CutOffEvent`).
  `EventStandard.SameStreamExactly` says for every sequence of lines when the two print the same.

## Model

| member | source | states |
|---|---|---|
| SessionTheorems.TransportsConserved | internal/sshx/session.go:77-137 | in every state of every guarded run each dialed client, jump client and SFTP client is in exactly one place: one thread's hand, installed, cached, or closed once |
| SessionTheorems.NeverOverwrites | internal/sshx/session.go:77-95 | when `setClient` is about to store a client none is installed |
| SessionOverlap.ConservedExactly | internal/sshx/session.go:77-95 | in every run, guarded or not, every connection is accounted for in every state if and only if no step stores a client over one still installed |
| SessionRuns.ReconnectDuringConnectLeaks | internal/sshx/manager.go:107-126 | a run in which `Reconnect` overlaps `Connect` and a client ends up held, installed and closed by nobody |
| SessionTheorems.SftpCoherent | internal/sshx/sftp.go:18-34 | a cached SFTP client was built on the client now installed, and neither has been closed, although the client is read and the cache stored in separate steps |
| SessionTheorems.CloseIsFinal | internal/sshx/session.go:179-210 | once `close` has completed, in every later state the client, SFTP client and stored keepalive cancel are nil, the forward and shell maps are empty, and every keepalive has been cancelled |
| SessionTheorems.ListenersAreConserved | internal/sshx/forward.go:387-398 | every listener obtained is in one thread's hand, or the listener of one forward that has not been shut, or closed once |
| SessionTheorems.ShutForwardStaysShut | internal/sshx/forward.go:74-84 | once `Forward.Close` has shut a forward's listener nothing about the forward changes |
| SessionListeners.StepKeepsListener | internal/sshx/forward.go:470-486 | a step changes the listener of a registered forward only from the swap of a rebind that works on that forward |
| SessionListeners.ClosedForwardIsFixed | internal/sshx/forward.go:470-486 | once a forward is marked closed and no rebind is about to swap it, in every later state it is closed with the same listener and no rebind is about to swap it |
| SessionListeners.ClosedForwardExactly | internal/sshx/forward.go:470-486 | a forward marked closed can still be given another listener if and only if some rebind has looked at it before and is about to swap |
| SessionRuns.SwapAfterFlag | internal/sshx/forward.go:74-84 | such a run: a canceller wins the flag and the swap still installs a listener |
| SessionTheorems.RebindLands | internal/sshx/forward.go:445-487 | a finished rebind on an open session leaves each snapshot remote forward that nobody closed, and whose Listen succeeded, on the client now installed |
| SessionRebinds.LeftBehindExactly | internal/sshx/forward.go:445-487 | at the end of a rebind on an open session a live remote forward is not on the new client if and only if it was registered, or its opener had read the client, when the new client was stored, and its Listen failed or it was not in the map when that was copied |
| SessionRebinds.Turns | internal/sshx/forward.go:452-486 | the loop passes over a forward of its copy only if it is local or closed or the session has no client, counts it as failed only when its Listen failed, and as moved only by the swap |
| SessionRebinds.RunOffers | internal/sshx/forward.go:184-198 | in every guarded run no listener, and no thread about to listen or to hand one over, refers to a client that has not been dialed or is still to be installed |
| SessionRuns.RegisteredTooLate | internal/sshx/forward.go:184-217 | a run in which a forward registered after the snapshot is left, live and in the map, on the closed client; the rebind has finished and the session is open |
| SessionTheorems.QuietMeansAllClosed | internal/sshx/manager.go:58-67 | when all threads of a closed session have finished, every connection and listener ever obtained has been closed exactly once |
| SessionRuns.CloseCanComplete | internal/sshx/session.go:179-210 | a guarded run in which `close` completes |
| SessionProgress.NeverStuck | internal/sshx/session.go:179-241 | in every guarded run, while some call is unfinished some unfinished call can take a step that changes the state |
| SessionSteps.RunInv | internal/sshx/session.go:77-210 | the invariant of the shared state, of every thread and of mutual exclusion holds in every state of every guarded run |
| SessionObject.Session.SetClient | internal/sshx/session.go:77-95 | installs the dialed client if and only if the session is not closed, and otherwise closes it and its jump clients once; the session stays in order if and only if no client was replaced, and one that was is neither installed nor closed |
| SessionObject.Session.ClearClient | internal/sshx/session.go:110-137 | detaches transport and SFTP client together and closes exactly those, once each |
| SessionObject.Session.CloseConnections | internal/sshx/session.go:125-133 | the closing loops close exactly the connections in hand and change nothing else |
| SessionTheorems.ContextsAreCancelled | internal/sshx/manager.go:167-182 | when all threads of a closed session have finished, every context `startKeepalive` made has been cancelled, stored or not |
| SessionObject.Session.SftpClient | internal/sshx/sftp.go:18-34 | returns the cached client, or a new one on the client now installed if and only if there is one and it answers; on failure nothing changes |
| SessionObject.Session.Shut | internal/sshx/forward.go:74-84 | the first close of a forward closes its listener and no other, once, and marks it; a later one changes nothing; a session in order stays so |
| SessionObject.Session.RegisterForward | internal/sshx/forward.go:387-398 | registers if and only if the session is open and the name free, and otherwise closes the new listener |
| SessionObject.Session.CloseForward | internal/sshx/forward.go:400-414 | takes the named forward out of the map and shuts it; an unknown name changes nothing |
| SessionObject.Session.RebindForwards | internal/sshx/forward.go:445-487 | given which forwards can listen: each live remote forward of the map that can is moved to a new listener on the installed client and its previous one closed, every other is kept as it was, and exactly the live remote ones that cannot are reported |
| SessionObject.Session.SwapListener | internal/sshx/forward.go:470-484 | the new listener is bound to the forward, the previous one is closed once, and no other forward or listener changes |
| SessionObject.Session.CloseForwards | internal/sshx/session.go:194-199 | empties the map and shuts each forward that was in it |
| SessionObject.Session.Close | internal/sshx/session.go:179-210 | leaves an open session empty with every installed connection closed once and the keepalive cancelled; on a closed session, whatever is on it, it changes nothing |
| LockOrder.ProgramsRanked | internal/sshx/manager.go:107-165 | every operation takes its mutexes along one rank |
| LockOrder.NoWaitCycle | internal/sshx/session.go:179-241 | no reachable state has a cycle of threads each waiting for a mutex the next one holds |
| LockOrder.NoDeadlock | internal/sshx/forward.go:387-487 | while some operation is unfinished some thread can proceed |
| ShellBuffer.Buffer.Append | internal/sshx/shell.go:139-147 | the buffer is the end of what was appended since it was last taken: all of it when it fits, and otherwise its last `maxBuf` bytes |
| ShellBuffer.Buffer.Take | internal/sshx/shell.go:79-88 | returns those bytes and leaves the buffer empty |
| ShellBuffer.BufferRefinesStream | internal/dockerx/shell.go:142-154 | over any history each read is the end of its stretch of the stream, all of it when it fits |
| ShellBuffer.CutIsStream | internal/dockerx/shell.go:78-115 | those stretches, in order, are the whole stream |
| ShellBuffer.LosslessWithinBound | internal/sshx/shell.go:139-147 | nothing is lost when at most `maxBuf` bytes arrive between reads |
| ShellWake.NoLostWakeup | internal/sshx/shell.go:79-116 | whenever the buffer holds data a token is pending, a pump is about to signal or a reader about to look, and reads follow the stream, in every run of any readers and pumps |
| ShellWake.SleeperCanWake | internal/sshx/shell.go:94-116 | a reader asleep beside data nobody else is about to announce can wake |
| ShellWake.EachChunkReturnedOnce | internal/sshx/shell.go:262-281 | data a reader returned was taken once, by that reader alone |
| ShellWake.ReadsFollowStream | internal/dockerx/shell.go:78-115 | the readers' results together, and what is left, are the newest parts of the consecutive stretches of the pumps' output |
| Flusher.NoUpdateLost | internal/mcptools/server.go:82-140 | while every Save succeeds a mutation missing from the file is still due: unasked, requested, on the timer, in the flush, or Stop has begun |
| Flusher.IdleMeansSaved | internal/mcptools/server.go:107-140 | an idle flusher has everything on disk |
| Flusher.StopSavesAll | internal/mcptools/server.go:69-77 | after Stop the file holds everything live at its last capture, because the loop is joined first |
| Flusher.WritesAreDebounced | internal/mcptools/server.go:107-140 | loop writes are at least 200 ms apart and 200 ms after the last request they answer, each uses up a request token of its own, and they never outnumber calls of Persist |
| Dispatcher.BoundedInFlight | internal/launcher/proxy.go:187-226 | at most 128 posts are in flight |
| Dispatcher.DispatchedInOrder | internal/launcher/proxy.go:208-254 | lines are dispatched in source order, each at most once, and none taken is left out before a failure or cancellation |
| Dispatcher.ReturnContract | internal/launcher/proxy.go:228-255 | at return no post is in flight; nil means the source ended and every dispatched post succeeded, a read error is the source's, a context error means cancellation; a failure is returned if and only if one was reported, and it is the first |
| EventStream.ReadStream | internal/launcher/proxy.go:132-181 | the reading loop prints and delivers what feeding the terminated lines and a final flush does |
| EventStream.MessageUnchanged | internal/launcher/proxy.go:135-151 | one message is printed unchanged if and only if its first line is not empty, no line ends in a carriage return and it does not end in a line feed |
| EventStandard.SameMessagesExactly | internal/launcher/proxy.go:132-181 | over any lines, this reader and the standard's parser have printed the same after every line if and only if each event ended by a blank line is alike for both |
| EventStandard.SameStreamExactly | internal/launcher/proxy.go:132-181 | and they have printed the same at the end of the stream if and only if, besides, the event it cuts off prints nothing |
| EventStandard.AlikeExactly | internal/launcher/proxy.go:135-181 | an event's fields print the same for both if and only if both print it, every data field having a colon and neither the first nor the last being empty, or neither does |
| EventStandard.RepeatedEvent | internal/launcher/proxy.go:170-171 | two `event` fields whose names join to `message`: printed here, dropped by the standard |
| EventStandard.LeadingEmpty | internal/launcher/proxy.go:172-179 | a leading empty data line vanishes here and is a line of the standard's message |
| EventStandard.TrailingEmpty | internal/launcher/proxy.go:147-151 | so does a trailing one |
| EventStandard.CutOffEvent | internal/launcher/proxy.go:153-160 | an event cut off by the end of the stream is printed here and dropped by the standard |
| EventStream.NoiseIgnored | internal/launcher/proxy.go:164-180 | comments and unknown fields change nothing, wherever they stand |
| EventStream.CleanedExactly | internal/launcher/proxy.go:159-161 | a line loses exactly the carriage returns and line feeds at its end |
| EventStream.SpaceTrimmed | internal/launcher/proxy.go:168-170 | an event's name and an endpoint are what stands between their first and last character that is not space |
| EventStream.OnlyFirstEndpoint | internal/launcher/proxy.go:144-146 | what was printed stays, and a delivered endpoint is never replaced |
| EventStream.RoundTrip | internal/launcher/proxy.go:127-181 | any sequence of sound events, with either line ending, any noise and any unterminated tail, prints exactly the payloads in order and delivers the first endpoint |
| DialChain.NormalizeAddrs | internal/sshx/connect.go:16-35 | exactly the non-blank addresses, in order, each trimmed and with the default port unless it has one; an error if and only if there is none |
| DialChain.Network.Build | internal/sshx/auth.go:43-101 | fails exactly when the agent does not answer, the key cannot be read or no method is chosen; an agent socket stays open only on success, for the caller to close |
| DialChain.Network.DialThrough | internal/sshx/connect.go:146-161 | fails exactly when it is refused or the handshake fails, and then leaves nothing open; a successful one opens one connection through the last hop |
| DialChain.Network.DialFirst | internal/sshx/connect.go:135-143 | addresses are tried in order up to the first that answers |
| DialChain.Network.DialOneJump | internal/sshx/connect.go:111-144 | as for one hop, with agent sockets closed on every path; failing means no address answered, or nothing was dialed |
| DialChain.Network.DialJumpChain | internal/sshx/connect.go:92-106 | one open client per jump host in order, each through the one before; on error everything opened is closed, every earlier hop had answered, and the failing one found no address that did, or did not dial |
| DialChain.Network.DialTarget | internal/sshx/connect.go:64-89 | the target is the first address to answer through the last hop; when none does the chain is closed |
| DialChain.Network.DialFinal | internal/sshx/connect.go:37-90 | on success exactly the chain and the target stay open; on any error nothing does, and the log says how far the dial came |
| DialChain.DialFindsFirst | internal/sshx/connect.go:37-90 | when answers depend on the address alone, a dial that reached the target tried, hop by hop and then for the target, the addresses up to the first that answers; every hop has one, and it succeeded if and only if the target has |
| DialChain.BreakFindsNone | internal/sshx/connect.go:92-106 | and one that broke at a jump host tried the hops before it the same way and then every address of that hop, none of which answers, unless it could not dial |
| TreeMirror.Writer.Walk | internal/dockerx/copy.go:60-118 | succeeds if and only if everything in the tree can be opened, listed, looked at and copied, and then appends the tree's archive and counts the bytes of its regular files; when opening, reading or writing fails it stops there, with a beginning of the archive written and the bytes counted up to that point |
| TreeMirror.ArchiveBytes | internal/dockerx/copy.go:60-118 | the archive of a tree holds exactly the bytes of its regular files, which is what the walk counts |
| TreeMirror.ExtractAll | internal/dockerx/copy.go:164-210 | the extraction loop does what folding its members over the disk does, up to the first that fails |
| TreeMirror.LinksSkipped | internal/dockerx/copy.go:202-205 | link members change nothing, wherever they stand |
| TreeMembers.DirExtracted | internal/dockerx/copy.go:184-187 | a directory member makes what is missing on the way with its mode, keeps what is there, and fails if and only if a file is in the way |
| TreeMembers.FileExtracted | internal/dockerx/copy.go:188-201 | a regular file makes the directories missing on the way with mode 0755, keeps the mode of a file it replaces, is counted, and fails without effect if and only if a directory is in its place or a file in the way |
| TreeMembers.OtherKindFails | internal/dockerx/copy.go:206-208 | a member of another kind ends the extraction as failed, with what came before it in place |
| TreeMembers.ArchiveIsExact | internal/dockerx/copy.go:60-118 | the members of an archive are exactly those for what paths lead to in the tree, named by the path below the root's name, directories with a final slash |
| TreeMirror.RoundTrip | internal/dockerx/copy.go:164-210 | archiving a directory and extracting it into nothing gives its image, whatever links the archive has besides, without failing, and both totals are the size of its regular files |
| TreeMirror.MirrorIsExact | internal/dockerx/copy.go:60-118 | on every path the extracted disk and the tree agree in contents and mode, links aside, and the disk has nothing else |
| TreeMirror.SiblingsApart | internal/dockerx/copy.go:177-182 | no path lies under two different entries of a directory, though paths are plain strings |
| Scrubbing.ScrubSSH | internal/state/store.go:128-137 | the copy has no password or passphrase and keeps key path, agent and socket, its own and those of every jump host, with their users and addresses; the live spec's jump hosts are unchanged if and only if none had a secret |
| Scrubbing.LivePasswordIsErased | internal/state/store.go:128-137 | one jump host with a password: after a scrubbed copy is made the live spec has none |
| Snapshots.ResolvedFills | internal/sshx/sshconfig.go:26-88 | every field the caller set is kept, and each blank one is filled from `ssh_config` and then the environment, agent before key |
| Snapshots.SshManager.Connect | internal/sshx/manager.go:21-82 | inserts the resolved spec if and only if the id is new and not empty, there is a user and the dial succeeds; otherwise changes nothing |
| Snapshots.SshManager.Listen | internal/sshx/forward.go:199-217 | binds the requested port, or any when 0 was requested, and registers the forward with its request unchanged |
| Snapshots.SshManager.RestoreForward | internal/state/sync.go:87-109 | registered with the defaults filled in and the requested port kept if and only if its session has a client, the request is sound, the port can be listened on and the name is free; otherwise refused without effect |
| Snapshots.Capture | internal/state/sync.go:11-49 | exactly the records due, each once, with every field of the live spec but passwords and passphrases, which are empty; every forward names a recorded session |
| Snapshots.Restore | internal/state/sync.go:51-85 | every record is tried and counted, and fresh managers hold exactly the records that can come back: sessions and hosts that can be dialed, and forwards whose session is back and whose port can be listened on; nothing fails if and only if all can |
| Snapshots.Restart | internal/state/sync.go:11-85 | capture, restore into fresh managers and capture again: nothing fails to come back, forwards and hosts are the same records whatever order maps are walked in and whatever ports are bound, and so are the sessions if and only if `ssh_config` adds nothing to what was captured of them |
| Snapshots.PasswordBecomesKey | internal/sshx/sshconfig.go:68-78 | a session with only a password, to which `ssh_config` added nothing, comes back with a key its record does not have |
| Snapshots.SteadyExactly | internal/sshx/sshconfig.go:26-88 | a captured spec comes back unchanged if and only if it opts out, or its first address stays, and the configuration has no agent or key where it has no authentication and no jump hosts where it has none |
| Socks.Conn.ReadFull | internal/sshx/forward.go:304-314 | exactly the bytes asked for, or an error at the end of the stream |
| Socks.Conn.Handshake | internal/sshx/forward.go:303-317 | answers a greeting, consuming it exactly, and fails without a word when there is none |
| Socks.Conn.ReadRequest | internal/sshx/forward.go:319-362 | decodes exactly the streams that start with an encoded CONNECT request, and consumes exactly that request |
| Socks.Conn.SendReply | internal/sshx/forward.go:364-367 | sends the ten bytes of the reply, or as many as the connection takes |
| Socks.Handle | internal/sshx/forward.go:276-301 | a tunnel starts if and only if the whole success reply was sent, to the destination asked for, and carries exactly what follows; otherwise the client is sent nothing without a greeting, and after one the code of the cause: 1 no request, 3 no client, 5 not reached |
| Socks.GreetingIsUnique | internal/sshx/forward.go:303-317 | no stream starts with two greetings |
| Socks.RequestIsUnique | internal/sshx/forward.go:319-362 | no encoded request is the beginning of another |
| Socks.AsksOneThing | internal/sshx/forward.go:276-301 | what a stream asks for and what follows are determined |
| Durations.Duration.UnmarshalJSON | internal/sshx/spec.go:46-78 | a number is accepted if and only if it is 1 to 19 digits and at most 2^63-1, and then stored exactly; a refusal leaves the duration alone |
| Durations.AccumulateExact | internal/sshx/spec.go:65-75 | up to 19 digits the wrapping loop with its test is exact |
| Durations.CapIsNeeded | internal/sshx/spec.go:62-64 | after 19 digits in the stated range a twentieth is taken with a wrong value |
| Durations.CapMatters | internal/sshx/spec.go:62-64 | such digits exist: 25000000000000000000 would be read as 6553255926290448384 |

## Left out

- Real I/O: SSH, SFTP, Docker and HTTP libraries, sockets and files; in the state machines dials, listens, posts and saves succeed or fail freely, and elsewhere how they end is an input.
- The session as a state machine, not as code with locks: interleavings are steps of `SessionProtocol`, and `SessionObject` shows the methods one call at a time, without interference.
- A forward object's fields live in the session's map from identity to fields, so aliasing of forward objects is by identity only.
- Agent forwarding fields: `enableAgentForwarding` sets them without looking at `closed` (internal/sshx/session.go:159-167), so they are not part of what close empties.
- State labels, last error, active address and times: `markState` runs apart from install and clear.
- The manager's map of sessions in the protocol: a failed `Connect` deletes its entry unconditionally (internal/sshx/manager.go:53-55).
- `dropSFTP`: nothing calls it.
- Shell objects: that `doneCh` is closed once and that EOF means the buffer is drained are not claimed; in the protocol a shell is its entry in the map.
- Read locks count as exclusive locks in `LockOrder`, which makes the claim stronger.
- The wake channel's readers time out at any moment; durations of waits are not modelled.
- The `snapshot` tool as a second writer of the state file, and use of the flusher before it is started.
- Lines still queued when the source ends or the proxy reconnects: `select` may drop them.
- The local reader fallback of `lineSource`, and what `postOne` sends.
- `EventStream` works on characters; the encoding of the stream is not modelled. `EventStandard` compares the two parsers on lines without line ends in them: a carriage return alone, which ends a line for the standard only, and a byte order mark are not modelled, and only messages are compared, as the standard knows no endpoint.
- An archive stream that breaks off inside a member.
- Umask, file times, permissions that forbid writing into an extracted directory, hostile member names with `..`, and a single file as the root of a mirror.
- `Upload` and `Download` over SFTP, which mirror trees by the same walk.
- What `ssh_config` says of an alias and how it rewrites an address are parameters, and so is the user environment; which blanks are filled in, and when, is modelled.
- Docker hosts in `Snapshots` keep only the fields that capture looks at; Docker's transport is not modelled.
- In `Snapshots` specs are values, with scrubbing's effect on live jump hosts written out; slices shared by cloned sessions are not followed there.
- The text form of IP addresses and `JoinHostPort`: a SOCKS destination is its bytes and its port.
- Go's duration syntax is a parameter of `Durations.Duration.UnmarshalJSON`.
- MCP tools, CLI output, configuration merging, TOON and JSON encoding, bearer check, daemon lock file.
