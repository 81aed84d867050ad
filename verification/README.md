# Sidescale verification

A Dafny model of the stateful and algebraic cores of sidescale, a proxy that sits between Tailscale clients and
their control and DERP servers, with proofs about every run of them. `dafny verify dfyconfig.toml` checks it all.

* **Noise surface** (`UpstreamPool`, `NoiseSurface`, `SurfaceInvariant`, `SurfaceSteps`, `SurfaceRuns`,
  `SurfaceTheorems`, `SurfaceHeals`, `SurfaceRaces`, `SurfaceCauses`, `SurfaceTunnels`, `PoolHandler`,
  `TunnelHandler`). The ref-counted pool of upstream connections, the tunnels bound to them, healing, idle timers
  and the shutdown drain, as a transition system: a step is one critical section (`h.mu` or `at.mu`) or one action
  between two of them, and a run is any interleaving of any number of goroutines. What a goroutine still owes (a ref
  to return, a channel to close, a connection to close, a dial to resolve) follows from where it is, and the
  invariant is a conservation law over those debts. `SurfaceCauses` and `SurfaceTunnels` tell outcomes by the events
  of the run alone: whose dial failed and why, what a Shutdown counts, what a tunnel was asked for, which failures
  are logged. `PoolHandler` and `TunnelHandler` are the objects with their fields; each method is proved equal to
  the function the transition system steps with.
* **DERP synthetic relay** (`Relay`, `RelayLog`, `RelaySteps`, `RelayTheorems`, `RelayMarks`, `RelayOrder`,
  `RelayHandler`). The registry of duplicate connection sets, beside the unbounded log of sends and the
  announcements still owed. The bounded send history is shown to be that log, projected; a mark to come and go with
  the frames written; a set to stand in join order. `RelayHandler` is the registry with its objects and slices.
* **DERP frames** (`Framing`, `PeerPresent`, `Text`, `FrameNames`, `Capture`, `CaptureTheorems`, `CaptureHeaders`,
  `RelayCapture`). Stream reassembly independent of chunking, and the capture and replay codec down to hex keys,
  decimals and base64 (section 4 of RFC 4648), with the exact normal form that capture followed by replay preserves.
  `CaptureHeaders` fixes every header by its name; `RelayCapture` ties what flows show to what the relay does.
* **Map stream** (`MapFrame`, `MapStream`). The pull-based reader that captures and rewrites map responses; its
  output is the frame-by-frame transform of the body, whatever the buffer and chunk sizes.
* **Bounded loops** (`TunnelHosts`, `Reconnect`). The record of tunnel hosts against an unbounded one, and the
  reconnect loop's pacing and exact retry bound.
* `Common` holds options, bytes and counting over maps.

Three documented promises do not hold in every interleaving. `SurfaceRaces` has a run of each that fails, and for
each a theorem says exactly when it can.

* The idle grace (sidescale/noise/upstreampool.go:15-17 and 27-28): an upstream goes only after its last release and
  a full grace. A timer that fired just before a re-acquisition leaves a callback behind; if the upstream is
  released again before that callback gets the lock, it closes the upstream although the new grace has only begun
  (`StaleCallbackClosesEarly`). By a callback this can happen exactly when a callback of that upstream is already
  out at the release that starts the grace (`SurfaceTheorems.GraceKeptIff`). Besides callbacks, an eviction by a
  heal already past its check and a shutdown drain close an upstream in its grace, and nothing else does
  (`SurfaceTheorems.ClosedEarlyIff`). What holds always is that no callback closes an upstream somebody holds
  (`SurfaceTheorems.CallbackSparesHolders`).
* A closed tunnel never re-dials (sidescale/noise/tunnel.go:249 and 273). It does when it is closed between a heal's
  check and its pass (`ClosedTunnelRedials`): after the close a goroutine can be looking for an upstream for the
  tunnel exactly when a heal was past its check at the close (`SurfaceHeals.RedialsIff`). A closed tunnel never
  takes the swap (`SurfaceTheorems.RebindsOnlyForward`).
* One warning per dead-upstream episode (sidescale/noise/tunnel.go:250). There is never more than one
  (`SurfaceTheorems.WarningsBounded`), but an episode can pass without (`EpisodeGoesSilent`): the failure of a heal
  off an earlier upstream, reported after the swap, mutes it. At the swap this can still happen exactly when another
  heal of the tunnel is past its check on an upstream the tunnel has left (`SurfaceHeals.SilentEpisodeIff`).

Two defensive branches are proved dead: the first-speaker branch of `noteActivity`
(`RelayTheorems.FirstSpeakerIsDead`) and the short-frame error of `processFrame` (`MapFrame.SplitIsNeverShort`).

## Model

| member | source | states |
|---|---|---|
| SurfaceTheorems.RefsAreHolders | sidescale/noise/upstreampool.go:72-231 | in every interleaving an upstream that landed has as many refs as holders: callers, cleanups and releases still to run, and unclosed tunnels bound to it; so no ref is returned twice or lost |
| SurfaceTheorems.OneLivePerKey | sidescale/noise/upstreampool.go:80-139 | the key map is exactly the upstreams not yet closed, each under its own key, so a key has one live upstream and one dial in flight at most |
| SurfaceTheorems.DialerTakesFreeKey | sidescale/noise/upstreampool.go:111-114 | a pass that becomes the dialer never overwrites an entry of the key map |
| SurfaceTheorems.ConnsAccounted | sidescale/noise/upstreampool.go:118-150 | an open connection is either pooled with nobody closing it, or retired with exactly one goroutine about to close it; any other is owed no close |
| SurfaceTheorems.IdleIsGuarded | sidescale/noise/upstreampool.go:178-205 | a live upstream without holders has its grace timer pending or that timer's callback on the way: none lingers for ever |
| SurfaceTheorems.CallbackSparesHolders | sidescale/noise/upstreampool.go:192-205 | an idle callback, stale or not, closes an upstream only when no goroutine and no tunnel holds it |
| SurfaceTheorems.GraceKeptIff | sidescale/noise/upstreampool.go:178-205 | when the last holder releases a live upstream, some later interleaving has an idle callback close it before that release's grace has elapsed exactly when a callback of an earlier grace is already out at the release |
| SurfaceTheorems.ClosedEarlyIff | sidescale/noise/upstreampool.go:178-231 | in every run, over every event, a live upstream whose grace is pending is closed exactly by a callback of an earlier grace, an eviction by a heal already past its check, or a drain |
| SurfaceTheorems.QuietMeansClosed | sidescale/noise/upstreampool.go:72-231 | with every goroutine at rest, every tunnel closed and no timer pending, no connection is left open |
| SurfaceRaces.StaleCallbackClosesEarly | sidescale/noise/upstreampool.go:15-28 | a concrete run in which the documented grace is cut short by a callback of an earlier idle period |
| SurfaceTheorems.BindingsAreFresh | sidescale/noise/tunnel.go:274-306 | a tunnel's bridge is its current upstream's; it was never bound to one upstream twice, every one it left is closed, and all share its key |
| SurfaceTheorems.RebindsOnlyForward | sidescale/noise/tunnel.go:274-306 | any one step rebinds a tunnel only while it is open, off a closed upstream, onto one it never had |
| SurfaceTheorems.HealReturnsOneRef | sidescale/noise/tunnel.go:293-304 | across the compare-and-swap of any run the winner hands its hold on the fresh upstream to the tunnel and takes over the tunnel's on the dead one, the loser keeps its own; one release is left to make, no count changes, and nobody else's holders move |
| SurfaceTheorems.WarningsBounded | sidescale/noise/tunnel.go:284-291 | heal-failure warnings never exceed the swaps plus one: at most one per episode; SurfaceHeals.SilentEpisodeIff says when there is none |
| SurfaceTunnels.FirstFailureIsLogged | sidescale/noise/tunnel.go:284-302 | over every event of every run, a warning is logged for a tunnel exactly when a heal of it fails and none has failed since its last swap |
| SurfaceHeals.SilentEpisodeIff | sidescale/noise/tunnel.go:284-303 | at a swap, some later interleaving leaves the new episode's first failed heal unlogged exactly when another heal of the tunnel is past its check on an upstream the tunnel has left |
| SurfaceRaces.EpisodeGoesSilent | sidescale/noise/tunnel.go:250 | a concrete run of two heals after which an episode's first failure can go unlogged |
| SurfaceHeals.RedialsIff | sidescale/noise/tunnel.go:274-283 | once a tunnel is closed, a goroutine can ever be looking for an upstream for it exactly when a heal of it was past its check at the close |
| SurfaceRaces.ClosedTunnelRedials | sidescale/noise/tunnel.go:249-273 | a concrete run in which the heal of a closed tunnel dials |
| SurfaceHeals.HealFrom | sidescale/noise/tunnel.go:274-283 | a goroutine is on the way of a heal only because it was already, or just saw the tunnel open and still bound to the dead upstream |
| SurfaceTheorems.ParkedWillWake | sidescale/noise/upstreampool.go:86-99 | a parked caller's dial has exactly one dialer, or its ready channel is closed or owed by exactly one goroutine |
| SurfaceTheorems.ErrorsHaveCause | sidescale/noise/upstreampool.go:72-151 | a caller is handed an error only for its own context, a drain, its own dial, or a coalesced dial of its key recorded as failed and, while its own context lives, not as canceled (SurfaceCauses.FailureIsRecorded: those records are right) |
| SurfaceTheorems.InheritedFromItsWait | sidescale/noise/upstreampool.go:86-110 | a failure handed to a caller that did not dial is that of the dial it parked on, and it has waited for that dial ever since |
| SurfaceTheorems.GenuineFailureIsShared | sidescale/noise/upstreampool.go:102-109 | a call goes round the loop only behind dials that landed, were drained, or are recorded as canceled (SurfaceCauses.WaitersGoRoundOnlyCancellation says it of the events) |
| SurfaceCauses.FailureIsRecorded | sidescale/noise/upstreampool.go:118-135 | once a goroutine's dial of an upstream failed, in every continuation its record says so, and says canceled exactly when that goroutine's own context had been canceled |
| SurfaceCauses.WaitersGoRoundOnlyCancellation | sidescale/noise/upstreampool.go:102-109 | over the events of every run: whenever a dial a call went round behind failed, its dialer's context had been canceled when it failed |
| SurfaceCauses.HandedFailure | sidescale/noise/upstreampool.go:99-108 | a failure handed to a caller is an event of the run, the failure of that upstream's dial; if another dialed and the caller's context lives, the dialer had not been canceled |
| SurfaceCauses.WakerHears | sidescale/noise/upstreampool.go:99-109 | a waiter that wakes is handed the failure exactly when the dial failed and its dialer had not been canceled or the waiter's own context has ended; else it goes round |
| SurfaceCauses.ContextEnds | sidescale/noise/upstreampool.go:93-105 | a goroutine's context is as the event that ended it says, live until then |
| SurfaceCauses.CanceledIff | sidescale/noise/upstreampool.go:125-127 | a dialer counts as canceled exactly when a cancellation, not a deadline, ended its context |
| SurfaceCauses.AbandonIff | sidescale/noise/upstreampool.go:91-98 | a parked caller may leave exactly when its own context has ended |
| SurfaceCauses.BorrowIff | sidescale/noise/upstreampool.go:155-176 | a borrow takes one ref and stops the timer exactly when the upstream lives, else changes nothing |
| SurfaceCauses.ReleaseIff | sidescale/noise/upstreampool.go:178-190 | a release returns one ref and starts a grace anew exactly when it was the last of a live upstream |
| SurfaceCauses.EvictIff | sidescale/noise/upstreampool.go:210-231 | an eviction retires and unmaps a live upstream and stops its timer, and does nothing to a retired one |
| SurfaceTheorems.PassesBounded | sidescale/noise/upstreampool.go:74-110 | a call passes the top of its loop at most once more than dials of its key were resolved |
| SurfaceTheorems.DrainIsFinal | sidescale/noise/shutdown.go:48-68 | once a Shutdown has drained, whatever runs afterwards, the pool stays empty, draining, and every upstream closed |
| SurfaceTheorems.LateCallersAreRefused | sidescale/noise/upstreampool.go:76-79 | once a drain has begun, in every continuation, every pass of the loop returns ErrShuttingDown and leaves the pool alone |
| SurfaceTheorems.LateDialsAreClosed | sidescale/noise/upstreampool.go:136-141 | a dial that lands after the drain wakes its waiters, closes its connection and reports the shutdown |
| SurfaceTheorems.DrainMissesNoTunnel | sidescale/noise/tunnel.go:116-126 | a registered client tunnel that the drain did not snapshot has exactly one goroutine running it, which is unwinding it or whose pending Draining check will |
| SurfaceTheorems.ZeroLeftMeansTornDown | sidescale/noise/shutdown.go:14-35 | a Shutdown that returns 0 saw every tunnel of its snapshot torn down (SurfaceCauses.LeftIsGivenUp counts the others) |
| SurfaceCauses.LeftIsGivenUp | sidescale/noise/shutdown.go:24-34 | in every run a Shutdown returns exactly the number of its tunnels whose wait it gave up, at most its snapshot, so 0 when it gave up none |
| SurfaceCauses.DrainStops | sidescale/noise/shutdown.go:51-62 | the drain retires every live upstream, stops its timer and empties the map; retired ones it leaves alone |
| SurfaceTunnels.SnapshotIs | sidescale/noise/shutdown.go:72-77 | the snapshot is exactly the captured tunnels past registration that have not left the registry |
| SurfaceTunnels.StagesInOrder | sidescale/noise/tunnel.go:114-126 | over every event, a tunnel's stage moves exactly when its owner takes it to the next one; so its flow is completed before it leaves the registry |
| SurfaceTunnels.DrainingIff | sidescale/noise/shutdown.go:81-85 | the surface is draining exactly when some event of the run began a drain |
| SurfaceTunnels.LetInIff | sidescale/noise/tunnel.go:124-126 | a tunnel that is set up goes on to serve unless it was asked for by a client and a drain has begun, then it unwinds |
| SurfaceTunnels.TunnelIsAsAsked | sidescale/noise/tunnel.go:77-93 | every tunnel of every run was opened by an event, and keeps the key and kind its opener was last asked for |
| SurfaceSteps.StepKeeps | sidescale/noise/upstreampool.go:72-231 | every event, in any state of the invariant, keeps the invariant and moves upstreams, tunnels and the drain one way only |
| SurfaceRuns.RunGrows | sidescale/noise/upstreampool.go:72-231 | from any reachable state, whatever runs: a retired upstream stays retired, a resolved dial resolved, a closed tunnel closed and bound as it was, draining latched, and a drained pool empty |
| SurfaceSteps.RunOk | sidescale/noise/upstreampool.go:72-231 | every run from a fresh handler satisfies the invariant |
| UpstreamPool.PassKeeps | sidescale/noise/upstreampool.go:74-114 | a pass keeps the pool's shape, and its decision matches the entry: acquired ones are live and installed, waited ones dialing, dialed ones new |
| UpstreamPool.DialFailsKeeps | sidescale/noise/upstreampool.go:120-135 | a failed dial retires its entry and keeps the key map exact |
| UpstreamPool.DialLandsKeeps | sidescale/noise/upstreampool.go:136-143 | a landed dial is left uninstalled only during a drain |
| UpstreamPool.EvictKeeps | sidescale/noise/upstreampool.go:207-223 | evicting retires an entry under its own key only, holders or not |
| UpstreamPool.DrainAllKeeps | sidescale/noise/shutdown.go:51-62 | draining the pool leaves every upstream closed |
| PoolHandler.Handler.AcquireLocked | sidescale/noise/upstreampool.go:169-176 | the pool after it is AcquireLocked of the pool before: one more ref, no timer |
| PoolHandler.Handler.BeginPass | sidescale/noise/upstreampool.go:75-115 | decision and pool of one pass of the loop |
| PoolHandler.Handler.DialFailed | sidescale/noise/upstreampool.go:120-133 | the entry records the error and whether its dialer was canceled (SurfaceCauses.FailureIsRecorded), closes, and leaves the map only if it is still its own |
| PoolHandler.Handler.DialLanded | sidescale/noise/upstreampool.go:120-143 | the connection is installed exactly when the entry was not closed meanwhile |
| PoolHandler.Handler.CloseReady | sidescale/noise/upstreampool.go:133-144 | wakes the waiters and changes nothing else |
| PoolHandler.Handler.TryAcquire | sidescale/noise/upstreampool.go:155-167 | fails on a closed upstream, else takes a ref |
| PoolHandler.Handler.Release | sidescale/noise/upstreampool.go:178-190 | drops a ref; a live upstream at zero arms a new grace timer |
| PoolHandler.Handler.IdleClose | sidescale/noise/upstreampool.go:192-205 | closes and unmaps exactly when live and unheld |
| PoolHandler.Handler.Evict | sidescale/noise/upstreampool.go:210-223 | closes, disarms and unmaps a live upstream; a closed one is left alone |
| PoolHandler.Handler.BeginDrain | sidescale/noise/shutdown.go:81-85 | latches draining and nothing else |
| PoolHandler.Handler.DrainUpstreams | sidescale/noise/shutdown.go:51-68 | the loop closes and unmaps exactly the pooled upstreams and hands back those with a connection to close |
| TunnelHandler.ActiveTunnel.Stale | sidescale/noise/tunnel.go:275-280 | a heal goes on exactly for an open tunnel still bound to the dead upstream |
| TunnelHandler.ActiveTunnel.SwapUpstream | sidescale/noise/tunnel.go:293-303 | the compare-and-swap of upstream and bridge under at.mu |
| TunnelHandler.ActiveTunnel.HealDialFailed | sidescale/noise/tunnel.go:284-291 | the first failure since the last swap, and only it, is reported |
| TunnelHandler.ActiveTunnel.Close | sidescale/noise/tunnel.go:311-320 | closed once; the first caller learns which upstream's ref to return |
| RelayTheorems.KeyReceivesIffEnabled | sidescale/derp/relay.go:329-337 | a key has a receiver exactly when one of its connections is enabled, and it is an enabled connection of that key |
| RelayTheorems.SetShape | sidescale/derp/relay.go:190-199 | active is last while enabled; last missing or disabled means all are; a lone connection is enabled, active and without history; last_writer disables nobody |
| RelayTheorems.FirstSpeakerIsDead | sidescale/derp/relay.go:352-361 | the branch for a missing last is never reached by an enabled sender of a set of two |
| RelayTheorems.RegistriesAgree | sidescale/derp/relay.go:221-235 | byTunnel and the union of the sets hold the same connections |
| RelayTheorems.CloseAllTakesAll | sidescale/derp/relay.go:247-256 | in every run, closing everything hands back exactly the registered connections and leaves none registered |
| RelayTheorems.HistoryRefinesLog | sidescale/derp/relay.go:193-199 | the send history is the unbounded log restricted to live connections, keeping last occurrences: duplicate-free, no longer than the set |
| RelayTheorems.NoteDisablesIff | sidescale/derp/relay.go:352-377 | one send disables its set exactly when the projected log holds the sender and ends with another |
| RelayTheorems.FightingIff | sidescale/derp/relay.go:352-377 | in every run a recorded send disables its whole set exactly under disable_fighters, the sender having spoken before and another live connection last; else it changes no connection |
| RelayTheorems.PromotionPicksLatest | sidescale/derp/relay.go:277-314 | a departed last is replaced by the latest enabled live sender of the whole log, else the newest enabled connection |
| RelayTheorems.JoinReceives | sidescale/derp/relay.go:221-235 | a newcomer receives for its key from its join on, through any run, until an event displaces it |
| RelayTheorems.SendMovesReceiver | sidescale/derp/relay.go:352-377 | a recorded send makes its sender the receiver under last_writer; under disable_fighters it moves nothing, or in a fight, read off the log, leaves the key without a receiver; nothing else moves |
| RelayTheorems.LeaveSparesReceiver | sidescale/derp/relay.go:259-293 | a receiver that stays keeps receiving whoever else leaves |
| RelayTheorems.ReceiverLostIff | sidescale/derp/relay.go:221-377 | over every event of every run, a key changes its receiver exactly when a newer connection joins, the receiver leaves, another of its connections sends under last_writer, a send is a fight under disable_fighters, or all are dropped |
| RelayTheorems.GoneIffLast | sidescale/derp/relay.go:259-297 | a removal asks for an announcement exactly when it took the key's only connection |
| RelayTheorems.MarksAreAnswered | sidescale/derp/relay.go:326-336 | a live client's mark for a key means the key is registered or its announcement is pending |
| RelayTheorems.MarkGoesIff | sidescale/derp/relay.go:380-393 | over every event of every run, a connection's mark for a key goes exactly when the key's announcement reaches that connection |
| RelayTheorems.MarkLasts | sidescale/derp/relay.go:326-336 | a client that received from a key keeps the mark through any run until that announcement |
| RelayTheorems.AnnounceOnce | sidescale/derp/relay.go:380-393 | an announcement reaches exactly the registered clients whose mark it clears, leaves other marks, and a second one reaches nobody |
| RelayTheorems.RouteDelivers | sidescale/derp/relay.go:319-347 | one unchanged packet under the sender's own key to one enabled connection of the destination, exactly when there is one, which then holds the sender's mark; NotHere exactly for disco to an absent key; else nothing |
| RelayTheorems.ShortIsSilent | sidescale/derp/relay.go:319-322 | a payload shorter than a key changes nothing and is answered by nothing |
| RelayMarks.MarkAfter | sidescale/derp/relay.go:326-336 | over every event of every run, a connection holds a key's mark afterwards exactly when the event wrote it a packet from that key, or it held one that the event did not announce |
| RelayMarks.ReceiversHear | sidescale/derp/relay.go:380-393 | a connection that was written a packet from a key and stays registered is among those the key's next announcement reaches, and that announcement is owed as soon as the key is gone |
| RelayOrder.InJoinOrder | sidescale/derp/relay.go:221-235 | in every run a key's connections are those that joined under it and have not gone, in the order they joined |
| RelayLog.ProjectAppend | sidescale/derp/relay.go:368-376 | recording a send in the log is moving the sender to the end of the history |
| RelayLog.LatestEnabled | sidescale/derp/relay.go:302-308 | scanning the history backwards finds the latest enabled live sender of the log |
| RelaySteps.StepKeeps | sidescale/derp/relay.go:221-393 | every join, departure, announcement, send and close keeps the registry, history and mark invariants |
| RelaySteps.RunOk | sidescale/derp/relay.go:221-393 | every run of the relay satisfies them |
| RelaySteps.RecordsIff | sidescale/derp/relay.go:352-356 | a registered sender's send is noted exactly when it is enabled and its key has another connection |
| RelayHandler.SyntheticRelay.Register | sidescale/derp/relay.go:221-235 | the objects after it are Register of the registry before |
| RelayHandler.SyntheticRelay.Remove | sidescale/derp/relay.go:259-297 | trims, collapses or promotes in place exactly as Remove; returns whether to announce |
| RelayHandler.ClientSet.PromoteSurvivor | sidescale/derp/relay.go:302-314 | the two backward scans find Promote of the set |
| RelayHandler.SyntheticRelay.NoteActivity | sidescale/derp/relay.go:352-377 | the in-place history update and the disabling loop are NoteActivity |
| RelayHandler.SyntheticRelay.Route | sidescale/derp/relay.go:319-347 | frames written and registry left, marks included, are those of Route (RelayMarks.MarkAfter says which marks) |
| RelayHandler.SyntheticRelay.AnnounceGone | sidescale/derp/relay.go:380-393 | the loop collects each marked connection once and clears its mark |
| RelayHandler.SyntheticRelay.CloseAll | sidescale/derp/relay.go:247-256 | empties both maps and hands back the registered connections |
| Framing.Uint32Wraps | sidescale/derp/derpproto/codec.go:95-121 | a length field read back is the length modulo 2^32 |
| Framing.FrameOnTheWire | sidescale/derp/derpproto/codec.go:117-123 | type byte, length modulo 2^32 with its most significant byte first, payload |
| Framing.CutByLength | sidescale/derp/derpproto/codec.go:91-104 | a buffer is short, over the 1 MiB cap, or cut at 5 bytes plus its big-endian length, by its first five bytes |
| Framing.SplitEncoded | sidescale/derp/derpproto/codec.go:91-131 | parsing undoes encoding whatever follows; refusal exactly when the length field exceeds the cap, lengths wrapping at 32 bits |
| Framing.SplitIsEncoded | sidescale/derp/derpproto/codec.go:91-131 | every frame cut off a stream is the encoding of its own type and payload |
| Framing.PrefixDecides | sidescale/derp/derpproto/codec.go:91-104 | once a prefix decides a frame or an error, more bytes change nothing |
| Framing.EncodeFrame | sidescale/derp/derpproto/codec.go:117-123 | the buffer filled in place is the wire form |
| Framing.DeliversWhatWasSent | sidescale/derp/tunnel.go:478-495 | the frames read off a stream of encoded frames are those frames in order, then what the tail holds |
| Framing.DeliversAll | sidescale/derp/tunnel.go:478-495 | the delivered frames are the front of the stream; what is left starts no whole frame, or an over-cap one exactly on a refusal |
| Framing.FrameConn.ReadFrame | sidescale/derp/tunnel.go:468-495 | the next frame or end depends on the stream alone, not on chunks or prefix; nothing is lost on an error; the buffer stays below 5 + 2^20 + 2^15 bytes |
| Framing.FrameConn.ReadAll | sidescale/derp/relay.go:120-143 | a session's read loop hands on exactly the frames of the stream |
| PeerPresent.BuildTail | sidescale/derp/derpproto/codec.go:257-269 | refused exactly when the name exceeds 255 bytes, else the buffer is the wire form |
| PeerPresent.TailOnTheWire | sidescale/derp/derpproto/codec.go:257-269 | sixteen address bytes (IPv4 mapped), port with its high byte first, flags, name length, name |
| PeerPresent.ParseUndoesBuild | sidescale/derp/derpproto/codec.go:227-269 | parse after build recovers port, flags and name, and the address up to IPv4-mapped unmapping (section 2.5.5.2 of RFC 4291) |
| PeerPresent.BuildUndoesParse | sidescale/derp/derpproto/codec.go:227-269 | build after a complete parse gives the tail's bytes back up to the end of its name |
| PeerPresent.PrefixLosesOnly | sidescale/derp/derpproto/codec.go:230-252 | a shorter tail only loses trailing fields and never changes one it shows |
| PeerPresent.CutShowsWhatFits | sidescale/derp/derpproto/codec.go:227-269 | a built tail cut anywhere shows exactly the fields whose last byte is still there |
| FrameNames.ResolveUndoesName | sidescale/derp/injection.go:130-139 | every type's flow name resolves to that type, and counts as named exactly when the table has it |
| FrameNames.NamesAre | sidescale/derp/derpproto/codec.go:32-70 | the names of the sixteen types, by their numbers in the DERP protocol |
| FrameNames.UnnamedAre | sidescale/derp/derpproto/codec.go:75-80 | any other type is FRAME_0x and its two lower-case hex digits |
| FrameNames.NumberNamesType | sidescale/derp/injection.go:130-139 | a type given in decimal, with or without the FRAME_ prefix, resolves to that type, unnamed |
| Text.ParseKeyUndoes | sidescale/derp/capture.go:305-311 | a node key printed in a header reads back |
| Text.KeyIsShown | sidescale/derp/capture.go:136-141 | a key is shown as nodekey: and its bytes in order, two lower-case hex digits each |
| Text.AtoiUndoes | sidescale/derp/capture.go:255-260 | a printed number reads back, signed or not, saturating at 64 bits |
| Text.ParseUint32Undoes | sidescale/derp/capture.go:284-294 | a printed number reads back, any beyond 32 bits as the largest |
| Text.BadIsZero | sidescale/derp/capture.go:259-291 | text that is not a number reads as zero |
| Text.Decode64Undoes | sidescale/derp/capture.go:226-230 | base64 written into a header reads back |
| Text.GroupIs | sidescale/derp/capture.go:221-223 | four characters of the alphabet of section 4 of RFC 4648 are three bytes as one 24-bit number, cut into sextets |
| Capture.CaptureReplay | sidescale/derp/capture.go:128-302 | decode, flow message, name resolution and encode together give the normal form of every frame that is not sealed |
| Capture.PacketRoundTrip | sidescale/derp/capture.go:131-142 | send and receive packets come back whole, short ones too |
| Capture.ForwardRoundTrip | sidescale/derp/capture.go:143-152 | forwarded packets come back whole, source and destination in place |
| Capture.GoneRoundTrip | sidescale/derp/capture.go:153-163 | PEER_GONE comes back up to its reason byte, legacy ones whole |
| Capture.PresentRoundTrip | sidescale/derp/capture.go:164-186 | PEER_PRESENT comes back whole through its tail header |
| Capture.CloseRoundTrip | sidescale/derp/capture.go:190-196 | CLOSE_PEER comes back up to its key, short ones whole |
| Capture.RestartingRoundTrip | sidescale/derp/capture.go:199-207 | RESTARTING comes back up to its two numbers, short ones whole |
| CaptureTheorems.ReplayExactIff | sidescale/derp/capture.go:232-302 | an unedited replay is byte for byte the captured frame exactly when the payload is not one of the listed lossy shapes |
| CaptureTheorems.NormalOnce | sidescale/derp/capture.go:232-302 | replaying a replay loses nothing more |
| CaptureTheorems.AlikeIffSameNormal | sidescale/derp/capture.go:128-216 | two payloads give the same flow message exactly when they share a normal form |
| CaptureTheorems.EditedPacket | sidescale/derp/replay.go:228-236 | a packet replayed with X-Derp-Dst-Key (sent) or X-Derp-Src-Key (received) rewritten, and perhaps its body, goes out under that key with that body |
| CaptureTheorems.EditedForward | sidescale/derp/capture.go:247-254 | both keys of a forwarded packet and perhaps its body edited: new source, new destination, that packet |
| CaptureTheorems.EditedGone | sidescale/derp/capture.go:255-260 | peer and reason edited: exactly those bytes |
| CaptureTheorems.EditedPresent | sidescale/derp/capture.go:261-270 | peer and tail edited: exactly those bytes, whatever the derived headers say |
| CaptureTheorems.EditedRestarting | sidescale/derp/capture.go:284-294 | both times edited: those two numbers, in order |
| CaptureHeaders.EditedHome | sidescale/derp/capture.go:271-275 | the home flag shown is the payload's, and edited it is the byte sent |
| CaptureHeaders.EditedPing | sidescale/derp/capture.go:281-283 | a ping's or pong's token, edited, is its payload |
| CaptureHeaders.EditedClose | sidescale/derp/capture.go:276-280 | CLOSE_PEER with its peer edited names that peer |
| CaptureHeaders.EditedHealth | sidescale/derp/capture.go:295-296 | HEALTH is its text, captured or edited |
| CaptureHeaders.OpaqueStays | sidescale/derp/capture.go:299-301 | a frame of any other type is shown and replayed whole, whatever its headers and body become |
| CaptureHeaders.KeylessPacket | sidescale/derp/capture.go:234-254 | a packet whose key headers were removed is sent as it is; a forwarded one that keeps a key gets zeros for the other |
| CaptureHeaders.NotAKey | sidescale/derp/capture.go:305-311 | text that is not a key reads as the zero key |
| CaptureHeaders.AnyCase | sidescale/derp/capture.go:342-351 | a header is found by its name in any case, the first of that name, empty or not |
| CaptureHeaders.PacketShows | sidescale/derp/capture.go:131-142 | exactly which headers a sent and a received packet show, by name |
| CaptureHeaders.ForwardShows | sidescale/derp/capture.go:143-152 | exactly which headers a forwarded packet shows, by name |
| CaptureHeaders.PresentShows | sidescale/derp/capture.go:164-186 | the peer and the whole tail, and of address, flags and nonempty name those whose last byte is there |
| CaptureHeaders.ShortShows | sidescale/derp/capture.go:153-218 | a payload too short for its type is shown whole in base64, with nothing else |
| CaptureHeaders.PathIs | sidescale/derp/capture.go:110-113 | the path is the name in lower case under /derp/ |
| CaptureHeaders.SideIs | sidescale/derp/capture.go:101-108 | a client's frame is the request of its flow, a server's the response |
| RelayCapture.FlowsTellTheRoute | sidescale/derp/relay.go:319-347 | in every run, a sent packet's flow names under X-Derp-Dst-Key the key of the connection it is written to, and the received packet's flow names the sender's own key under X-Derp-Src-Key; each names no other key and both carry the packet |
| RelayCapture.EditRedirects | sidescale/derp/capture.go:234-246 | in every run, a sent packet replayed with another X-Derp-Dst-Key is written to connections of that key only |
| CaptureTheorems.RecordedAsSent | sidescale/derp/replay.go:228-240 | the message recorded for a replay replays to the bytes that were sent |
| CaptureTheorems.Core.CaptureFrame | sidescale/derp/capture.go:25-69 | one flow on the side of its direction and the bytes to forward, or an error and no flow |
| CaptureTheorems.OnlyHealthChanges | sidescale/derp/capture.go:41-54 | capture changes nothing but a nonempty HEALTH text a rule rewrites, so packets pass both legs unchanged |
| CaptureTheorems.RecordMatchesForward | sidescale/derp/capture.go:53-68 | what is recorded replays to the normal form of what was forwarded, rewritten or not |
| MapFrame.DecodeUndoesEncode | sidescale/tsproto/mapresponse.go:25-59 | an encoded frame within the cap decodes to its JSON and mode exactly when it is compressed or does not begin with the zstd magic |
| MapFrame.FrameOnTheWire | sidescale/tsproto/mapresponse.go:25-33 | the body's length modulo 2^32, least significant byte first, in four bytes; then the body |
| MapFrame.CutByPrefix | sidescale/tsproto/mapresponse.go:38-49 | a buffer is short, over 10 MiB, or cut at 4 bytes plus its little-endian length, by its first four bytes |
| MapFrame.MagicDecides | sidescale/tsproto/mapresponse.go:50-59 | a whole frame is decompressed exactly when its body begins 28 B5 2F FD; any other body is the JSON itself |
| MapFrame.SplitIsNeverShort | sidescale/noise/mapstream.go:95-101 | processFrame never sees a short frame from split, and decoding uses all of it |
| MapFrame.FramesInFront | sidescale/noise/mapstream.go:150-164 | frames already taken stay the front of the stream as bytes arrive behind them |
| MapStream.MapStreamReader.Read | sidescale/noise/mapstream.go:50-85 | bytes delivered are always a prefix of the body's transform: at EOF or an over-cap length all of it, at a lost frame exactly the frames before the one that does not decode or that the core refused; each captured once in order; the parent is completed on every end |
| MapStream.MapStreamReader.ProcessFrame | sidescale/noise/mapstream.go:95-128 | forwards and captures what Processed says, or captures nothing |
| MapStream.MapStreamReader.Finish | sidescale/noise/mapstream.go:130-136 | completes a captured parent once, however often it is called |
| MapStream.MapStreamReader.Close | sidescale/noise/mapstream.go:88-91 | completes the parent if nothing did, and closes the body |
| MapStream.UntouchedWithoutRules | sidescale/noise/mapstream.go:114-119 | when no rule fires the transform is the identity |
| MapStream.ClientSeesTheCapture | sidescale/noise/mapstream.go:95-128 | what is captured is the rewritten JSON or the original, with the forwarded body in its headers; the client decodes it, in the mode the frame came in, exactly when no rule fired, or the rewrite's body is within 10 MiB and, if raw, does not begin with the zstd magic |
| TunnelHosts.Handler.RetainTunnelHost | sidescale/derp/tunnel.go:66-76 | the map and slice after it are Retain of those before |
| TunnelHosts.Handler.RetainedTunnelHost | sidescale/derp/tunnel.go:86-91 | the resident host, if any |
| TunnelHosts.RecordIsSound | sidescale/derp/tunnel.go:66-76 | after any history keys and order hold the same ids, once each, at most 256 |
| TunnelHosts.OldestLeaveFirst | sidescale/derp/tunnel.go:66-76 | the residents are always the last 256 admissions, oldest first |
| TunnelHosts.ResidentsAreCurrent | sidescale/derp/tunnel.go:66-76 | a resident's host is the one an unbounded map would give |
| TunnelHosts.ForgetsNothingEarly | sidescale/derp/tunnel.go:66-76 | up to 256 admissions the record is the unbounded map |
| Reconnect.Reconnector.ReconnectWait | sidescale/main.go:125-139 | one wait: outage start, window check, sleep and doubling as Wait |
| Reconnect.ServeForever | sidescale/main.go:118-180 | the loop ends as Run says for every sequence of attempts |
| Reconnect.RunIsPaced | sidescale/main.go:118-180 | in every run the backoff after n retries of an outage is min(initial * 2^n, max), and without an outage it is initial |
| Reconnect.RetriesBounded | sidescale/main.go:125-139 | an outage gets at most n retries once the first n waits outlast the window |
| Reconnect.FourteenRetries | sidescale/main.go:29-38 | with the shipped pacing of 1 s, 30 s, 10 s and 5 min, at most 14 retries in an outage whatever short sessions happen |
| Reconnect.FourteenIsReached | sidescale/main.go:29-38 | a run that needs all 14 before its exit |
| Reconnect.ShippedPacing | sidescale/main.go:29-38 | ten seconds of service make a session healthy, its next wait is one second, no backoff exceeds thirty, and a retryable failure is fatal exactly more than five minutes after the last healthy drop or the first drop |
| Reconnect.OutageLasts | sidescale/main.go:125-180 | an outage restarts at the drop exactly after a healthy session or when there was none; otherwise its start stays and the attempt is one more retry of it; the wait is the backoff, the initial one after a healthy session |
| Reconnect.OutageBegan | sidescale/main.go:125-180 | in every run the outage counts from the drop of the last healthy session, or from the first drop if there was none |
| Reconnect.FatalIff | sidescale/main.go:141-180 | exactly which attempts end the process with an error: a first dial that fails, a session that fails for good, or a retryable failure more than the window after the last healthy session dropped, or after the first drop if none was healthy; without an error it ends exactly on a signal, during the attempt or its wait |

## Left out

- Cryptography and libraries: Noise IK, NaCl boxes, signing, HTTP/2, JSON, zstd internals and the disco classifier. zstd is a compress/decompress pair whose output starts with the magic of section 3.1.1 of RFC 8878; the classifier, the rules and the address printer are arbitrary functions.
- I/O, logs and flow storage: writes, pushes and completions are output logs; a push may be refused at any time.
- Real time: idle timers, contexts and dial results are events that may come at any moment; the reconnect clock only moves forward.
- getOrCreateUpstream's retry loop is the program counter of a goroutine in `NoiseSurface`, not one method, because other goroutines run between its critical sections; `PoolHandler` has one method per critical section.
- The `waiters` counter of an upstream, and its log lines.
- Envelope and handshake failures of runTunnel: an uncaptured tunnel may be closed at any point, which is what they amount to.
- replay's hand-over of its cleanup: straight-line code with one deferred call, taken as a goroutine that holds one ref and returns it once.
- SurfaceTheorems.DrainMissesNoTunnel: speaks of captured client tunnels only, because uncaptured and fresh replay tunnels do not check for a drain after they are set up.
- The closes of a tunnel's client and bridge by closeTunnelNow, which only hasten the unwinding that the model allows at any time.
- The ref count of a dial that failed or was drained while in flight: it keeps its initial ref with nobody to return it, so the law of refs is for upstreams that were installed.
- DERP drain completeness and sends from an unregistered source after closeAll: the code does not promise either; a source routes only while registered.
- Relay connections that share a tunnel flow id (uncaptured envelopes share the empty one): every join brings an id not used before.
- The mesh flag, keepalives and ping replies of the relay: they touch none of its state.
- CLIENT_INFO and SERVER_INFO replay, which seals again with held keys.
- Malformed header edits: a node key that does not parse reads as zero and bad base64 as empty, where the library may keep the bytes decoded before the fault; line breaks inside base64, underscores in hex types and non-ASCII case folding are not accepted.
- FrameConn reads return data or an error, not both at once.
- MapStream.MapStreamReader.Read: reads that follow a lost frame are not accounted for, since the stream is over for its client.
- Addresses with an IPv6 zone.
- ApplyMutations, tunnel and send-target selection, field builders for injected frames, and config, key files and registration: easy or I/O.
