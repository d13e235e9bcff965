# cm5audio: a verified model

cm5audio is an audio patchbay. Control threads edit routes and DSP chains, activate devices and
save settings, while one audio worker rebuilds a graph of nodes and mixes one block after
another. This project models the parts in which these threads meet, and the sample processors
that run on every route, and proves what they are relied on for.

- `route_dsp_slots.dfy`: the three-slot publication of a route's DSP chain to the audio worker.
- `adoption.dfy`: dirty flag and revisions, by which a control thread learns that a finished
  block has used its changes, and the saves that depend on it.
- `execution_order.dfy`, `audio_graph.dfy`, `graph_rebuild.dfy`: from routes and endpoints to
  widths, valid routes and the execution order.
- `block_mixer.dfy`, `dsp_engine.dfy`: one block of mixing over interleaved buffers, against the
  recursive meaning of the graph.
- `endpoint_lifetime.dfy`: who owns devices and sessions while the worker holds raw pointers.
- `node_registry.dfy`, `routing.dfy`, `client_manager.dfy`, `control_outcomes.dfy`: node identity,
  routes, DSP settings and the cache, as every control operation changes them, and exactly when it
  does.
- `settings_file.dfy`, `settings_entries.dfy`, `settings_roundtrip.dfy`: saving and loading across
  renumbered nodes, and what every member of a file means.
- `limits.dfy`, `wrappers.dfy`: the engine's fixed limits, optional values.
- `json.dfy`, `processor_registry.dfy`, `dsp_settings.dfy`: settings values, processor creation
  and its normalised form, the DSP settings of one route.
- `device_manager.dfy`, `activation.dfy`: opening devices, and concurrent activations and
  removals.
- `pcm_ring.dfy`, `ring_protocol.dfy`, `ring_calls.dfy`, `browser_ring.dfy`: the rings between
  threads.
- `sample_bounds.dfy`, `delay_line.dfy`, `all_pass.dfy`, `echo.dfy`, `reverb.dfy`,
  `lush_reverb.dfy`, `compressor.dfy`: the sample processors over unbounded streams.

Concurrent parts are state machines with one step for each shared load or store or locked section,
together with the thread's own work next to it; starting and stopping the engine takes a few
coarser steps. An action that is not enabled changes nothing, so every sequence of actions is a run,
and results hold after every sequence. Sequential parts are classes with arrays and loops, proved against
functions on values. Samples and gains are real numbers. The block length is a parameter: the
code has 256 frames (`include/constants.h:10`), a comment in the engine's constructor says 64.

## Findings

- **A file that fails to load can leave a chain behind.** `load_settings` publishes the DSP
  settings of each accepted route at once, but replaces the routes and the ID counter only at the
  end. When a later entry cannot be read (a `source` that is a number, for example), it returns
  false with the old routes and counter, and start-up goes on (`src/main.cpp:112`). The next route
  to be added then gets an ID whose slot already runs a chain. `SettingsRoundTrip.BrokenFileIsInherited`
  gives a file. `SettingsFile.FreshUnlessLoadBroke` says exactly which files do it: those in which
  an entry with DSP settings that becomes a route comes before the first unreadable entry. Cache and
  engine agree even then (`SettingsFile.LoadedAgrees`).
- **A replaced chain may never be reclaimed.** With no reader pinned the writer alternates between
  slots 0 and 1, so what lies in slot 2 can stay there for any number of updates
  (`RouteDspSlots.ParkedForever`); an update rewrites slot 2 exactly if slots 0 and 1 are the
  published and the announced one (`RouteDspSlots.FreeSlotIsFree`).
- **A save can hold newer client names than the last block's sessions.** A connection can close
  without the control mutex. If its name is remembered, as it is once its client has said hello, the
  file keeps it; otherwise it drops out (`SettingsFile.DisconnectKeepsFileIff`). So the names saved
  are those of the last block's snapshot exactly if no connection of the second kind closed since
  (`Adoption.NamesAreCurrentIff`, with `Adoption.SaveCanBeDue` and `Adoption.SessionsMayRunAhead`).
  Routes and DSP are always those of the last block; listed devices are saved as they were listed
  when its active devices were published, and may include one that could not be opened
  (`src/web_server.cpp:486-493`).
- **One load and save may rewrite a bypassed chain** (`DspSettings.OneRoundMayRewrite`), exactly when
  it was bypassed for its switch or gain alone and was not normalised yet
  (`DspSettings.RewritesIff`); from the second load on nothing changes.
- **The longest echo comes one sample early.** A delay of 2000 ms is as long as the buffer and is
  shortened to fit; every other delay that can be registered is met (`Echo.OnlyLongestIsShortened`).

## Model

| member | source | states |
|---|---|---|
| `RouteDspSlots.FindWriteSlot` | src/dsp_engine.cpp:113-116 | the scan for a slot to write ends at a slot in 0..2 that is neither the published one nor the one the reader announced |
| `RouteDspSlots.FreeSlotIsFree` | src/dsp_engine.cpp:113-116 | a free slot always exists, and slot 2 is taken exactly when slots 0 and 1 are the published and the announced one |
| `RouteDspSlots.SlotSafety` | src/dsp_engine.cpp:109-123 | under every interleaving of one audio reader with serialised writers, the slot being cleared or filled is neither the published slot nor the one the reader executes |
| `RouteDspSlots.PublishedIsWhole` | src/dsp_engine.cpp:117-123 | the published slot is complete at every moment, and the slot being executed stays exactly the update that was validated |
| `RouteDspSlots.Linearizable` | src/dsp_engine.cpp:422-438 | every block executed one whole published (chain, gain, active) triple, the newest at some moment between its arrival and its end, and never an older one than a block before it |
| `RouteDspSlots.OnlyWritersDestroy` | src/dsp_engine.cpp:117-118 | a step of the audio reader destroys no processor and changes no slot; the histories only grow |
| `RouteDspSlots.ProcessorsConserved` | src/dsp_engine.cpp:117-120 | every processor ever handed in is in exactly one slot, still with its writer, or was destroyed exactly once |
| `RouteDspSlots.RetryMeansProgress` | src/dsp_engine.cpp:426-430 | the pinning loop repeats only when a writer published since its last load |
| `RouteDspSlots.UpdateCompletes` | src/dsp_engine.cpp:109-123 | from any point of an update a bounded number of the writer's own steps publishes it, whatever the reader holds, and no other slot changes |
| `RouteDspSlots.UpdateIsPublishedIff` | src/dsp_engine.cpp:104-123 | with the mutex free, an update of at most 16 processors and a gain between 0 and 8 is published by the writer's own steps and its slot then holds exactly its processors, gain and switch; any other changes no slot and its processors are destroyed |
| `RouteDspSlots.BlockFinishes` | src/dsp_engine.cpp:422-438 | from any point of a block a bounded number of the reader's own steps ends it, with the publication it had pinned or else the newest, and only its announcement and history change |
| `RouteDspSlots.NextBlockIsNewest` | src/dsp_engine.cpp:422-438 | with no writer in between, the next block runs exactly the processors published last, in order, with their gain, or passes the route through when they are off |
| `RouteDspSlots.UpdateKeepsParked` | src/dsp_engine.cpp:113-116 | with no reader pinned, an update goes to slot 0 or 1 and leaves slot 2 as it is |
| `RouteDspSlots.ParkedForever` | src/dsp_engine.cpp:113-116 | so any number of further updates may leave a replaced chain in slot 2 unreclaimed |
| `RouteDspSlots.ParkedReachable` | src/dsp_engine.cpp:113-123 | such a state is reachable: one reader on slot 0 during two updates is enough |
| `Adoption.RecordIsFaithful` | src/dsp_engine.cpp:69-75 | the entry recorded for a revision is what was published when it was requested |
| `Adoption.AdoptionIsSound` | src/dsp_engine.cpp:351-360 | over all interleavings, once revision r is adopted the last finished block used routes, devices, sessions and route DSP at least as new as everything published before r was requested, also when publications land inside a rebuild |
| `Adoption.CountersOrdered` | src/dsp_engine.cpp:475-477 | persisted <= adopted <= requested in every reachable state |
| `Adoption.AdoptedMonotone` | src/dsp_engine.cpp:53-67 | adopted revisions never go back, across stopping and restarting too |
| `Adoption.FirstBlockAdopts` | src/dsp_engine.cpp:351-360 | a block that starts after a request adopts it when it ends, whatever all threads do |
| `Adoption.LaterBlocksCover` | src/dsp_engine.cpp:351-360 | with no block in flight at a request, every later block is such a block |
| `Adoption.BlockFinishes` | src/dsp_engine.cpp:351-360 | a block in flight reaches its end by the worker's own steps and then adopts its target |
| `Adoption.NextBlock` | src/dsp_engine.cpp:351-360 | from between two blocks the worker's own steps adopt everything requested |
| `Adoption.BlockUsesCurrent` | src/dsp_engine.cpp:351-360 | a block that starts after a mark uses the routes, devices, sessions and names published at that moment, otherwise the snapshot it has; a route runs the DSP published when it is mixed; and the block adopts what was requested |
| `Adoption.RestartRebuilds` | src/dsp_engine.cpp:40-67 | stopping and starting again loses neither publications nor adopted revisions, and the next block rebuilds |
| `Adoption.MarksRequest` | src/dsp_engine.cpp:69-75 | marking sets the dirty flag and requests exactly the next revision |
| `Adoption.PollConfirmsIff` | src/dsp_engine.cpp:77-89 | a poll confirms a waiting handler if and only if its revision, or a later one, is adopted, and otherwise changes nothing |
| `Adoption.WaitCanSucceed` | src/dsp_engine.cpp:77-89 | a handler that waits while the worker runs is confirmed with its own revision by at most the block in flight, the next one and one poll |
| `Adoption.NoSaveWithoutAdoption` | src/web_server.cpp:1331-1341 | the file and the persisted revision change only in the save of a handler whose revision was adopted |
| `Adoption.SavedIsHeard` | src/web_server.cpp:848-874 | routes and route DSP in a saved file are exactly those of the last finished audio block; the listed devices in it are those listed when the active devices that this block used were published |
| `Adoption.NamesAreCurrentIff` | src/web_server.cpp:380-398 | when a save is due, the client names it writes are those of the moment when the last block took its sessions if and only if no connection whose name is not remembered closed since |
| `Adoption.SessionsMayRunAhead` | src/web_server.cpp:380-398 | this can happen whenever a save is due: one such connection makes the file newer than the block |
| `Adoption.SaveCanBeDue` | src/web_server.cpp:1331-1341 | a save becomes due by steps of the worker, of starting and of the handler alone |
| `ExecutionOrder.BuildAdjacency` | src/dsp_engine.cpp:214-224 | the adjacency lists and in-degrees of a list of edges, parallel edges counted |
| `ExecutionOrder.InitialQueue` | src/dsp_engine.cpp:242 | exactly the active nodes without incoming edges start in the queue |
| `ExecutionOrder.Release` | src/dsp_engine.cpp:245-246 | popping a node lowers the in-degrees of its destinations and queues exactly those that become ready |
| `ExecutionOrder.Order` | src/dsp_engine.cpp:240-247 | Kahn's algorithm with a min-priority queue ends with a greedy order from which no ready node is missing |
| `ExecutionOrder.OrderIsDuplicateFree` | src/dsp_engine.cpp:240-247 | no node occurs twice in the order |
| `ExecutionOrder.OrderRespectsEdges` | src/dsp_engine.cpp:240-247 | every edge into an ordered node starts at an earlier node of the order |
| `ExecutionOrder.MissingIffFromCycle` | src/dsp_engine.cpp:248-249 | an active node is missing exactly when a cycle of edges leads to it |
| `ExecutionOrder.OrderIsTopological` | src/dsp_engine.cpp:240-247 | the order is a topological order of the nodes it holds |
| `ExecutionOrder.OrderIsLeast` | src/dsp_engine.cpp:240-247 | and lexicographically the least of all such orders |
| `GraphRebuild.InferWidths` | src/dsp_engine.cpp:165-203 | the width and kind tables: bound endpoints decide, other nodes get what enabled routes ask |
| `GraphRebuild.InferredIsLeast` | src/dsp_engine.cpp:197-203 | an inferred width is the least that all asking routes fit in |
| `GraphRebuild.Collect` | src/dsp_engine.cpp:213-239 | active nodes, edges and outgoing lists of exactly the valid routes |
| `GraphRebuild.Positions` | src/dsp_engine.cpp:252-255 | the position table is the inverse of the order, -1 elsewhere |
| `GraphRebuild.Rebuild` | src/dsp_engine.cpp:153-313 | a rebuild gives a well-built graph of the given routes and endpoints: tables, order and adjacency fit together |
| `GraphRebuild.TakesPartIff` | src/dsp_engine.cpp:171-212 | over the endpoints and routes alone: a route takes part if and only if it is enabled, both ends are nodes, nothing bound at its source plays back, its destination is neither the tone nor anything that captures, and both channels exist at what is bound there, at the tone, or below 254 |
| `GraphRebuild.EdgesAre` | src/dsp_engine.cpp:214-224 | there is an edge exactly where a route that takes part leads |
| `GraphRebuild.MixedIff` | src/dsp_engine.cpp:225-255 | a block mixes exactly the tone, bound endpoints with channels and both ends of routes that take part, except what lies on or behind a cycle |
| `GraphRebuild.BoundEndpointDecides` | src/dsp_engine.cpp:171-196 | a bound endpoint's width and direction are its own whatever routes ask |
| `GraphRebuild.UnboundWidthIsLeast` | src/dsp_engine.cpp:197-203 | an unbound node is exactly as wide as the enabled routes need |
| `GraphRebuild.OfflineRouteTakesPart` | src/dsp_engine.cpp:197-212 | an enabled route between unbound nodes is always valid |
| `GraphRebuild.LeftOutIffBehindCycle` | src/dsp_engine.cpp:248-249 | a node is left out of blocks exactly when it lies on or behind a cycle of valid routes |
| `GraphRebuild.RebuildOrderIsLeast` | src/dsp_engine.cpp:240-255 | the stored order is the least one that respects the valid routes |
| `GraphRebuild.FeedbackNeverTaken` | src/dsp_engine.cpp:414-418 | the mixer's feedback test is never true for a valid route |
| `AudioGraph.OutgoingIs` | src/dsp_engine.cpp:311-313 | an outgoing list holds exactly the valid routes of its node, once each |
| `BlockMixer.CellInverse` | src/dsp_engine.cpp:419-420 | frame and channel are recovered from the index of an interleaved cell |
| `BlockMixer.CellCover` | src/dsp_engine.cpp:439-440 | every cell of a buffer belongs to one frame and channel |
| `BlockMixer.AddChannelNext` | src/dsp_engine.cpp:439-440 | accumulating one more frame of a channel changes exactly one cell |
| `BlockMixer.SumAdd` | src/dsp_engine.cpp:409-443 | a new contribution enters exactly the sums of the channel it feeds |
| `BlockMixer.SolutionIsMeaning` | src/dsp_engine.cpp:368-470 | the equations that mixing maintains have one solution, the recursive meaning of the graph |
| `BlockMixer.ChainInTurn` | src/dsp_engine.cpp:432-434 | a chain is its processors in turn, each on the output of the one before and with its own state |
| `BlockMixer.ContributionIs` | src/dsp_engine.cpp:418-440 | a route brings, sample by sample, the chain's output times route gain times slot gain when its slot is active, and the tapped channel times the route gain otherwise |
| `BlockMixer.CellIs` | src/dsp_engine.cpp:383-440 | every sample of a node is its own input plus the sum of what the valid routes into its channel bring, products written out |
| `BlockMixer.ChainsRunOnce` | src/dsp_engine.cpp:422-438 | with distinct IDs every mixed route ran its chain once, on the slot it found: the one published last before the route was reached, or else the one the block began with; what its run left behind stays unless something is published later |
| `BlockMixer.FoundIsNewest` | src/dsp_engine.cpp:422-431 | a route finds the publication that landed just before it, or what the block began with when nothing landed |
| `BlockMixer.FoundIsLast` | src/dsp_engine.cpp:422-431 | and otherwise the last one that landed while an earlier route was mixed |
| `BlockMixer.NothingFoundBeyond` | src/dsp_engine.cpp:410-431 | a route whose ID has no slot finds none that is active |
| `BlockMixer.UndisturbedChainRunsOn` | src/dsp_engine.cpp:422-438 | so without a publication for it a chain runs once on the slot the block began with, and the block ends with its processors as that one run left them if the slot is active, and unchanged if not |
| `BlockMixer.MixingStep` | src/dsp_engine.cpp:409-443 | mixing one more route keeps the equations of all nodes |
| `BlockMixer.RouteMixed` | src/dsp_engine.cpp:409-443 | what mixing a route does to buffers and slots is what the equations ask, and the buffers of earlier nodes stay |
| `BlockMixer.NodeSettles` | src/dsp_engine.cpp:368-408 | when a node is reached all routes into it have been mixed |
| `DspEngine.BlockEngine.constructor` | src/dsp_engine.cpp:23-36 | silent buffers, an empty graph and empty DSP slots |
| `DspEngine.OwnInputIs` | src/dsp_engine.cpp:383-406 | the tone, devices and clients that capture bring in the samples they got and silence after those; all other nodes bring in silence |
| `DspEngine.BlockEngine.CopyTap` | src/dsp_engine.cpp:418-420 | the scratch block is the tapped channel |
| `DspEngine.BlockEngine.RunChain` | src/dsp_engine.cpp:432-434 | the scratch block is passed through the processors in order |
| `DspEngine.BlockEngine.RunDsp` | src/dsp_engine.cpp:422-438 | chain and gain of a route's slot, bypassed when inactive or unsupported |
| `DspEngine.BlockEngine.Accumulate` | src/dsp_engine.cpp:439-440 | the scratch block times a gain is added to one channel and no other cell |
| `DspEngine.BlockEngine.MixRoute` | src/dsp_engine.cpp:410-441 | one route: its output through the slot found when it is reached is added to its destination channel, its DSP state advances, publications before and during it arrive, nothing else changes |
| `DspEngine.BlockEngine.MixOutgoing` | src/dsp_engine.cpp:409-443 | all outgoing routes of a node are mixed and earlier nodes keep their buffers |
| `DspEngine.BlockEngine.AddInput` | src/dsp_engine.cpp:383-406 | a node's own input is added to its buffer |
| `DspEngine.BlockEngine.Play` | src/dsp_engine.cpp:445-467 | playback hands its block out, hardware playback after the master stage |
| `DspEngine.BlockEngine.MixNode` | src/dsp_engine.cpp:368-470 | one node's turn keeps the history of the block |
| `DspEngine.BlockEngine.ClearBuffers` | src/dsp_engine.cpp:361-366 | the buffers of the ordered nodes are silent when mixing starts |
| `DspEngine.BlockEngine.ProcessAudio` | src/dsp_engine.cpp:361-470 | one block computes, for every ordered node, frame and channel, its own input plus route gain times DSP gain times the chain's output over all valid incoming routes, through any number of nodes; every valid route from the order is mixed exactly once, on the DSP slot published when it is reached, whatever control threads publish between and during the routes |
| `DspEngine.BlockEngine.RebuildGraph` | src/dsp_engine.cpp:357-360 | a rebuild at block entry replaces the graph and silences the buffers of the new order |
| `EndpointLifetime.AudioKeepsAll` | src/dsp_engine.cpp:316-322 | no step of the worker changes which endpoints are owned by somebody |
| `EndpointLifetime.ControlAddsNothing` | src/dsp_engine.cpp:91-99 | no control step revives an endpoint |
| `EndpointLifetime.CreatedIsTabled` | src/device_manager.cpp:411-439 | a created device or session that is put in its table is there, alive and still held by its thread |
| `EndpointLifetime.CopyKeepsAlive` | src/device_manager.cpp:353-359 | what a control thread copied out of the tables stays alive whatever is removed |
| `EndpointLifetime.ClosedSessionWaits` | src/web_server.cpp:276-292 | a closed session lives on without any thread holding it until the sessions are collected |
| `EndpointLifetime.StopLetsGo` | src/dsp_engine.cpp:53-61 | stopping between blocks drops exactly the worker's owners, handlers and lists, and the engine can start again |
| `EndpointLifetime.DereferencesAreSafe` | src/dsp_engine.cpp:256-313 | in every run, while a block is mixed each handler points to an endpoint the worker owns, and each adjacency pointer into the snapshot it keeps |
| `EndpointLifetime.OnlyControlDestroys` | src/dsp_engine.cpp:315-322 | the worker never drops the last owner of an endpoint |
| `EndpointLifetime.DestroyedForGood` | src/device_manager.cpp:449-475 | a destroyed endpoint is never owned again |
| `EndpointLifetime.RebuildLetsGo` | src/dsp_engine.cpp:314-322 | once an endpoint is off the tables, the end of the next rebuild takes it out of the worker's hands for good |
| `EndpointLifetime.RebuildTakesAll` | src/dsp_engine.cpp:256-322 | a rebuild on its own takes exactly the endpoints in both tables, retires the owners it had, points handlers only at endpoints it took and its lists into the routes published last |
| `EndpointLifetime.RebuildHears` | src/dsp_engine.cpp:256-322 | whatever other threads do, an endpoint that stays in a table from the beginning of a rebuild belongs to the worker in every block it mixes afterwards |
| `EndpointLifetime.RemovedIsDestroyed` | src/dsp_engine.cpp:91-99 | a removed device lives on while the worker mixes with it; a rebuild, the collections and the end of the control threads' references destroy it |
| `EndpointLifetime.CollectionDestroys` | src/dsp_engine.cpp:91-99 | then the two collections and the end of the control threads' references destroy it |
| `NodeRegistry.RegisterKeeps` | src/web_server.cpp:311-326 | registration keeps the maps inverse with IDs exactly 1..next-1 |
| `NodeRegistry.RegisterIsStable` | src/web_server.cpp:311-326 | an ID never changes or moves to another endpoint |
| `NodeRegistry.RegisteredResolves` | src/web_server.cpp:311-326 | a registered endpoint resolves to an ID that resolves back, unless the IDs are used up |
| `NodeRegistry.LookupsAreInverse` | src/web_server.cpp:297-309 | the two lookups are inverse to each other |
| `NodeRegistry.RoomForKnown` | src/web_server.cpp:318-321 | registering endpoints that a full registry already held never runs out of IDs |
| `Routing.RoutingIsConsistent` | src/web_server.cpp:721-809 | in every run from empty or from a saved file: route IDs distinct and below the counter, no shared edge, registered endpoints, inverse node maps |
| `Routing.CacheTellsTheTruth` | src/web_server.cpp:1271-1329 | in every run from any settings file the cached settings of a live route are what the engine's slot executes: switch, gain, and the whole chain unless it is reported as bypassed |
| `Routing.NewRouteInheritsNothing` | src/web_server.cpp:779-795 | a new route starts without settings and with an empty inactive slot, though slots of removed routes keep their chains |
| `Routing.FreshRun` | src/web_server.cpp:769-776 | IDs that are still to be given out stay free of settings and chains |
| `Routing.RemoveIsExact` | src/web_server.cpp:779-795 | removal takes out exactly the named route, keeps the order of the rest and forgets its settings |
| `Routing.OtherRoutesUntouched` | src/web_server.cpp:797-809 | an operation changes no route, setting or slot it does not name |
| `Routing.ApplyIsAllOrNothing` | src/web_server.cpp:1299-1329 | a refused request changes nothing; an accepted one sets route, cache and slot together |
| `Routing.PreparedIsInstallable` | src/dsp_engine.cpp:104-107 | what was prepared always passes the engine's own checks |
| `Routing.NodeIdsForEver` | src/web_server.cpp:311-332 | over any run a node keeps its ID |
| `Routing.RouteIdsNotRecycled` | src/web_server.cpp:769-773 | over any run a route ID is never given out twice |
| `ControlOutcomes.FitsIff` | src/web_server.cpp:739-752 | a channel fits the tone only as source channel 0, else the direction and channel count of the first live endpoint of that name, else always |
| `ControlOutcomes.AddedIff` | src/web_server.cpp:721-777 | when a route is added, over its fields, the nodes given out, the live endpoints and the existing edges, and the exact state afterwards |
| `ControlOutcomes.RemovedIff` | src/web_server.cpp:779-795 | removal takes out the routes with the ID and its settings and nothing else, and does nothing without such a route |
| `ControlOutcomes.UpdatedIff` | src/web_server.cpp:797-809 | an update sets gain and switch of the first route with the ID if the gain is between 0 and 8, else nothing |
| `ControlOutcomes.PostedIff` | src/web_server.cpp:1271-1295 | DSP settings are taken if and only if the route exists, its ID has a slot and every part of the body is in order; cache and slot then say exactly what the body says |
| `ControlOutcomes.AppliedIff` | src/web_server.cpp:1299-1329 | applying is taken if and only if route, slot and a complete body are there; then gain, switch, cache and slot change together |
| `ControlOutcomes.ActivatedIff` | src/web_server.cpp:991-998 | a device is listed afterwards if and only if it was, or it works and both its endpoints have or get an ID |
| `ControlOutcomes.PairIsKnownIff` | src/web_server.cpp:311-326 | two endpoints both get an ID if and only if there is room for those without one; the first gets the lower |
| `ControlOutcomes.DeactivatedIs` | src/web_server.cpp:337-343 | deactivation takes the first entry of the device off the list |
| `ControlOutcomes.ClaimedIff` | src/web_server.cpp:408-426 | a key is refused when empty or taken; otherwise its name, or the key itself, is remembered if both endpoints have an ID |
| `ClientManagers.ClientManager.RegisterNode` | src/web_server.cpp:311-326 | both maps and the counter change as registration says |
| `ClientManagers.ClientManager.CheckChannel` | src/web_server.cpp:739-752 | the channel fits the first live layout of the endpoint, or none is known |
| `ClientManagers.ClientManager.AddRoute` | src/web_server.cpp:721-777 | a route is added with the next ID exactly when every check passes, else nothing changes |
| `ClientManagers.ClientManager.RemoveRoute` | src/web_server.cpp:779-795 | the routes without that ID remain, and the cache entry goes |
| `ClientManagers.ClientManager.UpdateRoute` | src/web_server.cpp:797-809 | gain and switch of the first route with that ID |
| `ClientManagers.ClientManager.UpdateRouteDsp` | src/dsp_engine.cpp:104-123 | publication to a slot, refused when it does not fit |
| `ClientManagers.ClientManager.PostDsp` | src/web_server.cpp:1271-1295 | the DSP handler: slot and cache change together or not at all |
| `ClientManagers.ClientManager.Apply` | src/web_server.cpp:1299-1329 | the whole-route handler |
| `ClientManagers.ClientManager.Activate` | src/web_server.cpp:991-998 | both directions are registered before a device is listed |
| `ClientManagers.ClientManager.ClaimIdentity` | src/web_server.cpp:408-426 | a client key is taken with both its nodes or not at all |
| `ClientManagers.ClientManager.SaveSettings` | src/web_server.cpp:615-650 | the saved file holds devices, routes with their settings, and names |
| `ClientManagers.ClientManager.RestoreDsp` | src/web_server.cpp:527-557 | an accepted entry's settings, bypassed when they cannot be prepared |
| `ClientManagers.ClientManager.ReadEntry` | src/web_server.cpp:507-559 | one route entry: skipped, accepted, or the end of loading |
| `ClientManagers.ClientManager.LoadSettings` | src/web_server.cpp:478-572 | loading, also the partial effects of a file that fails half-way |
| `SettingsFile.LoadedAgrees` | src/web_server.cpp:498-572 | whatever a file holds and however far it loads, cache and engine agree afterwards |
| `SettingsFile.AllCover` | src/web_server.cpp:311-326 | of a list of endpoints exactly the tone and the first 255 distinct ones get an ID |
| `SettingsFile.LoadingBreaksIff` | src/web_server.cpp:507-526 | loading ends at a route entry exactly if the file has an entry with a valid ID and an ill-typed member |
| `SettingsFile.FreshUnlessLoadBroke` | src/web_server.cpp:498-562 | a new route may inherit settings exactly after files in which an entry with DSP settings that becomes a route comes before the first unreadable entry, both read off the file |
| `SettingsEntries.EntryIs` | src/web_server.cpp:507-559 | one entry: ignored without a valid ID, the end of loading with a member of a wrong type, otherwise exactly the route its members describe, with defaults for missing ones and 32-bit conversion of channels, taken if and only if it is within the bounds and both ends have an ID |
| `SettingsEntries.EntryRegisters` | src/web_server.cpp:511-514 | the ends of an entry get IDs as far as there are any, whatever becomes of its route, and no other endpoint is touched |
| `SettingsEntries.NextIdIs` | src/web_server.cpp:524-525 | the counter after loading is the least above every loaded ID, up to the last 32-bit one |
| `SettingsEntries.LoadIs` | src/web_server.cpp:478-572 | what each outcome of loading replaces and what it leaves |
| `SettingsEntries.DevicesAre` | src/web_server.cpp:481-486 | the devices are the strings of the list, in order |
| `SettingsEntries.BeforeIff` | src/web_server.cpp:563-567 | object members are visited in lexicographic order of their names |
| `SettingsEntries.BeforeIsOrder` | src/web_server.cpp:563-567 | which is strict and total |
| `SettingsEntries.NameIsReadIff` | src/web_server.cpp:563-567 | a client name is read if and only if it and every name visited before it are strings |
| `SettingsFile.DisconnectKeepsFileIff` | src/web_server.cpp:645-649 | a closed connection leaves what a save writes as it is exactly if its name is remembered, as it is once its client has said hello |
| `SettingsRoundTrip.EntryReadsBack` | src/web_server.cpp:624-648 | a saved route entry reads back as what was saved |
| `SettingsRoundTrip.RoutesSurvive` | src/web_server.cpp:481-526 | save then load into a fresh manager gives the same ordered routes by endpoint strings, channels, gain, switch and ID, never runs out of nodes, and the counter is above all IDs |
| `SettingsRoundTrip.EffectsSurvive` | src/web_server.cpp:527-558 | and every route's effective DSP is the same |
| `SettingsRoundTrip.LoadedStateIsSound` | src/web_server.cpp:561-562 | and every invariant holds in the loaded state, so the run may go on |
| `SettingsRoundTrip.BrokenFileIsInherited` | src/web_server.cpp:498-572 | a concrete file whose failed load leaves an active chain behind for the first route added afterwards |
| `ProcessorRegistries.ProcessorRegistry.CheckValue` | src/processor_registry.cpp:113-134 | a value is valid for a parameter of its kind, within its constraints |
| `ProcessorRegistries.ProcessorRegistry.Register` | src/processor_registry.cpp:16-57 | exactly well-formed descriptors of a new type are registered |
| `ProcessorRegistries.ProcessorRegistry.Create` | src/processor_registry.cpp:59-82 | creation from given parameters, or failure |
| `ProcessorRegistries.ProcessorRegistry.Defaults` | src/processor_registry.cpp:88-106 | the defaults reported for a type |
| `ProcessorRegistries.CreateMeans` | src/processor_registry.cpp:59-82 | creation succeeds exactly for objects whose members are valid parameters of the type; each parameter is then as given or its default |
| `ProcessorRegistries.CreateIsIdempotent` | src/processor_registry.cpp:67-73 | creating from its own normalized output gives the same |
| `ProcessorRegistries.DefaultsAreAccepted` | src/processor_registry.cpp:52-55 | every registered type can be created from no parameters, with its reported defaults |
| `ControlOutcomes.ValueIsTakenIff` | src/processor_registry.cpp:113-134 | for each declared kind of parameter exactly the values it takes |
| `ControlOutcomes.DescriptorIsTakenIff` | src/processor_registry.cpp:16-57 | a type may be registered if and only if it is named and can be built, its parameter names differ, and each default is a value that the parameter takes |
| `ControlOutcomes.ItemsAreCreatedIff` | src/web_server.cpp:164-178 | a chain is built if and only if every item names a type and gives parameters that it takes, and then processor by processor with exactly the type's parameters, given or default |
| `ControlOutcomes.PreparedIff` | src/web_server.cpp:148-181 | settings are accepted if and only if a switch, a gain between 0 and 8 and a chain of at most 16 creatable items are in order or missing; cache and engine then say exactly that |
| `ControlOutcomes.RestoredIff` | src/web_server.cpp:533-551 | what is kept and executed of loaded settings, in order or not |
| `DspSettings.PrepareRouteDsp` | src/web_server.cpp:148-181 | settings are checked and every processor is built before anything changes |
| `DspSettings.AcceptedIsCanonical` | src/web_server.cpp:148-181 | accepted settings, saved and prepared again, are the same with the same processors |
| `DspSettings.EffectIsKept` | src/web_server.cpp:533-557 | load, save and load keep what a route's DSP does, for any file |
| `DspSettings.SecondRoundIsFixed` | src/web_server.cpp:533-557 | after one load, save and load further rounds change nothing |
| `DspSettings.RoundsStandStill` | src/web_server.cpp:638-648 | the same over any number of rounds |
| `DspSettings.InvalidStaysSilent` | src/web_server.cpp:546-551 | settings that could not be prepared never become audible |
| `DspSettings.AcceptedIsNotRewritten` | src/web_server.cpp:541-545 | one round keeps an accepted or unsupported chain verbatim |
| `DspSettings.RewritesIff` | src/web_server.cpp:533-551 | one round rewrites a chain exactly when a supported route was bypassed for its switch or gain alone and its chain, valid in itself, is not in the normal form |
| `DspSettings.OneRoundMayRewrite` | src/web_server.cpp:533-551 | such settings exist: a concrete example |
| `DeviceManagers.HardwareDevice.Attempt` | src/device_manager.cpp:122-202 | a stream is kept only if it is unmixed, of the requested width and of the right format; otherwise it is closed |
| `DeviceManagers.HardwareDevice.Init` | src/device_manager.cpp:108-221 | the second device name is tried only when the first did not fail by its width; an open device is restarted and keeps its width |
| `DeviceManagers.KeyInjective` | src/device_manager.cpp:391-392 | different endpoints never share a key |
| `DeviceManagers.DeviceManager.ScanActive` | src/device_manager.cpp:380-387 | the scan over active devices finds exactly the directions of the ID and any width conflict |
| `DeviceManagers.DeviceManager.Planned` | src/device_manager.cpp:364-404 | the first locked part of an activation |
| `DeviceManagers.DeviceManager.Publish` | src/device_manager.cpp:426-447 | the last locked part: cancelled by a newer generation, never replacing an active device |
| `DeviceManagers.DeviceManager.Deactivate` | src/device_manager.cpp:449-466 | exactly the devices of the ID go, and the generation advances |
| `Activation.ActiveIsUnique` | src/device_manager.cpp:438-439 | no two active devices share ID and direction |
| `Activation.ActiveNeverChanges` | src/device_manager.cpp:438-439 | an active device and its width stay until a removal that names it |
| `Activation.SuccessMeansWidth` | src/device_manager.cpp:380-447 | success leaves the ID active and every direction asked for by width at that width |
| `Activation.FailurePublishesNothing` | src/device_manager.cpp:411-435 | failure publishes nothing, with explicit widths or not |
| `Activation.BeginAnswers` | src/device_manager.cpp:364-404 | an activation fails at once if the request cannot be met, succeeds if every listed direction is active, and otherwise opens exactly the listed directions that are not, in order |
| `Activation.OpenAnswers` | src/device_manager.cpp:411-423 | which answers of the backend give a device of which width, and what a failure does with and without explicit counts |
| `Activation.PublishSucceedsIff` | src/device_manager.cpp:426-447 | a call with nothing left to open succeeds if and only if nothing was removed since it began, no active direction of the ID has another width than asked for, and something of it is active or was opened |
| `Activation.PublishedAreActive` | src/device_manager.cpp:436-439 | and then every opened direction that was not active is, with that very device, and everything active stays |
| `Activation.ActivationSucceedsIff` | src/device_manager.cpp:362-447 | the same over whole runs, with "nothing removed" read off the actions after its beginning |
| `Activation.DuplexActivates` | src/device_manager.cpp:362-447 | a duplex device that opens in both directions is active in both afterwards |
| `Activation.PublishesOnlyOnSuccess` | src/device_manager.cpp:424-447 | a call publishes only in the step that returns success |
| `Activation.RemovalCancels` | src/device_manager.cpp:428-429 | an activation begun before a removal never publishes afterwards, however the calls interleave |
| `Activation.RemovedStaysOff` | src/device_manager.cpp:449-475 | after a removal an endpoint stays off until an activation of it begins anew |
| `PcmRing.CommitWriteAppends` | include/ring_buffer.h:65-70 | committing a write appends the frames put in front of the write cursor |
| `PcmRing.CommitReadDrops` | include/ring_buffer.h:85-90 | committing a read drops the oldest frames |
| `PcmRing.PutIsInvisible` | include/ring_buffer.h:65-67 | stores into an acquired chunk touch nothing the consumer may read |
| `PcmRing.SpansSuffice` | include/ring_buffer.h:58-65 | while anything is free or filled something can be acquired, and after a wrap all of it |
| `PcmRing.PcmRingBuffer.Write` | include/ring_buffer.h:53-73 | as many frames as were free are appended in order |
| `PcmRing.PcmRingBuffer.Read` | include/ring_buffer.h:75-93 | as many of the oldest frames as were there are returned in order |
| `RingProtocol.FirstInFirstOut` | include/ring_buffer.h:53-93 | under every interleaving of one producer and one consumer, what came out is a prefix of what went in, the rest being in the ring |
| `RingProtocol.CallsAreExact` | include/ring_buffer.h:53-93 | a finished call moved exactly the lesser of its request and what it saw on entry |
| `RingProtocol.AtMostTwoChunks` | include/ring_buffer.h:62-71 | no call acquires more than two chunks |
| `RingProtocol.CallsTerminate` | include/ring_buffer.h:63-92 | each own step of a call lowers a bound fixed on entry, and the other side never raises it |
| `RingCalls.BeginningsSee` | include/ring_buffer.h:53-61 | a call of an idle side records what is free, or filled, in the ring at that moment |
| `RingCalls.WritesTakeWhatFits` | include/ring_buffer.h:53-73 | over any schedule the i-th finished write took the lesser of its data and what was free at the step that began it |
| `RingCalls.ReadsTakeWhatIsThere` | include/ring_buffer.h:75-93 | and the i-th finished read delivered the lesser of what it wanted and what was there at the step that began it |
| `RingCalls.WriteAppends` | include/ring_buffer.h:53-73 | a write begun by an idle producer ends by its own steps with as much of its data as there was room for appended |
| `RingCalls.ReadTakes` | include/ring_buffer.h:75-93 | a read ends by its own steps with the oldest frames delivered and gone |
| `RingCalls.CapacityStays` | include/ring_buffer.h:26-42 | the ring keeps its capacity and never holds more |
| `BrowserRing.ByteRing.Write` | web_client/client_main.cpp:20-27 | as much data as fits is appended; count stays the head-tail distance |
| `BrowserRing.ByteRing.Read` | web_client/client_main.cpp:28-35 | the oldest bytes move to the destination, whose rest is untouched |
| `DelayLines.Stored` | src/plugins/echo_processor.cpp:30-36 | a circular buffer remembers the last samples written, each at its distance behind the write position |
| `Echo.EchoProcessor.Process` | src/plugins/echo_processor.cpp:12-38 | one mono block in place follows w[n] = x[n] + feedback * w[n-d] and y[n] = (1-mix) * x[n] + mix * w[n-d] |
| `Echo.EffectiveIsGiven` | src/plugins/echo_processor.cpp:17-18 | the delay in effect is the one given exactly if it is positive and below the buffer size |
| `Echo.OnlyLongestIsShortened` | src/plugins/echo_processor.cpp:17-44 | of the delays that can be registered exactly the longest comes out one sample short |
| `Echo.BlocksJoin` | src/plugins/echo_processor.cpp:12-38 | blocks of any lengths continue one recurrence |
| `Echo.RecurrenceUnique` | src/plugins/echo_processor.cpp:26-31 | the recurrence has one solution |
| `Echo.EchoIs` | src/plugins/echo_processor.cpp:26-34 | each sample written and put out, by formula over the input and the sample written one delay ago |
| `Echo.ClickEchoes` | src/plugins/echo_processor.cpp:26-31 | a single click comes back after every delay, the k-th time as the k-th power of the feedback, and never in between |
| `Echo.EchoStays` | src/plugins/echo_processor.cpp:26-31 | inputs up to M keep everything written within M / (1 - feedback), for ever |
| `Echo.OutputStays` | src/plugins/echo_processor.cpp:33-34 | and everything that goes out |
| `AllPasses.PassIsRecurrence` | include/plugins/reverb_processor.h:36-47 | an all-pass is a recurrence over its whole length |
| `AllPasses.PassIs` | include/plugins/reverb_processor.h:36-47 | each of a series of all-passes puts out its oldest sample less half of what it hears and stores what it hears plus half of its oldest |
| `AllPasses.PassStays` | include/plugins/reverb_processor.h:41-46 | hearing at most r it stores at most 2 r and puts out at most 2.5 r |
| `AllPasses.ThroughStays` | src/plugins/reverb_processor.cpp:47-51 | so k all-passes in series put out at most 2.5^k times what they hear |
| `Reverb.CombIsRecurrence` | include/plugins/reverb_processor.h:25-33 | a comb is a recurrence with loop gain damping + (1 - damping) * feedback |
| `Reverb.ReverbProcessor.Sample` | src/plugins/reverb_processor.cpp:34-54 | one sample: four combs averaged, two all-passes, dry and wet blended |
| `Reverb.ReverbProcessor.Process` | src/plugins/reverb_processor.cpp:29-57 | a block in place plays sample by sample |
| `Reverb.BlocksJoin` | src/plugins/reverb_processor.cpp:29-57 | consecutive blocks are one stream |
| `Reverb.SampleIs` | src/plugins/reverb_processor.cpp:34-54 | every sample written out: wet signal, mix, and what each comb and all-pass stores |
| `Reverb.ReverbIsStable` | src/plugins/reverb_processor.cpp:29-56 | from silence, inputs up to M keep every comb cell within M / (1 - feedback) whatever the damping, and the wet signal within 6.25 times that |
| `LushReverb.WrappedIsCongruent` | include/plugins/lush_reverb_processor.h:31-33 | the wrap loops move the read position by whole buffer lengths into range |
| `LushReverb.ReadStays` | include/plugins/lush_reverb_processor.h:35-40 | the fraction lies in [0, 1) and the value read between two cells |
| `LushReverb.SwingIsSmall` | include/plugins/lush_reverb_processor.h:28-29 | with an admitted diffusion a read is at most half a sample off |
| `LushReverb.LushReverbProcessor.BringBack` | include/plugins/lush_reverb_processor.h:32-33 | the two loops compute that position |
| `LushReverb.LushReverbProcessor.CombProcess` | include/plugins/lush_reverb_processor.h:27-53 | one modulated comb |
| `LushReverb.LushReverbProcessor.Sample` | src/plugins/lush_reverb_processor.cpp:39-63 | one sample: eight combs averaged, four all-passes, blended |
| `LushReverb.LushReverbProcessor.Process` | src/plugins/lush_reverb_processor.cpp:29-65 | a mono block in place plays sample by sample |
| `LushReverb.SampleIs` | src/plugins/lush_reverb_processor.cpp:39-63 | every sample written out: eight modulated reads averaged, four all-passes, the mix, and how every filter and phase moves |
| `LushReverb.LushReverbIsStable` | src/plugins/lush_reverb_processor.cpp:29-65 | from silence, inputs up to M keep every comb cell within M / (1 - feedback) however the positions swing, and the wet signal within 39.0625 times that |
| `Compressor.CompressorProcessor.Process` | src/plugins/compressor.cpp:16-29 | every sample leaves multiplied by the envelope after it |
| `Compressor.EnvelopeBounds` | src/plugins/compressor.cpp:20-26 | the envelope stays between 1 / ratio and 1 |
| `Compressor.TargetDividesExcess` | src/plugins/compressor.cpp:20-24 | the gain asked for leaves quiet samples alone and divides what a louder one has above the threshold by the ratio |
| `Compressor.NeverLouder` | src/plugins/compressor.cpp:27 | no sample becomes louder, nor weaker than 1 / ratio of it |
| `Compressor.DistanceShrinks` | src/plugins/compressor.cpp:25-26 | every sample shrinks the distance to its target gain by exactly the attack coefficient from above and the release coefficient otherwise |
| `Compressor.Converges` | src/plugins/compressor.cpp:25-26 | under a constant input above the threshold the distance after n samples is the n-th power of the attack coefficient times the first |

## Left out

- HTTP, WebSocket and TLS plumbing, the dashboard, shell scripts, meters, and the wall clock: a timed-out wait is a nondeterministic failure.
- Floating-point rounding; `sin` is a function with values in [-1, 1], coefficients lie strictly between 0 and 1, and a delay is given in samples.
- Memory orders weaker than sequential consistency: every atomic load and store is one step.
- Revision, generation and ring counters do not wrap around at 64 bits; route IDs keep their 32-bit limit.
- Adoption.SavedIsHeard: cached DSP settings and published slots share one version per route; that they agree is proved in `Routing.CacheTellsTheTruth`.
- The tone generator's samples and the ring reads at block entry: a block takes its input samples as given.
- Feedback buffers: they are read only in a branch that is never taken (`GraphRebuild.FeedbackNeverTaken`), so their contents are not tracked.
- Two bound endpoints never share an endpoint string (`GraphRebuild.DistinctEndpoints`), as activation keys and identity claims ensure.
- DspEngine.BlockEngine.Play: the master gain and compressor are one abstract stage, passed in the order of the nodes.
- The processors of a chain are abstract state transitions in the mixer; chorus, gain, equaliser and passthrough are not modelled one by one.
- Echo.EchoProcessor.Process: mono blocks only, the only width with which the engine runs a route's chain; the same holds for the lush reverb, which mixes several channels down first.
- Reverb.ReverbProcessor.Process: the loop over frames and channels is one loop over samples in the same order, and the write-only `lastOut` is left out.
- The filters of a reverb are values in a sequence that the processor replaces, not arrays updated in place; they are never shared.
- Settings: the global DSP, tone, hardware-control and device-stream sections; whether the sections before the devices can be read is an input of loading.
- ClientManagers.ClientManager.LoadSettings: a real number far outside 32 bits counts as a channel out of range.
- ClientManagers.ClientManager.AddRoute: the layouts of live endpoints are an input, taken once for the call.
- ProcessorRegistries.ProcessorRegistry.Create: factories never return null; error messages are not modelled.
- ProcessorRegistries.ProcessorRegistry.Defaults: discovery is modelled for the defaults only, not for labels, units and ordering.
- JSON text, and the writing, flushing and renaming of the settings file.
- The audio library itself: its ring appears as two cursors with lap flags, acquiring the contiguous frames up to the wrap and committing what was acquired; its errors while acquiring or committing a chunk are not part of this model.
- DeviceManagers.HardwareDevice.Init: the audio library's answers are inputs, and device IDs are given as strings.
- EndpointLifetime: the collections of routes themselves may be freed by the worker; only endpoints may not.
