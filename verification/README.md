# OpenWave: a verified model

OpenWave controls USB microphones and a matrix of PipeWire loopbacks: sources play into
mixes through one loopback per cell, sources may share exclusive mute groups, and the
daemon must leave no stream, sink, card or stored file worse than it found them. This
project models the parts of that system which are protocols with rules about failure,
identity and order, and proves the rules.

Modules follow the program.

- Mixer: `AudioServer`, `Matrix`, `RouteTable`, `Reconciler` (routes),
  `StreamServers`, `StreamPasses`, `StreamSinks`, `Streams` (moved streams and owned
  sinks), `CaptureIntents` (mute intents shared between threads).
- Health: `HealthPolicy`, `HealthWatches`, `HealthRuns` (budgets over runs), `Recovery`,
  `HealthMonitoring`.
- USB units: `Protocol`, `ConfigBuffers`, `VendorDevices`, `Mirrors`, `SyncedDevices`,
  `DeviceWorkers`, `DeviceDiscovery`.
- Routing rules: `Matcher`, `Outputs`, `Groups`, `RouteNames`.
- Text and numbers: `Quoting`, `DesktopEntry`, `Rpm`, `Decimal`, `Calibration`.
- Stores: `Stored`, `Records`, `FxCodec`, `MatrixStore`, `SourceStore`, `MixStore`,
  `PreferenceStore`, `SceneStore`, `ConfigStores`.
- Shared: `Wrappers`, `Numbers`, `Strings`, `Model`.

How the outside is modelled. The audio server, the recovery tools, the USB transport and
the ALSA card are classes whose methods may fail at every call, and may have taken effect
all the same; what they record of their own history is what the properties speak about. A
mutex-guarded section is one method, and `Interfere` or `Interleave` lets other threads
take any steps wherever the lock is free. Methods follow the loops and in-place updates of
the source and are proved against functions or predicates on values; the lemmas are about
those. Levels and decibels are reals. Errors are the crate's error codes without their
messages.

Where code and documentation differ, the model follows the code. Three places are worth
knowing. A stream whose first move took effect and was reported as failed is not put on
record: `StreamServers.MisreportedMove` is the input, `StreamServers.RecordedFirst` says
exactly when the first origin is on record and `StreamPasses.LeftBehind` which streams stay
behind on an intake. `SyncedDevice::apply` commits the whole firmware state while it marks
only the fields the job set, so that a knob turned by hand before a job for another field is
turned back: `SyncedDevices.KnobLost` is the input, `SyncedDevices.SyncedDevice.JobThenPoll`
the exact condition. The suffix `_cap` for the capture side of a loopback can meet the name
of another route's playback side (`AudioServer.CapNameClash` says exactly when,
`RouteNames.CapNameCollision` for cells).

Check the project with `dafny verify dfyconfig.toml`.

## Model

| member | source | states |
|---|---|---|
| Reconciler.Reconciler.Run | crates/openwave-runtime/src/mixer.rs:1038-1102 | Over any run of drifts, retunes, full passes and failed passes, with fixed groups and at most one unmuted member in each desired state, two members of a group are never audible at once at any instant of the recorded history |
| RouteTable.TwoPhaseExclusive | crates/openwave-runtime/src/mixer.rs:2020-2186 | One cycle, aborted or complete, keeps the groups exclusive at every instant, given only that it silences before it opens |
| Reconciler.Reconciler.Reconcile | crates/openwave-runtime/src/mixer.rs:1959-2258 | A pass splits at one instant: until then nothing opens, and later instants exist only if every existing route of a muted cell was by then silent or gone; a completed pass leaves only wanted routes, every wanted one that reported no failure is there or was dropped at its third absence, and each is tuned, on the strength of commands that succeeded, unless its source reported a failure |
| Reconciler.Reconciler.Silence | crates/openwave-runtime/src/mixer.rs:2020-2094 | The barrier opens nothing, ends the cycle on its first failure, and Ok means that every cell route left is of a known source and silent where the matrix mutes it |
| Reconciler.Reconciler.SilenceOne | crates/openwave-runtime/src/mixer.rs:2028-2093 | One route is dropped, left alone or proven muted on the node of this snapshot, and its record changes in no other way; a route that is not to be silent gets no command, and any command is of the level and mute asked, to the node of this route, for a good reason |
| Reconciler.Reconciler.EnsureMuted | crates/openwave-runtime/src/mixer.rs:2065-2088 | The barrier writes a mute unless the node is both recorded and shown muted; success means the loopback is muted |
| Reconciler.Reconciler.OpenCells | crates/openwave-runtime/src/mixer.rs:2136-2186 | Exactly the wanted cells whose two ends are in the snapshot are visited, in an order that opens only unmuted cells; each that reported no failure has its route afterwards, or lost it to a third absence; exactly the failures block the silence proof of their sources |
| Reconciler.Reconciler.OpenOne | crates/openwave-runtime/src/mixer.rs:1722-1792 | A wanted route is kept, restarted when its spec changed or its child exited, or started; Ok(true) means linked with exactly this level on exactly this node; the commands are its level, if there is a reason to write it, and then links; a muted route stays silent throughout |
| Reconciler.Reconciler.TuneRoute | crates/openwave-runtime/src/mixer.rs:1762-1792 | The commands are the level, written whole and only for a reason, and then links, which follow only a level that was written or was on record; a route whose nodes are missing three times running is dropped |
| Reconciler.Reconciler.StartRoute | crates/openwave-runtime/src/mixer.rs:1738-1761 | A new loopback is never adopted: if either of its names is in the graph the answer is an identity error and nothing has changed; otherwise it is started, unlinked with nothing applied, or unavailable |
| Reconciler.Reconciler.OpenFeeds | crates/openwave-runtime/src/mixer.rs:2197-2244 | Captures and monitored outputs of ready mixes join the wanted set, each has its route afterwards unless it failed or was absent for the third time, and an unresolved output ends the pass |
| Reconciler.Reconciler.OpenFeed | crates/openwave-runtime/src/mixer.rs:2187-2244 | One feed: open at full volume, or counted among the failures |
| Reconciler.Reconciler.DropStale | crates/openwave-runtime/src/mixer.rs:2245-2253 | Ok means that no route outside the wanted set is left |
| Reconciler.Reconciler.Retune | crates/openwave-runtime/src/mixer.rs:1108-1202 | The fast path opens nothing and unmutes nothing whatever fails; the only commands are the volumes planned, in order, each to the node on record, and all succeeded but perhaps the last; true means that the edit moved levels only, every planned volume was written with success and every touched wanted route runs and has its new level |
| Reconciler.Reconciler.WriteAll | crates/openwave-runtime/src/mixer.rs:1189-1201 | The volumes of a plan are written in order up to the first failure, and only a success is taken down |
| Reconciler.Reconciler.TouchedBy | crates/openwave-runtime/src/mixer.rs:1108-1163 | The edit is accepted if and only if it moves source levels and cell volumes alone, none across zero, and the touched cells are exactly those whose level moves |
| Reconciler.Reconciler.PlanWrites | crates/openwave-runtime/src/mixer.rs:1164-1188 | A plan exists only if every touched wanted route was found running and was last applied with the same mute, and it writes each level that differs |
| RouteTable.LevelsOnlyKeepsRoutes | crates/openwave-runtime/src/mixer.rs:1108-1163 | An edit the fast path accepts keeps the set of wanted cell routes and every mute |
| RouteTable.RetuneTunes | crates/openwave-runtime/src/mixer.rs:1108-1202 | If every route had the level and mute of the old desired state, after a successful retune every route has those of the new one |
| RouteTable.RetuneThenPassIsQuiet | crates/openwave-runtime/src/mixer.rs:1108-1202 | The full pass that verifies a retune, on a graph with the same nodes and mutes, issues no mute and no volume command but to the nodes of capture and output routes |
| RouteTable.FeedIsNoCell | crates/openwave-runtime/src/mixer.rs:1108-1202 | ... which are the nodes of no cell, if the graph gives no two nodes one number |
| Reconciler.Reconciler.RetuneThenVerify | crates/openwave-runtime/src/mixer.rs:1066-1078 | The worker retunes, takes up the new state and later, after whatever exits, lost links and recreated nodes, verifies it: after a retune that succeeded, the pass over a snapshot with the same nodes and mutes changes no mute and no volume of any cell, and groups stay exclusive throughout |
| Reconciler.Reconciler.StopRoutes | crates/openwave-runtime/src/mixer.rs:1687-1700 | Ok if and only if no route is left; nothing opens on the way |
| Reconciler.Reconciler.ObserveCookie | crates/openwave-runtime/src/mixer.rs:1365-1379 | Another server is accepted only once all routes of the old one are stopped |
| Reconciler.Reconciler.SilentSources | crates/openwave-runtime/src/mixer.rs:1330-1364 | A source is published as silent only if it is a muted device with one capture and no cell route of it is audible |
| Reconciler.Reconciler.Cycle | crates/openwave-runtime/src/mixer.rs:1216-1329 | Without a whole snapshot nothing is touched; with one, groups stay exclusive at every instant |
| AudioServer.Server.SetLevel | crates/openwave-runtime/src/mixer.rs:646-660 | A level that mutes is the mute and then the volume, one that unmutes the volume and then the mute, a failure ending them; at every instant the mute is the old or the new one |
| RouteNames.CellRouteNameInjective | crates/openwave-core/src/routing.rs:148-150 | The length prefix makes cell route names injective though identifiers may contain underscores |
| RouteNames.CellRouteNameIsNotOutput | crates/openwave-core/src/routing.rs:148-150 | A cell route never has the name of an output route |
| RouteNames.CapNameCollision | crates/openwave-runtime/src/mixer.rs:1763-1767 | The capture side of one cell has the playback name of another exactly when both are of one source and the other mix is named the same with _cap appended |
| AudioServer.CapNameClash | crates/openwave-runtime/src/mixer.rs:1738-1767 | The same for routes of every kind: the capture side of one has the playback name of another exactly when that is the same route of the mix named the same with _cap appended |
| AudioServer.RouteNameInjective | crates/openwave-core/src/routing.rs:148-150 | No two routes of whatever kinds share a name |
| Model.CellKeyInjective | crates/openwave-core/src/model.rs:362-367 | A stable identifier has no dot, so a cell key names one cell |
| Streams.Keeper.RestoreStreams | crates/openwave-runtime/src/mixer.rs:2259-2358 | Every moved stream, and every stray on a sink being given up, that nothing claims is back at its first origin (or the default when that is no single output) with no record left, or its sink is retained with the record unchanged because the move was refused, there is nowhere to go, or the sink is not provably ours |
| Streams.Keeper.RestoreOne | crates/openwave-runtime/src/mixer.rs:2286-2356 | One stream: released, sent home, or kept with its sink, and nothing else moves |
| StreamPasses.HomeIsOutside | crates/openwave-runtime/src/mixer.rs:2310-2340 | Streams are only ever sent back to sinks that are not ours |
| Streams.Keeper.ClaimAll | crates/openwave-runtime/src/mixer.rs:2098-2133 | Every stream that a ready source claims plays into its intake afterwards or had its move refused, no other stream moves, and a record that is new is of where the stream was |
| Streams.Keeper.Claim | crates/openwave-runtime/src/mixer.rs:2113-2133 | The same for one source; a trip that begins here begins where the stream was, and is told of exactly if no move of the stream was refused |
| Streams.Keeper.Pass | crates/openwave-runtime/src/mixer.rs:1959-2258 | Sinks are provided from what this observation proves. For every stream, where it plays after the pass: in the intake that claims it unless refused, where it was if it is no concern of ours or the routes ended the pass before its turn, else home or held with its record; every move has one of these reasons. Only unwanted sinks are taken away and only our own, each given up was absent at some instant, and an unknown graph changes nothing |
| Streams.Keeper.Reconcile | crates/openwave-runtime/src/mixer.rs:1959-2258 | The same for a server it knows, for a pass that the barrier ends, one that a failing route ends after the claims, and a whole one; no error means that nothing unwanted is left |
| Streams.Keeper.Conduct | crates/openwave-runtime/src/mixer.rs:2098-2133 | The part of a pass that moves streams, stated for every stream there is |
| Streams.Keeper.Run | crates/openwave-runtime/src/mixer.rs:1038-1102 | Over any run of new mixes and passes, whatever the world has done by each observation, each pass deals with every stream by those rules, an intake is used exactly when the observation proves it to be ours, what is on record is exactly what can be known of the displacements that took effect, every module unloaded was loaded before under that name, owner token and number, and every node destroyed bore the definition of a mix that was asked for |
| StreamPasses.Conserved | crates/openwave-runtime/src/mixer.rs:2119-2126 | Over any such run a stream that was displaced, and reported so, stays on record with its first origin through however many intakes, until a pass ends with it off the intakes or on another server |
| StreamPasses.LeftBehind | crates/openwave-runtime/src/mixer.rs:2267-2299 | After a pass without trouble an unclaimed stream is still on an intake exactly when that intake is kept and the stream is not on record; otherwise it is home |
| StreamServers.RecordedFirst | crates/openwave-runtime/src/mixer.rs:2119-2126 | A displaced stream is on record with its first origin exactly when the move that first displaced it reported success, or when it came from no output and a later move reported success |
| StreamServers.MisreportedMove | crates/openwave-runtime/src/mixer.rs:2119-2130 | The input at which the record fails: a move that took effect and was reported as failed, and then one into another intake, leave the stream on record as coming from nowhere |
| StreamServers.StreamServer.MoveStream | crates/openwave-runtime/src/mixer.rs:634-642 | A move may take effect and be reported as failed; the displacement is as it took effect, and the record follows the report alone |
| Streams.Keeper.CleanupSinks | crates/openwave-runtime/src/mixer.rs:2387-2476 | Sinks still wanted stay as they are; every command is an unload of a module whose owner, number and server are those of the handle, or the destruction of the node on record; each sink given up was absent at some instant since the call; Ok(0) means that nothing unwanted is left |
| Streams.Keeper.UnloadOne | crates/openwave-runtime/src/mixer.rs:2439-2474 | A sink is given up exactly when the observation just made shows it absent, or shows owner, module and server of the handle with no stream playing and the unload succeeded; otherwise no command goes out |
| Streams.Keeper.UnloadStale | crates/openwave-runtime/src/mixer.rs:2433-2476 | The loop over the sinks nobody wants |
| Streams.Keeper.DestroyOne | crates/openwave-runtime/src/mixer.rs:2399-2431 | A persistent sink is given up exactly when the observation just made shows it absent, or shows the identity and definition on record with no stream playing and the destruction succeeded; otherwise no command goes out |
| Streams.Keeper.CleanupPersistent | crates/openwave-runtime/src/mixer.rs:2393-2432 | Of the sinks of removed mixes only those on record as such, and not wanted again, are destroyed, and evidence is forgotten only of those |
| Streams.Keeper.FreshCleanupGraph | crates/openwave-runtime/src/mixer.rs:2359-2386 | Cleanup sees a whole observation of the server it knows, or fails |
| Streams.Keeper.EnsureSink | crates/openwave-runtime/src/mixer.rs:1380-1452 | A sink may be used if and only if it is provably ours or its stamp is the definition we would write; a load goes out exactly when the name is free and ours was missing from three observations, if it ever was; what becomes of the handle, its count of absences and the evidence is exact |
| Streams.Keeper.EnsureAll | crates/openwave-runtime/src/mixer.rs:1978-1990 | Over all mixes and intakes: what is usable, what becomes of each handle and which loads go out, each once and in order, is decided by the tables as they stood before |
| Streams.Keeper.Update | crates/openwave-runtime/src/mixer.rs:1203-1215 | The evidence for sinks of mixes that are gone is up for removal, and stays accounted for |
| StreamSinks.FurnishedMore | crates/openwave-runtime/src/mixer.rs:1380-1452 | The step behind it: one more sink leaves what was settled for the others as it was |
| StreamSinks.ReadyIsProven | crates/openwave-runtime/src/mixer.rs:1380-1452 | Whatever may be used is in the very observation the module loaded under that name, or the node on record with its definition |
| StreamSinks.IntakeGrounded | crates/openwave-runtime/src/mixer.rs:2105-2112 | An intake may be used if and only if its node is the module on record, on this server, and Pulse has it |
| StreamSinks.FurnishedLog | crates/openwave-runtime/src/mixer.rs:1380-1452 | Providing sinks leaves every handle with its load on the log and every evidence with a definition that was asked for |
| StreamSinks.CleanedLog | crates/openwave-runtime/src/mixer.rs:2387-2476 | Cleanup adds to the log only unloads of modules loaded before and destructions of definitions asked for |
| Streams.Keeper.Teardown | crates/openwave-runtime/src/mixer.rs:2578-2646 | Ok leaves no routes, effects, owned sinks or moved streams, and every helper there was has ended; each sink given up was absent from the server at some instant since the call, only modules of ours were unloaded and no persistent sink was destroyed |
| Streams.Keeper.ObserveCookie | crates/openwave-runtime/src/mixer.rs:1365-1379 | Sinks, records and displacements of another server are forgotten, all of them, only once every helper has ended; if one has not, nothing is forgotten |
| CaptureIntents.Mixer.Work | crates/openwave-runtime/src/mixer.rs:1038-1102 | From any state and under any interference of other threads, every intent ever made is outstanding, or the log holds what ends it: a later intent of that name, a later desired state without its binding, a later stop, or a snapshot taken after it was made and after a command of its value to one capture succeeded, showing that value on that capture |
| CaptureIntents.NewerStays | crates/openwave-runtime/src/mixer.rs:1501-1517 | An intent made after the last snapshot, such as one toggled away and back while a command was under way, is not discharged by it |
| CaptureIntents.Mixer.SetDesired | crates/openwave-runtime/src/mixer.rs:791-835 | Accepted exactly when not stopped, not stale and every binding names the device sources of its capture; exactly the intents whose binding went are dropped |
| CaptureIntents.Mixer.SetCaptureMute | crates/openwave-runtime/src/mixer.rs:836-867 | Accepted exactly for the current binding; replaces the intent of that name, unwritten |
| CaptureIntents.Mixer.Stop | crates/openwave-runtime/src/mixer.rs:872-885 | No intent is left, and the stop is what ended each |
| CaptureIntents.Mixer.Discharge | crates/openwave-runtime/src/mixer.rs:1501-1517 | An intent leaves as confirmed only if it is still the one picked, its mark rests on a command that succeeded, and the snapshot taken after both shows its value on that very capture |
| CaptureIntents.Mixer.MarkWritten | crates/openwave-runtime/src/mixer.rs:1524-1539 | Only a command on record as successful, of that value to that capture, marks an intent, and only one that still asks for the value under that binding |
| CaptureIntents.Mixer.SyncOne | crates/openwave-runtime/src/mixer.rs:1467-1542 | Exactly one command goes to the only capture of that name unless it was written and is shown; the shown value is withdrawn exactly when a command went out; other threads run before, during and after it |
| CaptureIntents.Mixer.SyncCaptureMutes | crates/openwave-runtime/src/mixer.rs:1453-1544 | At most one command to each name, no snapshot is taken meanwhile, and of what the snapshot showed exactly the captures commanded become unknown |
| CaptureIntents.Mixer.Publish | crates/openwave-runtime/src/mixer.rs:1271-1284 | No published observation shows a known mute for a capture with an outstanding intent |
| CaptureIntents.Mixer.Cycle | crates/openwave-runtime/src/mixer.rs:1216-1329 | Each cycle publishes one observation; of an unknown graph, or after an incomplete cleanup, no mute at all; and no known mute of a capture that was commanded in it |
| HealthRuns.CaptureRateBound | crates/openwave-core/src/health.rs:134-183 | For nondecreasing check times any max_attempts + 1 consecutive card cycles of one name span at least clean_refill, and two in a row are at least min(cooldown, clean_refill) apart |
| HealthRuns.SinkRateBound | crates/openwave-core/src/health.rs:242-310 | Sink attempts in a row are at least cooldown apart, and among max_attempts + 1 of them the sink advanced for clean_refill consecutive checks |
| HealthRuns.RefillNeedsEvidence | crates/openwave-core/src/health.rs:344-399 | A spent capture budget returns to zero only at the end of an unbroken run of checks, spanning clean_refill, in each of which the name was seen running, unmuted, on one node, with fresh bytes and a small xrun delta from a baseline |
| HealthRuns.RunBudgeted | crates/openwave-core/src/health.rs:134-183 | The invariant behind the rate bound: the budget counts the attempts since the last refill, which lies a clean interval after the attempt before it |
| HealthRuns.ShippedCaptureBudget | crates/openwave-core/src/health.rs:99-125 | With the shipped constants a card is never cycled twice within a minute nor three times within five |
| HealthRuns.SomeSpaced | crates/openwave-core/src/health.rs:134-183 | Attempts that issued no command do not bring those that did closer together |
| HealthRuns.SomeSinkSpaced | crates/openwave-core/src/health.rs:242-310 | The same for sinks, evidence included |
| HealthWatches.HealthWatch.Observe | crates/openwave-core/src/health.rs:433-479 | A whole check is one check of every name there is, each by itself, absence and collector failure counting as an unknown sample; whatever is being timed or compared is tracked |
| HealthWatches.CaptureWatch.Observe | crates/openwave-core/src/health.rs:344-399 | The three tables of one name move together as the policy for one check says, and no other name changes |
| HealthWatches.CaptureWatch.RecordAttempt | crates/openwave-core/src/health.rs:400-404 | An attempt spends the budget, ends the clean interval and drops the baseline, for that name only |
| HealthWatches.StallWatch.RecordRecovered | crates/openwave-core/src/health.rs:170-183 | A clean interval runs on for the same node and restarts for another; only its end refills |
| HealthWatches.GlitchWatch.Observe | crates/openwave-core/src/health.rs:49-73 | A delta is taken only from a baseline of the same node that did not go back |
| HealthWatches.SinkStallWatch.Observe | crates/openwave-core/src/health.rs:242-285 | A stall is an xrun or a pointer that did not move on the same node; only advancing checks count as clean |
| HealthMonitoring.CheckOnce | crates/openwave-runtime/src/health.rs:192-255 | Every name is checked; the commands issued are at most one remedy for each due name that spent its budget, at this time, each for the node on which the name was seen, and none with a debt or with recovery off; all due names have theirs unless cancelled, left owing or an error is reported |
| HealthMonitoring.CycleCards | crates/openwave-runtime/src/health.rs:212-235 | At most one card remedy for each due capture, for the node it was seen on, and no other command; every due one is tried unless cancelled or left owing, and without an error each of those had its remedy |
| HealthMonitoring.RecycleSinks | crates/openwave-runtime/src/health.rs:236-253 | The same for stalled sinks |
| HealthMonitoring.Work | crates/openwave-runtime/src/health.rs:279-303 | For any name the remedies among the commands issued over any run of the monitor keep to the rate bounds, card cycles and sink suspensions alike, and with recovery off there are none |
| HealthMonitoring.HealthMonitor.Stop | crates/openwave-runtime/src/health.rs:312-331 | Ok only with nothing owed or disturbed; a failure keeps the owner of the debt unless the worker panicked; no remedy is issued |
| HealthMonitoring.HealthMonitor.StopUntilRestored | crates/openwave-runtime/src/health.rs:335-345 | Returns Ok only with nothing disturbed, and gives up an owner never |
| Recovery.Restoration.CycleCardWith | crates/openwave-runtime/src/recovery.rs:339-362 | Nothing starts while a restoration is owed; the obligation is on record before the command; whatever card is cycled is the one that the observations show for the node of this name and identity; Ok means exactly one remedy and its restoration were issued, in that order |
| Recovery.Restoration.RecycleSinkWith | crates/openwave-runtime/src/recovery.rs:372-395 | The same for suspending a sink, which is exactly the one named and shown |
| Recovery.Restoration.RestoreWith | crates/openwave-runtime/src/recovery.rs:305-319 | Only the recorded identity, shown by an observation just made, discharges the debt; a failure changes nothing |
| Recovery.Restoration.Undertake | crates/openwave-runtime/src/recovery.rs:352-362 | The remedy is issued with itself on record, for the target that the observations show for the name and node that caused it, and whatever it reports is then restored or stays owed |
| Recovery.OneDisturbed | crates/openwave-runtime/src/recovery.rs:288-336 | In a disciplined history at most one target is disturbed at any instant |
| Recovery.ResolveCard | crates/openwave-runtime/src/recovery.rs:194-243 | The card is that of the node of this name and identity as the observations show it, unique by index and by name, with an active profile; a command to it is licensed by the very observations |
| Recovery.ValidateSink | crates/openwave-runtime/src/recovery.rs:168-186 | Both graphs show this node under this name |
| DeviceWorkers.Unit.ExactlyOnce | crates/openwave-runtime/src/device.rs:932-1064 | When a worker ends, its completions are the accepted jobs, each once, in submission order: successes, at most one failure, then cancellations; Connected precedes them and Retired is last |
| DeviceWorkers.CompletionsShaped | crates/openwave-runtime/src/device.rs:932-1064 | Any event sequence the worker can emit has its completions in that shape |
| DeviceWorkers.ConnectedFirstRetiredLast | crates/openwave-runtime/src/device.rs:949-1062 | Connected comes before any observation or completion and nothing follows Retired |
| DeviceWorkers.Unit.Interleave | crates/openwave-runtime/src/device.rs:932-1064 | Any interleaving of worker steps with submitters and retirement conserves accepted jobs |
| DeviceWorkers.Unit.Submit | crates/openwave-runtime/src/device.rs:861-869 | Accepted exactly while ready and not retiring, and queued last |
| DeviceWorkers.Unit.Take | crates/openwave-runtime/src/device.rs:966-993 | Retirement ends the loop, a due poll goes before any job, and jobs leave in order |
| DeviceWorkers.Unit.Applied | crates/openwave-runtime/src/device.rs:994-1011 | A job gets its completion at once; a failed one retires the unit |
| DeviceWorkers.Unit.Polled | crates/openwave-runtime/src/device.rs:1012-1029 | Three failed polls in a row retire the unit, a success starts the count anew |
| DeviceWorkers.Unit.Finish | crates/openwave-runtime/src/device.rs:1044-1063 | The error, if any, and Retired come after the last cancellation |
| DeviceDiscovery.DeviceManager.OneWorkerPerAddress | crates/openwave-runtime/src/device.rs:1112-1148 | At most one running worker per profile, bus and address |
| DeviceDiscovery.DeviceManager.Submit | crates/openwave-runtime/src/device.rs:842-870 | Every error in its order; an accepted job goes to the very incarnation named, its settings already bounded to the profile |
| DeviceDiscovery.DeviceManager.Scan | crates/openwave-runtime/src/device.rs:1098-1164 | Units off the bus are unplugged and retired; an address gets a worker only if it was found, is not suppressed and has none registered; suppression ends when the address empties |
| DeviceDiscovery.DeviceManager.Reap | crates/openwave-runtime/src/device.rs:1076-1094 | Only ended workers are removed; an unresponsive one that was not unplugged suppresses its address |
| DeviceDiscovery.DeviceManager.Stop | crates/openwave-runtime/src/device.rs:883-889 | After a stop every registered unit refuses work |
| Protocol.PatchReads | crates/openwave-core/src/protocol.rs:126-200 | A patched config reads as before but for the field set, which reads as the value the blocks can hold |
| Protocol.PatchKeepsOtherBits | crates/openwave-core/src/protocol.rs:159-200 | Reserved bits and those of every other setting stay as they were, on every profile |
| Protocol.PatchesCommute | crates/openwave-core/src/protocol.rs:159-200 | Settings on different fields can be applied in either order |
| Protocol.LastPatchWins | crates/openwave-core/src/protocol.rs:159-200 | On one field the last setting wins, bit for bit |
| Protocol.HeldNear | crates/openwave-core/src/protocol.rs:172-186 | A headphone level is held in [db, db + 1/256) on legacy profiles and within 1/8 dB on the Dock |
| Protocol.HeldAgain | crates/openwave-core/src/protocol.rs:172-186 | A level read back is held as it is |
| Protocol.ValidateAdmits | crates/openwave-core/src/protocol.rs:209-235 | Validation refuses exactly unsupported features and non-finite levels, and is idle on what it returns |
| ConfigBuffers.ReplayReads | crates/openwave-core/src/protocol.rs:159-200 | After any list of accepted settings each field reads as the last one for it, or as before |
| ConfigBuffers.ReplayKeepsOtherBits | crates/openwave-core/src/protocol.rs:159-200 | ... and every bit that no applied setting owns is unchanged |
| ConfigBuffers.ConfigBuffer.Apply | crates/openwave-core/src/protocol.rs:159-206 | The in-place patch equals the patch on values, and a refused setting changes no byte |
| ConfigBuffers.DecodesBack | crates/openwave-core/src/protocol.rs:67-124 | Decoding the emitted blocks gives back the very same config |
| ConfigBuffers.DifferingSuffice | crates/openwave-runtime/src/device.rs:307-324 | Writing just the blocks that differ turns one config into the other |
| VendorDevices.VendorDevice.WriteChanges | crates/openwave-runtime/src/device.rs:307-324 | On success exactly the differing blocks were written, in order; on failure a prefix of them; another profile is refused before any transfer |
| VendorDevices.VendorDevice.ReadConfig | crates/openwave-runtime/src/device.rs:269-281 | A config is what the hardware holds; a short read never becomes one |
| VendorDevices.VendorDevice.WriteConfigRaw | crates/openwave-runtime/src/device.rs:251-268 | A wrong length is refused before any transfer; success stores exactly these bytes |
| Mirrors.HpRoundTrip | crates/openwave-core/src/protocol.rs:315-323 | fw_hp_to_alsa(alsa_hp_to_fw(v)) = v on 0..120 |
| Mirrors.ReadsBack | crates/openwave-runtime/src/device.rs:399-411 | An ALSA edit is always an accepted setting, lands on its own field only and comes back as the same ALSA value |
| Mirrors.Mirror.Observe | crates/openwave-runtime/src/device.rs:568-638 | Per field: intent is pushed until confirmed, nothing is read back while any is owed, only a due read of an edited control may change the firmware; a failed discovery owes all images and touches nothing |
| Mirrors.Mirror.SyncField | crates/openwave-runtime/src/device.rs:601-636 | The same for one field, every other field untouched |
| SyncedDevices.SyncedDevice.Poll | crates/openwave-runtime/src/device.rs:672-686 | Unless a write failed, every unconfirmed value is the ALSA image of the firmware last committed; a field with unconfirmed intent keeps its firmware value; in good health one due poll brings agreement and a poll in agreement writes nothing |
| SyncedDevices.SyncedDevice.PollTwice | crates/openwave-runtime/src/device.rs:672-686 | Two due polls without outside edits reach agreement, the second without any write |
| SyncedDevices.FaithfulAfter | crates/openwave-runtime/src/device.rs:568-655 | The invariant behind it: pending values are images of the last committed firmware |
| SyncedDevices.Settles | crates/openwave-runtime/src/device.rs:568-638 | A healthy due round leaves firmware and ALSA agreed on every mirrored field |
| SyncedDevices.SyncedDevice.Apply | crates/openwave-runtime/src/device.rs:687-708 | Nothing is transferred unless all settings are valid; success leaves the hardware as the replay of the validated settings, the Dock getting just the blocks that differ |
| SyncedDevices.SoundAfterJob | crates/openwave-runtime/src/device.rs:639-655 | A job keeps the mirror invariant if and only if no other field with unconfirmed intent moved |
| SyncedDevices.OwedAfterJob | crates/openwave-runtime/src/device.rs:639-655 | After a job the next poll owes exactly what was owed before and the fields the job set |
| SyncedDevices.SyncedDevice.JobThenPoll | crates/openwave-runtime/src/device.rs:672-708 | After a job and a poll in good health a field the job did not set is as the hardware had it before the job exactly if it was owed, no read is due, or ALSA showed it already; otherwise the older value of ALSA has replaced it |
| SyncedDevices.KnobLost | crates/openwave-runtime/src/device.rs:687-708 | The input at which the mirror loses an edit: the headphone knob is turned from -30 dB to -20 dB, a job sets the mute before any poll, and the next due poll puts the level back to -30 dB |
| SyncedDevices.StaleIntent | crates/openwave-runtime/src/device.rs:639-655 | The input at which a job breaks the mirror invariant: an owed headphone level, a turn of the knob and a job for the mute leave the old level owed |
| Matcher.NormalizedMatcher.Owner | crates/openwave-core/src/routing.rs:82-88 | The owner is the least source binding the first of the four names that any App source binds, else the least catch-all |
| Matcher.OwnerUnique | crates/openwave-core/src/routing.rs:48-88 | The rule has one answer, whatever the order of the sources |
| Matcher.NormalizedMatcher.constructor | crates/openwave-core/src/routing.rs:50-80 | The index built by the loops holds the least binder of every bound name and the least catch-all |
| Matcher.NormalizedMatcher.Claim | crates/openwave-core/src/routing.rs:90-112 | Every source gets a list, and the owner is always one of them |
| Matcher.ClaimsAreSightings | crates/openwave-core/src/routing.rs:90-112 | A list is exactly the first sightings of the streams the source owns, in first-seen order |
| Matcher.ClaimedOnce | crates/openwave-core/src/routing.rs:90-112 | No stream is claimed twice or by two sources |
| Matcher.OwnedIsClaimed | crates/openwave-core/src/routing.rs:90-112 | Every stream with an owner is claimed |
| Outputs.ResolveIs | crates/openwave-core/src/routing.rs:250-317 | What is monitored is an eligible output that its name names alone; an explicit choice never falls back |
| Outputs.AutomaticPicks | crates/openwave-core/src/routing.rs:250-317 | Automatic takes the preferred Wave sink, else the least-named Wave sink, else the default, else the least-named of the highest priority |
| Groups.SetSourceMuted | crates/openwave-core/src/routing.rs:326-357 | The changes are exactly the differences, each once, all silences before the opening; exclusivity is kept; an unknown source changes nothing |
| Groups.SwitchGroup | crates/openwave-core/src/routing.rs:375-394 | A switch happens exactly for a named group of two or more and opens the member after the first open one |
| Groups.SwitchOpensOne | crates/openwave-core/src/routing.rs:375-394 | After a switch that member is the only one open |
| Groups.RoundTheGroup | crates/openwave-core/src/routing.rs:375-394 | k switches of n members make member (i + k) mod n the sole open one, or member (k - 1) mod n from all muted |
| DesktopEntry.ExecRoundTrip | crates/openwave-runtime/src/desktop.rs:16-61 | For every string without control characters the Exec key decodes, through both escape layers, to exactly the program and its option |
| DesktopEntry.RenderedReadsBack | crates/openwave-runtime/src/desktop.rs:246-283 | The entry written for any such path reads back as enabled, and hidden exactly as asked (or when the program is itself called --hide) |
| DesktopEntry.ExecArg | crates/openwave-runtime/src/desktop.rs:16-34 | The scanning loop builds the quoted text, and refuses control characters |
| DesktopEntry.DecodeExec | crates/openwave-runtime/src/desktop.rs:35-61 | The scanning loop equals the decoder used in the round trip, errors included |
| DesktopEntry.Values | crates/openwave-runtime/src/desktop.rs:62-93 | The line loop equals its specification: one section, no duplicate key, comments and other sections ignored |
| DesktopEntry.ReadEntries | crates/openwave-runtime/src/desktop.rs:62-93 | Entries under distinct keys are read back, each with its own value |
| Quoting.SystemdRoundTrip | crates/openwave-runtime/src/service.rs:256-265 | For every string, splitting the quoted text and collapsing the doubled signs gives back exactly that one argument |
| Quoting.SplitWords | crates/openwave-runtime/src/service.rs:178-218 | The loop equals the word splitter used in the round trips, errors included |
| Quoting.QuotedWord | crates/openwave-runtime/src/service.rs:178-218 | A string quoted piece by piece inside double quotes reads as one word |
| Quoting.CollapsePercent | crates/openwave-runtime/src/service.rs:433-440 | Collapsing undoes the doubling of percent signs between doubled dollars |
| Rpm.QueryOwner | crates/openwave-runtime/src/installation.rs:215-265 | It answers if and only if the query succeeded without a diagnostic and the bytes are a list of proper entries, and the answer is membership of a probe |
| Rpm.ParsesEncoded | crates/openwave-runtime/src/installation.rs:230-264 | Whatever was encoded is what is parsed |
| Rpm.ParsedIsEncoded | crates/openwave-runtime/src/installation.rs:230-264 | Whatever is parsed was encoded: nothing malformed is accepted |
| Rpm.UniqueReading | crates/openwave-runtime/src/installation.rs:207-265 | An answer has one reading |
| Rpm.ScanBody | crates/openwave-runtime/src/installation.rs:242-256 | The inner loop equals the specification of a quoted path |
| Decimal.RoundTenthNearest | crates/openwave-core/src/calibration.rs:196-214 | For every double in [-140, 140] the result is the exact binary value rounded to tenths, ties to even |
| Decimal.RoundTenthReal | crates/openwave-core/src/calibration.rs:196-214 | The same stated over reals |
| Decimal.ExponentInRange | crates/openwave-core/src/calibration.rs:196-214 | In range every normal exponent is at most -45, so the shift is positive and below 128 and no 128-bit step overflows |
| Calibration.OrderIndependent | crates/openwave-core/src/calibration.rs:216-294 | The outcome, refusals included, does not depend on the order of the samples |
| Calibration.AnalysisSound | crates/openwave-core/src/calibration.rs:216-294 | Every accepted analysis has quiet <= loud, floor + 4.95 <= gate <= quiet - 9.95, gate in [-70, -20] and compressor threshold in [-30, -6.1] |
| Calibration.RoundTenthKeeps | crates/openwave-core/src/calibration.rs:196-214 | Rounding keeps order and every bound that is a whole number of tenths |
| Calibration.PercentileGrows | crates/openwave-core/src/calibration.rs:189-191 | The order statistic grows with the percentage and is one of the values |
| Stored.Stored.Replace | crates/openwave-runtime/src/store.rs:149-152 | After a success a reload decodes exactly the kept value; a failure changes nothing; a read-only store always refuses |
| Stored.Stored.constructor | crates/openwave-runtime/src/store.rs:71-107 | A file that cannot be read, decoded or seeded leaves the fallback, read-only, and is not written |
| Stored.Stored.Prepare | crates/openwave-runtime/src/store.rs:132-140 | What is prepared is the value as a reload would see it |
| Stored.Stored.Publish | crates/openwave-runtime/src/store.rs:141-148 | File and kept value change together or not at all |
| ConfigStores.ConfigStore.Load | crates/openwave-runtime/src/store.rs:163-201 | All five stores keep the reload law from the start; a file that decodes is what its store holds, and one that cannot be read or decoded stays as it is, read-only |
| ConfigStores.DefaultsReload | crates/openwave-core/src/model.rs:555-592 | The seeded default mixes reload as they are |
| ConfigStores.ConfigStore.DesiredMixes | crates/openwave-runtime/src/store.rs:205-216 | An unreadable store yields no mixes, a readable one exactly what its file decodes to, each mix with a proper sink of its own |
| MatrixStore.MatrixLaw | crates/openwave-core/src/model.rs:315-361 | A matrix that was ever loaded reloads as it is |
| MatrixStore.LegacyOutput | crates/openwave-core/src/model.rs:315-330 | Reading a file with the single output of old versions is reading that file with the output moved to the personal mix, unless that has its own, errors included; written again it has no trace of the old form |
| MatrixStore.MatrixGood | crates/openwave-core/src/model.rs:315-350 | Loaded levels are in 0..1, keys are stable identifiers or cells, and nothing reserved is left among the extras |
| SourceStore.SourceLaw | crates/openwave-core/src/model.rs:449-514 | Sources that were ever loaded reload as they are |
| SourceStore.LoadedExclusive | crates/openwave-core/src/model.rs:449-514 | Whatever was stored, at most one member of a nonempty group comes up open |
| SourceStore.FirstStaysOpen | crates/openwave-core/src/model.rs:486-492 | Only mutes are changed: a source stays open exactly when it was stored open and none before it in its group was |
| SourceStore.NormalizeSources | crates/openwave-core/src/model.rs:449-514 | The loop with its set of open groups equals the specification |
| SourceStore.BindingsNormal | crates/openwave-core/src/model.rs:435-448 | Bindings come out trimmed, nonempty and distinct, and are exactly the nonempty trimmed names given |
| SourceStore.SourceBack | crates/openwave-core/src/model.rs:449-512 | One good source survives encoding, whatever its extra members |
| SourceStore.LegacySource | crates/openwave-core/src/model.rs:463-471 | Reading a source with the single binding of old versions is reading it with that binding in a list, errors included |
| MixStore.MixLaw | crates/openwave-core/src/model.rs:515-554 | Mixes that were ever loaded reload as they are |
| MixStore.LoadedGood | crates/openwave-core/src/model.rs:515-554 | Every loaded mix has a sink of its own under our prefix and outside the reserved names |
| MixStore.NormalizeMixes | crates/openwave-core/src/model.rs:515-554 | The loop with its set of sinks equals the specification |
| PreferenceStore.PreferenceLaw | crates/openwave-core/src/model.rs:619-650 | Preferences that were ever loaded reload as they are |
| SceneStore.SceneLaw | crates/openwave-core/src/scenes.rs:322-341 | Scenes that were ever loaded reload as they are |
| SceneStore.SceneGood | crates/openwave-core/src/scenes.rs:271-310 | A decoded scene is one that validation accepts |
| SceneStore.SectionBack | crates/openwave-core/src/scenes.rs:230-243 | A section survives encoding, absent and empty ones apart |
| FxCodec.FxBack | crates/openwave-core/src/effects.rs:47-122 | Validated effect settings survive encoding |
| FxCodec.FxGood | crates/openwave-core/src/effects.rs:100-122 | Whatever is decoded is in range |

## Left out

- HealthMonitoring.HealthMonitor.StopUntilRestored: the source retries for ever; the model bounds the retries by `patience`, since a loop that may never end has no termination proof.
- AudioServer.Server.Link: ports, channel positions and single links are one flag, set as soon as any link of a loopback may exist; which ports are joined is not modelled.
- Reconciler.Reconciler.Cycle: masters, effect chains, definitions and meters are inputs of a pass (`Findings`), not computed.
- Reconciler.Reconciler.Iterate: the deadlines of an owed verification pass are booleans of each turn.
- Streams.Keeper.Pass: route helpers and effects are bare process handles here; their graph side is in `Reconciler`, and how far it lets the pass get is an input (`Course`), as is Pulse's own list of sinks.
- Streams.Keeper.Teardown: no promise about where streams play after the last snapshot, because the world moves on.
- Streams.Keeper.Run: nobody else moves a stream or takes a sink away between an observation and the commands that rest on it; all that happens in between is taken up at the next observation.
- StreamPasses.Conserved: streams that other clients move while no observation is made are followed only from the next one.
- CaptureIntents.Mixer.Stop: joining the worker and its cleanup are in `Streams.Keeper.Teardown`.
- SyncedDevices.SyncedDevice.Poll: after a poll whose USB write failed nothing is promised about unconfirmed values, because pending values were already set from a state that was not committed.
- DeviceDiscovery.DeviceManager.Scan: the order in which new addresses get their incarnation numbers (sorting) is not modelled.
- DeviceWorkers.Unit.Interleave: poisoned mutexes and panicking workers are not modelled.
- Decimal.RoundTenthNearest: the final division of the whole number of tenths by ten, back to a double, is not modelled.
- Calibration.AnalysisSound: sums and products are exact; the rounding of `floor + 10`, `n * 0.1` and the like in doubles is not modelled, and the library's sort is its specification.
- Decimal.RoundTenthReal: the same last division is left out.
- Matcher.NormalizedMatcher.constructor: whitespace and case folding of names are a parameter.
- MatrixStore.MatrixLaw: JSON text and float printing are left out; JSON objects compare without order, except where sources and mixes depend on it.
- SourceStore.SourceLaw: numbers stored as text are parsed by a parameter.
- Stored.Stored.constructor: permissions, atomic renames and temporary files are one step that may fail.
- Mirrors.Card.Write: control discovery by parsing tool output is a nondeterministic set of controls.
- Installation, service and desktop file operations, ownership checks on paths and package managers other than RPM: effects of the operating system.
- Scene recall and hardware resolution (`pick_hardware_entry`, `resolve_hardware`): selection rules over lists, easier than what is here.
- Meters, diagnostics, PCM peaks, tone analysis and DSP rendering: transcendental floats and string building.
- The GTK interface, tray and D-Bus actions: presentation.
