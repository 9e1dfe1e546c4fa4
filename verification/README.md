# The field, proved

A Dafny model of the practice field's server: who drives which robot and what
the kernel is told about it, the match engine that enables and stops robots,
the bytes exchanged with Driver Stations, and the indexes and limits around
them. Each component is a module of pure functions that say what an operation
does, a class or methods that do it the way the program does (fields updated in
place, loops, cursors) and are proved to compute those functions, and theorems
about the functions over all inputs and all runs.

| files | component |
|---|---|
| `Field.dfy` | slots, alliances, teams, robot names |
| `DriveState`, `DriveSessions` | drive sessions: on values, and the class |
| `DriveOwnership`, `DriveReconciler`, `DriveRuns`, `DriveTheorems`, `DriveEffects` | who may drive what; the reconciler under every interleaving; the theorems; what each input does |
| `EngineState`, `MatchEngine` | the match engine: on values, and the class |
| `EngineSafety`, `EngineMark`, `EngineClock`, `EngineStops`, `EngineRuns` | enable rule, coming out of an e-stop, the clock, stops out of a match, runs from the start |
| `EngineEffects`, `EngineLive`, `EngineRace`, `EngineCourse` | what each press, tick and report does, and what that adds up to over runs |
| `Buffers`, `Framer`, `TcpMessages`, `UdpStatus`, `UdpPackets`, `DsPacket` | byte cursors, TCP frames and messages, UDP status, control packets |
| `DnsNames`, `DnsReplies`, `PrefixMask`, `OnLink` | DNS names and replies, prefix arithmetic, IPv6 text |
| `Timeline`, `MatchQueue`, `QueueEffects`, `Leaderboard`, `LoginLimiter` | replayed match time, the queue and line, rankings, login limits |

## How runs are modelled

Drive sessions: every public method is a step, and every `await` of a sync pass
is a point where any other step may run. A pass is a state of its own (stage,
what is left to do, whether all went well), so a run is any interleaving of
inputs with single effects of a pass, each of which succeeds or fails. The
radio's config changes together with `configChanged`, as the wiring does it;
the clock moves between steps; a route may also be changed by somebody else at
any time. The kernel is two multisets of rules and a table of routes.

Match engine: every operation, timer and Driver Station report is a step in any
order. Intervals are counted: the one the engine holds, and those it has lost
hold of. Time is real-valued; ticks arrive at any monotone times.

Every public method of a class ensures that its whole view afterwards is the
model's function of the view before; its row below says what that function
does. The theorems are about those functions; `MatchEngine.Handle` and the
class invariants tie them to the objects. What a function does is also said
without it, in terms of what can be seen before and after: who drives, who is
enabled, which bytes were sent, which place in a list.

## What the proofs turned up

- A restart adopts kernel rules without checking that they name different
  laptops, or that no block rule was found twice. The ownership and exactness
  theorems hold after a restart exactly when they do (`RestartIff`).
- `createMatch` during the post-match count leaves the old interval running and
  `startMatch` then loses hold of it; naming the winner twice while the match
  waits for one does the same. These are the only two ways, and a tick
  reaches a paused match exactly if an interval has leaked.
- A robot that came out of its e-stop stays down until Enable is pressed for it,
  unless a step overwrites its mark. A driver's own disable is such a step: the
  next pause and resume then enables the robot with nobody having pressed
  Enable (`ComesBackUnasked` is such a run, from the start of the engine).
- A leaked interval takes its time from a paused match: after the resume teleop
  can be below the endgame threshold until the next tick.
- Creating or clearing a match lifts e-stops that still wait for their Driver
  Station to stop (`ResetBypassesWait`).
- The frame decoder leaves its loop when a frame does not parse, so complete
  frames behind it wait for the next chunk. Two cuts of a stream come to the same
  exactly if no complete frame follows one that does not parse; nothing is ever
  lost.
- DNS names round-trip for labels of 1 to 191 bytes, not only up to the 63 of
  section 3.1 of RFC 1035: the decoder takes 64..191 for lengths. Longer or
  empty labels never do.
- A frozen broadcast that differs from the one it replaces in remaining time,
  config or the phase it paused rewrites what the timeline says of the past:
  editing the config during set-up is enough (`SetupEditRewrites`).
- `reorder` loses entries that share an id. `replaceTeam` can put a team in the
  line twice: one that was in a skipped match and has joined the line again.
- Flushing the login table forgets what one address did, but never the overall
  count.
- A game-data tag of more than 254 bytes would write a size that wraps; tags
  come through exactly if they fit.

## Model

| member | source | states |
|---|---|---|
| DriveTheorems.RunKeeps | src/driveSessions.ts:68-540 | in every interleaving of inputs, effects, failures, clock and route changes the whole invariant holds: ownership, engine view, exact records, what a pass still has to do |
| DriveTheorems.RunConverges | src/driveSessions.ts:322-405 | no wake-up is lost: whenever no pass is under way and the last met no failure, kernel and records are exactly what sessions, blocks and config ask for now, and driving laptops are routed, but where somebody else has moved the route since |
| DriveTheorems.RunExact | src/driveSessions.ts:340-435 | at every moment, failures included, the records with their copies are the kernel tables, and the engine has been told precisely who drives the robot on each slot |
| DriveTheorems.PassHasStep | src/driveSessions.ts:322-338 | a pass under way can always go on |
| DriveTheorems.PassEnds | src/driveSessions.ts:322-405 | every step of a pass, failed or not, brings its end nearer, a requested repeat included |
| DriveTheorems.FurtherSyncIsIdle | src/driveSessions.ts:340-405 | once all is as asked for, a further sync touches neither kernel nor records at any of its steps |
| DriveTheorems.WorkExclusive | src/driveSessions.ts:358-391 | putting a rule in never puts a second one on its slot, since drops come first |
| DriveTheorems.RunExclusive | src/driveSessions.ts:358-391 | as long as no effect fails, the kernel never holds two rules for one slot, however passes and inputs interleave |
| DriveTheorems.ActiveDriverStays | src/driveSessions.ts:113-235 | no step takes a robot still on the field from a driver that is not stale, unless that driver acts |
| DriveTheorems.FreshStart | src/driveSessions.ts:103-103 | a first start with empty tables begins inside the invariant |
| DriveTheorems.RestartIff | src/driveSessions.ts:244-258 | a restart does so if and only if the adopted rules name different laptops and no block rule was found twice |
| DriveReconciler.FinishedServes | src/driveSessions.ts:340-405 | a pass that got through its last stage with no failure has put everything it set out to |
| DriveReconciler.WorkFrame | src/driveSessions.ts:358-405 | one effect of a pass, done or failed, checks off its own item and changes neither what is wanted, nor the stage, nor a requested repeat |
| DriveRuns.NextKeeps | src/driveSessions.ts:113-405 | each single step of each kind keeps the invariant |
| DriveRuns.ApplyOk | src/driveSessions.ts:489-493 | telling of a change the way `touch` does keeps a newest pass or a requested repeat responsible for it |
| DriveOwnership.ClaimOwned | src/driveSessions.ts:441-475 | a claim is refused exactly if another laptop actively drives the robot, and then no session changes; granted, only the claimant's own session and the replaced one end; the ownership rules are kept |
| DriveOwnership.DuplicateTestAgrees | src/driveSessions.ts:283-286 | the handshake's duplicate test says yes exactly if a claim would not get the robot |
| DriveOwnership.HeardOwned | src/driveSessions.ts:113-152 | a message keeps the ownership rules, and displaces no active driver but its sender |
| DriveOwnership.DriveOwned | src/driveSessions.ts:156-173 | the Drive button does too |
| DriveOwnership.ConfigChangedOwned | src/driveSessions.ts:176-196 | after a new config every session is of a robot on the field, robots still there keep their driver, the others lose theirs |
| DriveOwnership.DisconnectedOwned | src/driveSessions.ts:204-206 | a closed connection ends no session and keeps the rules |
| DriveOwnership.SweepOwned | src/driveSessions.ts:210-235 | after a sweep no session and no block belongs to a stale laptop, exactly the stale sessions are gone, exactly the live blocks are left |
| DriveOwnership.LiftOwned | src/driveSessions.ts:531-540 | lifting takes off exactly the laptop's blocks on the named robots, and leaves no empty set |
| DriveOwnership.AdoptAllSessions | src/driveSessions.ts:244-258 | the sessions after a restart are exactly the first matching rule of each slot |
| DriveOwnership.RestoreOwnedIffDistinct | src/driveSessions.ts:244-258 | they obey the ownership rules if and only if they name different laptops |
| DriveOwnership.RestoreMayShareALaptop | src/driveSessions.ts:244-258 | two left-over rules for which they do not |
| DriveState.StationFrom | src/driveSessions.ts:495-498 | the slot found holds the robot; none found means no later slot does |
| DriveState.RobotsOfTeam | src/driveSessions.ts:500-507 | every robot listed is on the field and of the team, and every robot of the team on these slots is listed |
| DriveState.InSlotOrder | src/driveSessions.ts:500-507 | they are listed in the order of their slots |
| DriveState.Freshest | src/driveSessions.ts:183-194 | of a team's waiting laptops the one heard last, and none only if none waits |
| DriveEffects.HeardTakesOnlyRobot | src/driveSessions.ts:113-144 | a handshake of a team with one robot on the field: unless another laptop has been heard driving it within twenty seconds, this one drives it from then on, whatever it drove before, is held off nothing, and every other session and every other block of a driven robot is as it was |
| DriveEffects.HeardHeldOffOnlyRobot | src/driveSessions.ts:113-144 | and if another has, that one keeps it, and this one drives nothing and is held off that robot alone |
| DriveEffects.HeardDrivesOn | src/driveSessions.ts:126-132 | a handshake of the team whose robot a laptop drives changes no session |
| DriveEffects.HeardResumes | src/driveSessions.ts:145-152 | a handshake of a team with several robots there, or none, from a laptop driving none of them: it gets back the one it drove last if nobody actively drives that one |
| DriveEffects.HeardGetsNothing | src/driveSessions.ts:133-152 | and drives nothing otherwise, its session of another team ended and its blocks on other teams lifted |
| DriveEffects.HeardNotes | src/driveSessions.ts:113-124 | a handshake leaves the team, the time and the robot now driven on record, and no other record touched |
| DriveEffects.HeardWithoutTeam | src/driveSessions.ts:113-121 | a message without a team number changes the time of a known laptop, and nothing at all for an unknown one |
| DriveEffects.PressTakes | src/driveSessions.ts:156-173 | the Drive button for a robot no other laptop actively drives: the laptop drives it, and only it |
| DriveEffects.PressRefused | src/driveSessions.ts:156-173 | for one that another does: no session changes, and the laptop is held off it unless it drives another |
| DriveEffects.PressStops | src/driveSessions.ts:161-168 | the press to stop: it drives nothing, is held off nothing, and its last robot is forgotten |
| DriveEffects.ConfigArrivals | src/driveSessions.ts:176-196 | under a new config drivers of robots still there stay, a robot without one gets a laptop exactly if it is the only one of its team and a laptop that drives nothing waits, and then the one heard last |
| DriveEffects.ClosedLifts | src/driveSessions.ts:204-206 | a closed connection lifts the laptop's blocks on exactly the robots nobody actively drives |
| DriveEffects.SweepLeaves | src/driveSessions.ts:210-235 | a sweep leaves exactly the sessions of laptops heard within twenty seconds, the blocks of such laptops on robots still driven, and forgets exactly the laptops that have nothing and were last heard ten minutes ago |
| DriveEffects.FlushForgets | src/driveSessions.ts:265-269 | after a flush tables and records of rules are empty and a pass is due; routes and sessions are as they were |
| DriveEffects.KernelFollowsDrivers | src/driveSessions.ts:340-405 | in terms of who drives: after a clean pass a slot's ports lead to a laptop exactly if it drives the robot now there, a laptop is blocked there exactly if it is held off that robot, and drivers are routed there |
| DriveEffects.OneListed | src/driveSessions.ts:500-507 | a team has one robot listed exactly if one robot on the field is its only one |
| DriveEffects.RestoredLive | src/driveSessions.ts:244-258 | every laptop whose rule a restart took up counts as heard then |
| DriveEffects.TeamReads | src/utils.ts:82-86 | the team of "1967" and of "1967-Elsa" is 1967, and so for every number and whatever follows a dash |
| DriveSessions.DriveSessions.Heard | src/driveSessions.ts:113-152 | a message, its loops against the model on the whole state: liveness, placement of a handshake, duplicates held off; the class invariant is kept |
| DriveSessions.DriveSessions.Drive | src/driveSessions.ts:156-173 | the Drive button, its loops against the model: the robot on the slot is claimed, or whatever is driven let go of; the class invariant is kept |
| DriveSessions.DriveSessions.ConfigChanged | src/driveSessions.ts:176-196 | robots that left lose their sessions, arrivals are given to waiting laptops of their team, for some order of departed robots and known laptops |
| DriveSessions.DriveSessions.Disconnected | src/driveSessions.ts:204-206 | its blocks lift on robots nobody is actively driving |
| DriveSessions.DriveSessions.Sweep | src/driveSessions.ts:210-235 | stale sessions and blocks go, forgotten laptops too, and a sync is asked for in any case |
| DriveSessions.DriveSessions.Restore | src/driveSessions.ts:244-258 | rules left in the kernel become sessions and records; the class invariant then holds exactly if the adopted rules name different laptops |
| DriveSessions.DriveSessions.KernelFlushed | src/driveSessions.ts:265-269 | all records of rules are dropped, and a pass puts the sessions' rules back |
| DriveSessions.DriveSessions.LaptopOn | src/driveSessions.ts:274-277 | the driver of the robot on a slot |
| DriveSessions.DriveSessions.IsDuplicate | src/driveSessions.ts:283-286 | the duplicate test of the model |
| DriveSessions.DriveSessions.StationDrivenBy | src/driveSessions.ts:290-294 | the slot of the robot a laptop of that team drives |
| DriveSessions.DriveSessions.Sync | src/driveSessions.ts:322-338 | begins a pass, or has the one under way run once more |
| DriveSessions.DriveSessions.ComputeWant | src/driveSessions.ts:340-357 | the wanted rules are exactly those of the sessions, the blocks and the config |
| DriveSessions.DriveSessions.Resume | src/driveSessions.ts:358-415 | one awaited effect: done and recorded, or failed and left for the next pass |
| DriveSessions.DriveSessions.NextStage | src/driveSessions.ts:358-405 | the loops follow each other as in the model, and a requested repeat starts over from what is wanted by then |
| DriveSessions.DriveSessions.SyncEngine | src/driveSessions.ts:419-435 | the engine is left knowing exactly the drivers of the slots |
| DriveSessions.DriveSessions.Claim | src/driveSessions.ts:441-475 | claims as in the model, and reports whether it was granted |
| DriveSessions.DriveSessions.EndSession | src/driveSessions.ts:477-485 | ends a session and the blocks on its robot |
| DriveSessions.DriveSessions.LiftBlocks | src/driveSessions.ts:531-540 | lifts blocks, telling of it only if there were any |
| EngineSafety.FreshSafe | src/matchEngine.ts:294-362 | a new engine obeys the enable rule |
| EngineSafety.NextSafe | src/matchEngine.ts:499-2412 | no operation, timer or report, in any state, leaves a robot enabled that may not run |
| EngineSafety.RunSafe | src/matchEngine.ts:499-2412 | in every run a robot is enabled only in auto, teleop or endgame, joined, with no stop of its own or of the field, with nobody having disabled it, its alliance not finished, and in a relay only as its alliance's runner, and in the mode of the phase it is in; and with the field stopped no match is active |
| EngineSafety.GoLiveSafe | src/matchEngine.ts:2380-2412 | everyone going live keeps that rule, so no more than the runner of each alliance does in a relay |
| EngineSafety.RelayAdvanceSafe | src/matchEngine.ts:775-802 | so does handing the relay on |
| EngineSafety.UndisableSafe | src/matchEngine.ts:1658-1704 | so does Enable, for whichever reason the robot was down |
| EngineSafety.StatusSafe | src/matchEngine.ts:1716-1814 | so does any report of a Driver Station |
| EngineSafety.TransitionSafe | src/matchEngine.ts:2153-2253 | so does every phase the timer ends |
| EngineMark.OnlyEnableRevives | src/matchEngine.ts:816-837 | in one step a robot that came out of its e-stop is enabled if and only if Enable was pressed for it and honoured, and keeps its mark if and only if the step is none of those that overwrite it |
| EngineMark.OnlyReleasesLift | src/matchEngine.ts:1959-1989 | only a Clear, a new match or clearing the old one lifts an e-stop |
| EngineMark.LiftedIsMarked | src/matchEngine.ts:1959-1982 | a joined station whose e-stop lifts during a match comes out of it disabled and marked |
| EngineMark.StaysDownUntilEnabled | src/matchEngine.ts:1658-1704 | through every later phase, pause and resume it stays so, in every run in which nothing overwrites its mark |
| EngineMark.MarkKeptIff | src/matchEngine.ts:1658-1704 | in every run the mark is there after each step if and only if no step of the run overwrites it |
| EngineMark.NextLeg | src/matchEngine.ts:767-802 | a runner's leg over, the next is another station's, or nobody's after the last |
| EngineMark.SelfDisableLosesMark | src/matchEngine.ts:1629-1651 | disabled by its own team in between, it is enabled by the next pause and resume, without Enable |
| EngineRuns.ComesBackUnasked | src/matchEngine.ts:1629-1651 | a run of ten steps from any fresh engine, in time order and with no press of Enable, at whose sixth step the robot is down and marked and at whose end it is enabled |
| EngineClock.EveryConfigWellTimed | src/matchEngine.ts:125-146 | whatever is asked for, the durations that result are such that every phase has time |
| EngineClock.FreshClocked | src/matchEngine.ts:294-362 | a new engine's clock is in account |
| EngineClock.NextClocked | src/matchEngine.ts:2140-2253 | every step keeps the clock's account, and an interval leaks exactly if a match starts, or its winner is named, while one is held |
| EngineClock.RunClocked | src/matchEngine.ts:1377-1443 | in every run, leaks and pauses included, time played and time left are what was granted and dropped; in runs without a leak each phase also has its boundaries and its time |
| EngineClock.TickKeepsTeleop | src/matchEngine.ts:2140-2253 | after every tick, in whatever state and with whatever leaks, teleop has more than the endgame left |
| EngineClock.RunAboveEndgame | src/matchEngine.ts:2140-2253 | in every run it has at every moment if no interval has leaked, and after each tick if one has |
| EngineClock.LeakedTickDrains | src/matchEngine.ts:1431-1443 | a leaked tick takes its time from a paused teleop, and the resume gives back what is left, however little |
| EngineClock.BoundaryBounded | src/matchEngine.ts:2153-2253 | a phase that runs out drops between nothing and one tick |
| EngineClock.OnlyBuzzerEnds | src/matchEngine.ts:2209-2253 | a tick ends a match only when the last phase has run out |
| EngineClock.TimerEndsOnTime | src/matchEngine.ts:2140-2253 | a match ended by its timer, however often paused, has lasted its nominal time and less than a tick more per boundary, if no interval leaked |
| EngineClock.PausedTicksIffLeaked | src/matchEngine.ts:1377-1397 | a tick can reach a paused match if and only if an interval has leaked |
| EngineClock.PauseFreezes | src/matchEngine.ts:1377-1443 | for as long as a match stays paused, whatever happens on the field, its clock does not change, if none has |
| EngineClock.CreateDuringCountLeaks | src/matchEngine.ts:499-534 | a match created in the post-match count and started leaks the interval of that count |
| EngineClock.SecondWinnerLeaks | src/matchEngine.ts:651-663 | naming the winner twice leaks one |
| EngineStops.RunSettles | src/matchEngine.ts:1872-1909 | after every step of every run exactly the stations e-stopped out of a match are on record, and those waiting are among them |
| EngineStops.WaitsOrEvidence | src/matchEngine.ts:1850-1909 | from the press on the station waits, or its Driver Station was seen to stop at some instant since, with no packet commanding Enabled seen after it |
| EngineStops.ClearNeedsEvidence | src/matchEngine.ts:1819-1837 | a Clear that lifts such an e-stop comes after that evidence |
| EngineStops.WaitingIsNotCleared | src/matchEngine.ts:1477-1487 | no Clear lifts an e-stop that waits |
| EngineStops.ResetBypassesWait | src/matchEngine.ts:2319-2353 | creating or clearing a match lifts it all the same |
| EngineStops.SilenceStays | src/matchEngine.ts:1862-1869 | no step moves the instant from which silence counts as evidence |
| EngineRuns.RestartBegins | src/matchEngine.ts:1497-1522 | a restart begins inside every invariant, whatever stops it takes up |
| EngineRuns.RestoredWaits | src/matchEngine.ts:1497-1522 | each restored stop of a team begins its wait over, from the restart, unless its Driver Station counts as stopped at once |
| EngineRuns.WaitsOn | src/matchEngine.ts:1862-1909 | in every run a stop that waits goes on waiting until there is evidence |
| EngineRuns.RestoredNeedsSight | src/matchEngine.ts:1497-1522 | for ten seconds after a restart a restored stop is cleared only once its Driver Station was seen, showing Disabled or under field control: silence does not do |
| EngineEffects.FieldEStopStops | src/matchEngine.ts:1451-1473 | in any state: the field is latched, every robot e-stopped and down, an active match over with no time left, no resume left counting; nothing else changes |
| EngineCourse.FieldEStopHolds | src/matchEngine.ts:1451-1487 | in every run after it, until the host clears it, no match is active and no robot enabled, whatever else happens |
| EngineEffects.EStopStops | src/matchEngine.ts:1570-1578 | in any state the station is latched and its robot down; no other changes |
| EngineEffects.AStopStops | src/matchEngine.ts:1596-1612 | a joined station not a-stopped yet goes down a-stopped exactly if the autonomous period is not over |
| EngineEffects.AStopCleared | src/matchEngine.ts:1617-1627 | an a-stop is taken back exactly during set-up |
| EngineEffects.EStopCleared | src/matchEngine.ts:1819-1837 | a station's clear lifts its own stop, unless that waits and the field is not stopped, and leaves a robot it frees in a match down and marked |
| EngineEffects.FieldEStopCleared | src/matchEngine.ts:1477-1487 | the field's clear lifts the latch alone, exactly if no station with only that stop waits |
| EngineEffects.AllEStopsCleared | src/matchEngine.ts:1819-1837 | the clear of everything lifts every stop exactly if none waits |
| EngineCourse.BroadcastReviews | src/matchEngine.ts:1862-1909 | after every broadcast exactly those stations wait that have waited so far, or are newly stopped with a team, and whose Driver Station neither showed Disabled since, nor is attached and not last seen to command Enabled, nor has been silent for two seconds |
| EngineCourse.RestartTakesUp | src/matchEngine.ts:1497-1522 | the latch is as saved, the e-stops those saved besides the ones there, and silence counts from eight seconds later |
| EngineEffects.StopEnds | src/matchEngine.ts:1363-1375 | exactly an active match ends, every robot down |
| EngineEffects.PauseHolds | src/matchEngine.ts:1377-1397 | exactly a running match is held where it is, every robot down and the clock as it was; a resume that counts is called off |
| EngineEffects.ResumeCounts | src/matchEngine.ts:1406-1419 | a resume only starts to count, and only in a paused match |
| EngineLive.ResumeGoesOn | src/matchEngine.ts:1431-1443 | its end goes back to the phase before the pause with the time left then, the clock running, and live exactly the robots that may be |
| EngineEffects.AbortReturns | src/matchEngine.ts:1335-1357 | exactly a countdown goes back to set-up, everybody still joined and down |
| EngineEffects.CreateSetsUp | src/matchEngine.ts:499-534 | exactly from idle or post-match: nobody joined, no stop but the field's, no winner and no times, challenge settings kept and official ones reset |
| EngineEffects.CancelLetsGo | src/matchEngine.ts:541-558 | exactly a set-up is dropped, everybody out of it and e-stops as they were |
| EngineEffects.ClearPutsAway | src/matchEngine.ts:2319-2353 | exactly a finished match is put away, everybody out of it, their e-stops lifted, and the latch as it was |
| EngineEffects.ConfigIs | src/matchEngine.ts:1065-1087 | an official match has official durations; a challenge one window of the seconds asked for, but ten to three hundred |
| EngineEffects.FullIff | src/matchEngine.ts:870-913 | an alliance has room exactly as long as fewer than three stations are on it |
| EngineEffects.JoinJoins | src/matchEngine.ts:870-913 | a station is put on a side exactly during set-up and if that side has room |
| EngineEffects.SwapChangesSide | src/matchEngine.ts:605-627 | a joined station changes sides exactly then |
| EngineEffects.KickLetsGo | src/matchEngine.ts:630-648 | a joined station is let go of exactly during set-up |
| EngineEffects.ReconcileLetsGo | src/matchEngine.ts:921-945 | and so exactly those whose robot changed |
| EngineRace.StartStarts | src/matchEngine.ts:1206-1330 | a match counts down exactly if it is set up with somebody in it, the gates open, no field stop, and its winner known if it has no autonomous period; legs are the stations of each side in slot order, times are empty, and stops last into it |
| EngineRace.WinnerNamed | src/matchEngine.ts:651-663 | the winner is the one named, and only a match that waits for it counts on |
| EngineLive.LiveIs | src/matchEngine.ts:2380-2412 | going live, from any safe state: a robot is enabled exactly if it is joined, not home, in turn, allowed, neither stopped nor marked, and, in autonomous, not a-stopped; in the mode of the phase; one out of turn waits for its leg |
| EngineLive.TickBefore | src/matchEngine.ts:2140-2181 | before time is up a tick only counts, and begins the endgame out of teleop when no more than its time is left |
| EngineLive.TickStarts | src/matchEngine.ts:2183-2202 | the countdown over, autonomous or teleop begins with its duration, the race is timed from then, and who can go live does |
| EngineLive.TickEndsAuto | src/matchEngine.ts:2204-2229 | autonomous over, a break with all robots down begins, waiting for the referee if the winner is not named, or teleop if there is none |
| EngineLive.TickEndsBreak | src/matchEngine.ts:2231-2295 | the break over, teleop begins, with the winner the config names, the referee named or the scores pick |
| EngineLive.TickEnds | src/matchEngine.ts:2242-2252 | teleop or endgame over, the match is, every robot down, and three seconds are counted |
| EngineLive.TickLetsGo | src/matchEngine.ts:2153-2172 | those over, everybody is let go of and the clock stops |
| EngineRace.LeaveLeaves | src/matchEngine.ts:948-983 | a station leaves, down if the match is on; the last one out ends it at once, and the last one not yet home ends a run against the clock |
| EngineRace.DisableDowns | src/matchEngine.ts:1629-1651 | a Disable takes that robot down, marked with who pressed it, and touches no other, unless it hands a leg on |
| EngineRace.DisableHandsOn | src/matchEngine.ts:806-812 | where drivers hand on, the runner's own Disable ends its leg |
| EngineRace.EnableBrings | src/matchEngine.ts:1658-1704 | an Enable brings exactly that robot back, in the mode of the phase, exactly if nothing stops it, it is its turn, and staff press it if staff took it down |
| EngineRace.RelayHandsOn | src/matchEngine.ts:775-802 | a leg of a running alliance ends with its time on record and its robot held; the next in order runs if nothing stops it, and after the last the alliance is home at that time |
| EngineRace.FinishRecords | src/matchEngine.ts:726-761 | a finish puts on record the time since the countdown ended, takes that alliance's robots down, and ends the run exactly if every alliance with a station is home |
| EngineRace.StatusHonoured | src/matchEngine.ts:1716-1814 | a status packet is noted, brings back a robot whose Driver Station was away and took it down, and then stops it if it reports a new stop, or takes it down if its "disabled" is the driver's |
| EngineRace.ControlNoted | src/matchEngine.ts:1850-1859 | a control packet is noted and touches no robot |
| EngineCourse.RunRaces | src/matchEngine.ts:689-802 | in every run with a clock that does not go back: while a race is on its beginning is known and no recorded time is still to come, the times of the legs ascend, and no alliance is home before its last leg ended |
| MatchEngine.MatchEngine.CreateMatch | src/matchEngine.ts:499-534 | the loops over stations compute on the whole engine: only from idle or post-match: every station unjoined, down and without its own stops, tallies and winner gone; the field latch and a held interval stay |
| MatchEngine.MatchEngine.CancelMatch | src/matchEngine.ts:541-558 | a set-up is dropped and every station let go of; e-stops stay |
| MatchEngine.MatchEngine.SwapStationAlliance | src/matchEngine.ts:605-627 | during set-up a joined station changes sides, unless the other is full |
| MatchEngine.MatchEngine.KickStation | src/matchEngine.ts:630-648 | during set-up a joined station is let go of, and its a-stop with it |
| MatchEngine.MatchEngine.SetAutoWinner | src/matchEngine.ts:651-663 | the winner is named; a match waiting for it counts on, whatever interval was held being lost |
| MatchEngine.MatchEngine.ChallengeFinish | src/matchEngine.ts:726-734 | staff stop a running alliance's clock, in styles without relay hand-offs by the field |
| MatchEngine.MatchEngine.RecordFinish | src/matchEngine.ts:739-749 | the alliance's time is recorded and its robots go down for the run; with nobody left to finish, the run is over |
| MatchEngine.MatchEngine.RelayAdvance | src/matchEngine.ts:775-802 | the runner's split is recorded and it goes down; the next runner goes live, or the alliance has finished |
| MatchEngine.MatchEngine.RelayHandoffFromDisable | src/matchEngine.ts:806-812 | in a hand-off by the drivers, only the current runner's disable advances the relay |
| MatchEngine.MatchEngine.EnableStation | src/matchEngine.ts:816-837 | a station is enabled in the given mode exactly if it may be; one field policy forbids goes down |
| MatchEngine.MatchEngine.JoinStationAlliance | src/matchEngine.ts:870-913 | during set-up a station joins a side that is not full, or moves to it |
| MatchEngine.MatchEngine.ReconcileJoinedTeams | src/matchEngine.ts:921-945 | during set-up every joined station whose robot changed is let go of, and no other |
| MatchEngine.MatchEngine.LeaveStation | src/matchEngine.ts:948-983 | a station leaves, disabled if a match is on; the last one out ends it |
| MatchEngine.MatchEngine.UpdateMatchConfig | src/matchEngine.ts:1065-1087 | during set-up the next match's durations, clamped, and nothing else |
| MatchEngine.MatchEngine.StartMatch | src/matchEngine.ts:1206-1330 | starts exactly if every gate is open: running order frozen, all robots down, latched stops kept, countdown begun, an interval still held lost |
| MatchEngine.MatchEngine.AbortCountdown | src/matchEngine.ts:1335-1357 | back to set-up, robots down, clock stopped |
| MatchEngine.MatchEngine.StopMatch | src/matchEngine.ts:1363-1375 | an active match ends at once, all robots down |
| MatchEngine.MatchEngine.PauseMatch | src/matchEngine.ts:1377-1397 | a running match is put on hold with all robots down and its clock stopped; during a resume count, that is called off |
| MatchEngine.MatchEngine.ResumeMatch | src/matchEngine.ts:1406-1419 | a paused match begins its resume count, once |
| MatchEngine.MatchEngine.CompleteResume | src/matchEngine.ts:1431-1443 | the phase before the pause, every robot that may go live, clock running |
| MatchEngine.MatchEngine.FieldEStop | src/matchEngine.ts:1451-1473 | latched, all robots down, an active match over |
| MatchEngine.MatchEngine.ClearFieldEStop | src/matchEngine.ts:1477-1487 | the latch lifts unless a station without an e-stop of its own still waits; joined stations in a match come out marked |
| MatchEngine.MatchEngine.StationEStop | src/matchEngine.ts:1570-1578 | the station goes down and is latched |
| MatchEngine.MatchEngine.StationAStop | src/matchEngine.ts:1596-1612 | a joined station goes down for the autonomous period, where that can still be |
| MatchEngine.MatchEngine.StationClearAStop | src/matchEngine.ts:1617-1627 | only during set-up |
| MatchEngine.MatchEngine.StationDisable | src/matchEngine.ts:1629-1651 | the robot goes down, marked with who did it; a runner's own disable hands the relay on |
| MatchEngine.MatchEngine.Undisable | src/matchEngine.ts:1658-1704 | brings exactly that robot back, in the mode of the phase, and only if every condition of the enable rule holds and it is not held by staff against its driver |
| MatchEngine.MatchEngine.DsReportedStatus | src/matchEngine.ts:1716-1814 | a reported e-stop or a-stop latches, a believed "disabled" is the driver's own disable, a Driver Station that comes back gets its robot back |
| MatchEngine.MatchEngine.ClearEStop | src/matchEngine.ts:1819-1837 | the station's e-stop lifts unless it waits; in a match it comes out marked |
| MatchEngine.MatchEngine.NoteDsControl | src/matchEngine.ts:1850-1859 | a packet commanding Enabled makes a stop out of a match wait again |
| MatchEngine.MatchEngine.Broadcast | src/matchEngine.ts:1872-1909 | the six stations' waits are reviewed: begun, kept, or over on evidence |
| MatchEngine.MatchEngine.Tick | src/matchEngine.ts:2140-2151 | a tick ends the phase whose time is up, and otherwise runs the clock on by the time since the last |
| MatchEngine.MatchEngine.Transition | src/matchEngine.ts:2153-2253 | each phase follows the one that ran out, with its duration, robots and winner as configured |
| MatchEngine.MatchEngine.ClearMatch | src/matchEngine.ts:2319-2353 | after a match everything of it is cleared, e-stops too; the field latch stays |
| MatchEngine.MatchEngine.EnableParticipating | src/matchEngine.ts:2380-2412 | station by station it leaves what enabling all at once would: participants live, awaited relay legs held, a-stops over in teleop |
| MatchEngine.MatchEngine.TrackStops | src/matchEngine.ts:1497-1522 | the saved stops are taken up station by station, and silence counts for nothing for ten seconds |
| MatchEngine.MatchEngine.Restart | src/matchEngine.ts:1497-1522 | on a fresh engine that establishes the invariants of safety, stops and clock |
| MatchEngine.MatchEngine.Handle | src/matchEngine.ts:499-2412 | whatever operation, timer or report comes next, its method takes the model's step and keeps those invariants |
| Buffers.ReadsBack | src/BufferWrappers.ts:25-38 | a number of one to eight bytes reads back from wherever it was written, for every value that fits six |
| Buffers.ReadSpells | src/BufferWrappers.ts:25-38 | a number that was read is the one its bytes spell, and only those that fit are |
| Buffers.BytesOfNumber | src/BufferWrappers.ts:25-38 | bytes and big-endian numbers determine each other |
| Buffers.BufferReader.ReadNumber | src/BufferWrappers.ts:25-38 | reads as the model does, the cursor where the model leaves it |
| Buffers.BufferReader.ReadSlice | src/BufferWrappers.ts:40-47 | takes the next bytes, or none and an overflow |
| Buffers.BufferReader.ReadSizedBuffer | src/BufferWrappers.ts:49-55 | takes a size of one to six bytes and as many bytes, or leaves the cursor before the size |
| Buffers.BufferWriter.WriteNumber | src/BufferWrappers.ts:83-95 | writes a number that fits behind what was written, refuses one that does not, and what a refusal leaves behind |
| Buffers.BufferWriter.WriteBuffer | src/BufferWrappers.ts:97-101 | writes bytes behind what was written if there is room |
| Framer.ParseIncomingTcpMessage | src/fmsServer.ts:193-254 | each message type read field by field; unknown types and malformed handshakes tell nothing; a frame too short for its type fails |
| Framer.ByteToObjectTransform.Transform | src/fmsServer.ts:263-285 | one chunk: what it tells and what it holds back, as in the model |
| Framer.FramesOfMore | src/fmsServer.ts:269-275 | more bytes complete the frame that was broken off, and change no earlier one |
| Framer.DrainsIff | src/fmsServer.ts:263-285 | one pass tells exactly the complete frames if and only if none follows a frame that does not parse |
| Framer.FedExactly | src/fmsServer.ts:256-285 | on such a stream, every cut into chunks tells exactly the complete frames' messages in order and holds exactly the rest |
| Framer.ChunkingDoesNotMatterIff | src/fmsServer.ts:256-285 | every cut tells exactly the complete frames and holds exactly the rest if and only if the stream is of that kind |
| Framer.SinglyExactly | src/fmsServer.ts:263-285 | fed byte by byte, every stream whatever is told exactly |
| Framer.CutsAgreeIff | src/fmsServer.ts:256-285 | so any two cuts of a stream come to the same if and only if no complete frame follows one that does not parse |
| Framer.NothingIsLost | src/fmsServer.ts:276-284 | on every stream and cut, what was told is the messages of the first frames, and what is held is all of the stream after those |
| TcpMessages.TcpRoundTrip | src/fmsServer.ts:193-254 | every message that fits on the wire, of every type, is read back field by field from the bytes that say it |
| TcpMessages.LogDataReads | src/fmsServer.ts:161-220 | times, packets, voltage, each status bit, load, signal and bandwidth of a log message, each from its place |
| TcpMessages.HandshakeReads | src/fmsServer.ts:234-244 | port, flags and team of a 2027 handshake, the team spelled in digits |
| TcpMessages.ErrorReads | src/fmsServer.ts:225-233 | count, timestamp up to six bytes, unknown bytes and text of an event |
| TcpMessages.SkipsIff | src/fmsServer.ts:193-254 | a payload says nothing exactly if its type is not known or it is a handshake that names no port or no team of at most 65535 |
| TcpMessages.ThrowsIff | src/fmsServer.ts:193-254 | and does not parse exactly if it is empty or too short for its type, or its timestamp needs more than six bytes |
| TcpMessages.IntegerIff | src/fmsServer.ts:234-244 | a text is read as an integer exactly if it starts with blanks, a sign or none, and the digits of that integer |
| TcpMessages.TailIgnored | src/fmsServer.ts:193-254 | what follows a complete message of fixed length, or a handshake, changes nothing |
| TcpMessages.SentIsTold | src/fmsServer.ts:256-285 | however the stream of any messages that fit is cut, the field is told exactly those messages in order, and holds nothing back |
| UdpStatus.ParseIncomingUdpMessage | src/fmsServer.ts:367-415 | the cursor loop, against the definition, on every packet |
| UdpStatus.Apart | src/fmsServer.ts:385-412 | the bytes after the header are whole tags, then something that does not begin with one |
| UdpStatus.OneWay | src/fmsServer.ts:385-412 | and fall apart in that way only |
| UdpStatus.TagsDisturbNothing | src/fmsServer.ts:367-415 | every packet of eight bytes and more parses, its header from the first eight alone; each whole tag says what it says by itself |
| UdpStatus.SilentTag | src/fmsServer.ts:417-444 | a short or unknown tag says nothing and disturbs no other |
| UdpStatus.TagSays | src/fmsServer.ts:417-444 | each kind of tag says the numbers it was made of |
| UdpStatus.RoundTrip | src/fmsServer.ts:367-444 | parsing undoes encoding, for every list of tags |
| UdpPackets.HeaderReads | src/fmsServer.ts:324-374 | sequence, version, every status bit, the mode, team and battery of a header, each from its place |
| UdpPackets.PacketReads | src/fmsServer.ts:367-444 | and of a whole packet with any tags |
| DsPacket.MakeDsPacket | src/fmsServer.ts:818-839 | builds the packet exactly if every number has room in its field |
| DsPacket.DateToBuffer | src/fmsServer.ts:786-796 | so for the ten bytes of the time |
| DsPacket.MakeTagsBuffers | src/fmsServer.ts:801-816 | the tags behind their sizes, cut for the 2027 Driver Station |
| DsPacket.OrderReads | src/fmsServer.ts:733-742 | the control byte says e-stop, enabled and mode where the Driver Station's own status byte does |
| DsPacket.TagsComeThroughIff | src/fmsServer.ts:801-816 | tags come through if and only if each fits the byte of its size |
| DsPacket.PacketReads | src/fmsServer.ts:818-839 | every number of a packet, the time included, reads back from its place, and so do tags that fit |
| DsPacket.OnTheWire | src/matchEngine.ts:2465-2520 | in every run of the engine a packet says Enabled exactly if the robot is enabled, and then it may run, and in the mode of the phase; none says e-stop; the winner's letter is there exactly when due |
| DsPacket.NumbersOnTheWire | src/matchEngine.ts:2465-2520 | sequence number modulo 65536, position, match and time read back, and the seconds left to the nearest, none below zero |
| DsPacket.TagsAre | src/fmsServer.ts:801-816 | each tag is the number of its kind and its data in order, eight bytes at most for the 2027 Driver Station |
| DnsNames.ParseDnsName | src/hostnameResolver.ts:165-188 | on every buffer and offset the loop ends, reads in bounds, agrees with the definition, and moves forward within the buffer |
| DnsNames.NamesEnd | src/hostnameResolver.ts:165-188 | every name ends past where it began, inside the message |
| DnsNames.RoundTripIff | src/hostnameResolver.ts:150-188 | a name survives encoding and parsing, anywhere in any message, if and only if each label has 1 to 191 bytes |
| DnsNames.CompressedName | src/hostnameResolver.ts:171-180 | labels, then a compressed tail (section 4.1.4 of RFC 1035): the name goes on where it points and ends past it |
| DnsNames.SkipQuestions | src/hostnameResolver.ts:243-256 | questions are skipped name by name, in bounds |
| DnsNames.ParsePtrResponse | src/hostnameResolver.ts:243-270 | the first PTR record that answers the question, on every message |
| DnsNames.ReplyIsUnderstood | src/hostnameResolver.ts:243-270 | a reply with the question's name compressed gives the short name of its target |
| DnsReplies.PtrResponseIs | src/hostnameResolver.ts:243-270 | on every message: what comes out is the name of the first record that is whole, of type PTR and of the name asked for but for case, and leads to a name; nothing comes out exactly if no record of those before the first broken one does |
| DnsReplies.ShortNameIs | src/hostnameResolver.ts:134-139 | the short name is the first label without the blanks around it, and there is none exactly if that is blank |
| DnsReplies.LowerIff | src/hostnameResolver.ts:243-270 | names compare equal exactly if they differ in case only, over Latin-1 |
| DnsNames.ParseNodeStatusResponse | src/hostnameResolver.ts:299-332 | the first workstation entry of the table, and none only if there is none |
| OnLink.OnLinkPrefixes | src/onLink.ts:31-50 | every network with a counting address is listed, once, and no other |
| OnLink.ListedTogetherIff | src/onLink.ts:36-47 | two addresses of a family are listed as one network if and only if, at the length they are listed at, they are on one |
| PrefixMask.MaskIs | src/onLink.ts:74-78 | the shifts and masks on one byte clear its low bits and no other |
| PrefixMask.MaskedIs | src/onLink.ts:72-78 | masking an address floor-divides it by two to its host bits and multiplies back |
| PrefixMask.DownIs | src/onLink.ts:72-78 | halving n times is dividing by two to the n |
| PrefixMask.UpIs | src/onLink.ts:72-78 | doubling n times is multiplying by it |
| PrefixMask.MaskTwice | src/onLink.ts:72-78 | masking twice is masking once |
| PrefixMask.MaskAlikeIff | src/onLink.ts:72-78 | two addresses mask alike if and only if they agree above the host bits |
| OnLink.MatchOf | src/onLink.ts:79-82 | the pattern of the replacement matches, among hex words, exactly a run of at least two zero words |
| OnLink.ShortenHex | src/onLink.ts:79-82 | so shortening replaces the first such run and nothing else |
| OnLink.SplitUndoes | src/onLink.ts:85-93 | splitting and parsing undo spelling and joining, in hex and in decimal |
| OnLink.TextUndone | src/onLink.ts:79-93 | the short text of every eight words reads back as those words |
| OnLink.NetworkReads | src/onLink.ts:72-93 | the text of an IPv6 network reads back as the masked address |
| OnLink.SameCidrIff | src/onLink.ts:45-82 | two addresses share a CIDR string if and only if they share length and prefix |
| Timeline.MatchTimeline.Record | src/matchTimeline.ts:103-153 | records as in the model, in order |
| Timeline.MatchTimeline.SampleAtOrBefore | src/matchTimeline.ts:200-211 | the binary search finds the last sample not after t |
| Timeline.MatchTimeline.At | src/matchTimeline.ts:156-177 | the moment of that sample, its clock run on |
| Timeline.MatchTimeline.ClassifyGoal | src/matchTimeline.ts:188-198 | the verdict of the model |
| Timeline.RecordKeepsOrder | src/matchTimeline.ts:103-153 | samples stay sorted, each phase begun before it is sampled, whatever the clock does |
| Timeline.BackDatedIff | src/matchTimeline.ts:130-140 | a broadcast is of an earlier instant exactly if the clock, running, took that step before now |
| Timeline.NowIsAsTold | src/matchTimeline.ts:103-177 | what the log says of the instant of a broadcast is what that said |
| Timeline.CountdownForgets | src/matchTimeline.ts:103-120 | a countdown out of set-up begins a log of its own |
| Timeline.CoveringIs | src/matchTimeline.ts:200-211 | the covering sample is the one with all later ones after t |
| Timeline.CompactionIsInvisible | src/matchTimeline.ts:121-129 | with a monotone clock, and if every frozen broadcast left out repeats the one it replaces in time left, config and game phase, leaving them out changes no answer about any instant |
| Timeline.CompactionIsInvisibleIff | src/matchTimeline.ts:121-129 | with a clock that moves on, the kept log answers like the full one at every instant all through a run if and only if that is so |
| Timeline.SetupEditRewrites | src/matchTimeline.ts:121-129 | a run for which it is not: a config edited during set-up |
| Timeline.CollapseKeepsPastIff | src/matchTimeline.ts:121-129 | a collapse leaves the past alone if and only if the new broadcast repeats the old |
| Timeline.BoundaryIsBackDated | src/matchTimeline.ts:130-140 | a phase the timer ended is put where its clock ran out: the old phase with time left before, the new one from then on |
| Timeline.GraceWindow | src/matchTimeline.ts:188-217 | a goal on for three seconds and off from u on counts as grace for three seconds and as inactive after, across samples and interpolated clocks |
| Timeline.CourseRecorded | src/matchTimeline.ts:103-153 | whatever broadcasts of a teleop are recorded, the log is of that teleop |
| Timeline.CourseMoment | src/matchTimeline.ts:156-177 | at each instant of it a goal is off exactly in its shifts: 10-35 and 60-85 seconds in for the winner of auto, 35-60 and 85-110 for the other |
| Timeline.TeleopVerdicts | src/matchTimeline.ts:156-217 | so however a teleop was broadcast, each score is judged by the time since its start alone, three seconds of grace included |
| MatchQueue.FormsInFull | src/matchQueue.ts:333-359 | a formed match takes as many teams as it wants, or all there are, each once, within both sides |
| MatchQueue.PreferencesKept | src/matchQueue.ts:333-359 | a preference is denied only if that side is full of teams that stood before and prefer it too |
| MatchQueue.ReorderPermutesIff | src/matchQueue.ts:200-214 | any list of ids permutes the queue if and only if no two movable entries share an id |
| MatchQueue.ReorderedIs | src/matchQueue.ts:200-214 | the new order: what cannot move as it was, then what was asked for in the order asked, then the rest as it was |
| MatchQueue.NextOrderly | src/matchQueue.ts:133-276 | no operation, imports and edits included, puts a second match on deck, or an id in the list twice |
| MatchQueue.NeverTwoOnDeck | src/matchQueue.ts:237-254 | so in every run at most one is on deck |
| MatchQueue.LineStaysDistinctIff | src/matchQueue.ts:284-382 | an operation, moving in line included, leaves a team in the line twice if and only if it takes out of a match from the line a team that is already in the line |
| MatchQueue.MoveDistinct | src/matchQueue.ts:312-319 | a move puts the team where it was asked for, as far as the line goes, and nobody in it twice |
| MatchQueue.SkippedTeamQueuesTwice | src/matchQueue.ts:366-382 | three operations that do |
| QueueEffects.AddAdds | src/matchQueue.ts:133-151 | a match is put at the end, or before the first still queued, numbered one above the highest, every other entry in its place; the line is the old one without its teams, in order and with preferences |
| QueueEffects.FormAdds | src/matchQueue.ts:333-359 | from the line so exactly if the shape is one and the line fills it, or a short match is allowed and somebody waits |
| QueueEffects.FormLeaves | src/matchQueue.ts:333-359 | whatever the line, what is left of it is the old one without the teams that play, in order |
| QueueEffects.FormedIs | src/matchQueue.ts:333-359 | who plays on a side and in what order: first those that prefer it, as many as there are seats, then the others by turns, which go to the side with more seats left, red when both have as many |
| QueueEffects.TurnsFair | src/matchQueue.ts:344-354 | the turns in closed form are those of the side with more room |
| QueueEffects.LeaveForIs | src/matchQueue.ts:133-147 | the line without some teams: each entry an old one, each old one of another team there, in the old order |
| QueueEffects.ImportAdds | src/matchQueue.ts:155-175 | an imported schedule follows what was there, or what was neither queued nor skipped, in its order, numbered on from the highest, all its teams out of the line |
| QueueEffects.ReplaceSubstitutes | src/matchQueue.ts:366-382 | the team named goes out of its place on its side, the first in line that is not in the match takes that place and leaves the line, or the side closes up; the one that went out goes to the end of the line exactly if the match was formed from it |
| QueueEffects.JoinJoins | src/matchQueue.ts:284-302 | a team joins the end of an open line exactly if no match awaits it and it is not in line; if it is, only its preference changes |
| QueueEffects.MoveMoves | src/matchQueue.ts:312-319 | the team stands where asked for and the others close up and make room in their order |
| QueueEffects.LeaveLeaves | src/matchQueue.ts:304-310 | the team leaves and the others stay in their order |
| QueueEffects.DeckMarks | src/matchQueue.ts:237-254 | a match neither played nor playing goes on deck and any other that was is queued again |
| QueueEffects.SkipSkips | src/matchQueue.ts:216-235 | exactly a match neither played nor playing is skipped, and exactly one skipped or on deck queued again |
| QueueEffects.MatchGoesOn | src/matchQueue.ts:256-271 | the first on deck begins to play, the first playing is played, and no other changes |
| QueueEffects.RemoveRemoves | src/matchQueue.ts:189-196 | exactly the entries of that id that do not play are gone |
| QueueEffects.ClearClears | src/matchQueue.ts:273-280 | exactly the played and skipped ones, or all that do not play |
| QueueEffects.EditEdits | src/matchQueue.ts:177-187 | exactly a match not played gets the sides asked for, cut to three |
| MatchQueue.MatchQueue.FormFromLine | src/matchQueue.ts:333-359 | the two passes over the line, against the model: entry, line and answer |
| MatchQueue.MatchQueue.AddEntry | src/matchQueue.ts:133-151 | at the front means behind what is on deck or done |
| MatchQueue.MatchQueue.Reorder | src/matchQueue.ts:200-214 | through its table of ids, as in the model |
| MatchQueue.MatchQueue.MarkOnDeck | src/matchQueue.ts:237-254 | the one on deck steps down |
| MatchQueue.MatchQueue.ReplaceTeam | src/matchQueue.ts:366-382 | as in the model: the substitute leaves the line, the replaced team goes back to it |
| MatchQueue.MatchQueue.JoinLine | src/matchQueue.ts:284-302 | as in the model |
| MatchQueue.MatchQueue.MoveInLine | src/matchQueue.ts:312-319 | as in the model, a negative place counted from the end |
| MatchQueue.MatchQueue.AddMany | src/matchQueue.ts:155-175 | the loop that numbers as it goes imports as adding one after the other does, the queued and skipped dropped first if asked |
| MatchQueue.MatchQueue.Update | src/matchQueue.ts:177-187 | a side asked for is cut to three teams; a match that was played is left alone |
| Leaderboard.BetterIs | src/challengeRanking.ts:30-40 | the better of two attempts is the one that beats the other; of two that tie, the first |
| Leaderboard.SameKeyIff | src/challengeRanking.ts:50-56 | two line-ups share a row if and only if they are the same teams |
| Leaderboard.RunsAre | src/challengeRanking.ts:43-60 | the runs of a style are those of the tallies of its matches whose alliance somebody entered, each once and in the order of history; the teams of each are those entered on that alliance, as often as they were, ascending, with that tally's laps and seconds and that match's end |
| Leaderboard.CountIs | src/challengeRanking.ts:61-69 | the attempts of a team-set are the number of its runs |
| Leaderboard.TableIsRight | src/challengeRanking.ts:46-69 | one row for each team-set with a run: a best run of it and their number; the numbers add up to all runs |
| Leaderboard.SortedIs | src/challengeRanking.ts:72-72 | ranking only moves rows, and leaves none above one that beats it |
| Leaderboard.BoardIsRight | src/challengeRanking.ts:43-73 | all of that of the board; in count-up styles unfinished runs come last |
| Leaderboard.HistoryPermuted | src/challengeRanking.ts:43-73 | however history is reordered, each team-set keeps its row: same number of attempts, best run the same or an exact tie |
| Leaderboard.OnlyTiesSwap | src/challengeRanking.ts:43-73 | and two team-sets swap places only if their best runs tie |
| Leaderboard.LeaderboardRows | src/challengeRanking.ts:43-73 | the loops over matches and alliances build that board |
| LoginLimiter.LoginLimiter.Take | src/loginLimiter.ts:13-27 | admits as in the model, counting under both keys, or refuses and says how long to wait |
| LoginLimiter.LoginLimiter.Clear | src/loginLimiter.ts:30-32 | forgets one address |
| LoginLimiter.NeverMoreThanThirty | src/loginLimiter.ts:13-27 | no half-open minute of any run holds more than thirty admissions, across flushes |
| LoginLimiter.NeverMoreThanFive | src/loginLimiter.ts:13-27 | nor more than five of one address that is neither cleared nor flushed |
| LoginLimiter.LetInIff | src/loginLimiter.ts:13-27 | in every such run a login is let in exactly if fewer than five of its address and fewer than thirty in all were in the last minute |
| LoginLimiter.RefusalWaits | src/loginLimiter.ts:18-20 | with no attempt of the future on the books, a refusal waits more than nothing and at most a minute, and then what was in the way no longer counts |
| LoginLimiter.PastKept | src/loginLimiter.ts:13-27 | in every run from an empty table no attempt on the books is of the future |
| LoginLimiter.RefusalInRun | src/loginLimiter.ts:13-27 | so in every such run with a monotone clock, every refusal waits more than nothing and at most a minute |
| LoginLimiter.RefusedUntil | src/loginLimiter.ts:18-20 | and whoever is refused is refused again at every moment before the wait is over |
| LoginLimiter.FlushForgets | src/loginLimiter.ts:22-25 | right after a flush an address is held to the overall limit only |

## Left out

- An effect of a sync pass and the record made of it are one step. A flush of the kernel rules may come at any other moment, but not between the two. Taking out a rule found in several copies succeeds or fails as a whole.
- Iteration order of `laptops` and of departed robots is left open: the theorems hold for every order.
- `restore` is given the kernel's lists as read; parsing iptables output is not modelled. `timeoutRemaining`, `sessionsByStation` and `blockedByStation` are views with no property of their own.
- SSIDs: of the blanks the runtime skips before a team number, only the common ones are modelled.
- MatchEngine.MatchEngine.StartMatch: the ready check, the staff roles, the restart cooldown and the announcement hold are one boolean it is given; what holds, holds for every way they may turn out.
- MatchEngine.MatchEngine.ReconcileJoinedTeams: which stations hold another robot than the one that joined is given to it; team numbers and robot names of the roster are not kept.
- MatchEngine.MatchEngine.StationDisable: a Disable from the console within 1.5 seconds of an Enable from there, is taken for a double click and ignored by the program; such a press is no step here.
- Match engine: share tokens, match slots, tallied laps, packet sequence numbers, writing the saved stops, Slack and log messages, and warnings about robots enabled through a stop are not modelled. Neither are `teamStop`, which only has a Driver Station's traffic cut outside the engine, and the engine's own expiry of Driver Station addresses.
- Match engine: automatic clearing and cancelling of matches are the steps `clearMatch` and `cancelMatch` at any time. The winner by scores, or by coin, is an input of the tick.
- Match engine: the fields of the clock, of what Driver Stations said and of the stops are grouped in three records.
- Text is kept as bytes: UTF-8 decoding in TCP messages, and names with characters beyond one byte, are not modelled. Times to look up a name, caches and sockets are not either.
- `makeStationAssignment` and the packet that tells a Driver Station without a match that it is disabled are left out: constants.
- `BlockList` matching, reading the interface table at most once a minute, and the text of IPv4 addresses given to the program are left to the runtime. Hex words of an address are read as digits; a `0x` in front is not.
- Queue: no-shows and their clock, notes, times and the saved file. Ids of new entries are new. The line's own settings are inputs.
- QueueEffects.FormedIs: of lines with no team in them twice, which is every line but those of `LineStaysDistinctIff`; `FormLeaves` is of any line.
- QueueEffects.FormAdds: of such lines too.
- Leaderboard: a run's laps and seconds are inputs (`challengeScore`). The order of rows that tie exactly is the runtime's choice; here the row that entered first is first. Scopes ("today") filter the history before.
- Logging, listeners, persistence, HTTP and audio throughout.
