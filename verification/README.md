# A verified model of the trading bot's stateful cores

The bot reads one-minute candles from a terminal, builds longer timeframes and session ranges from
them, enters and manages positions, sends orders to a broker that may answer late or not at all, and
publishes its trades to followers. This project models the parts whose guarantees concern whole runs,
every interleaving, or the agreement of a fast form with a simple one, and proves those guarantees.

Prices, volumes and money are reals, timestamps whole seconds (UTC), a date is a timestamp divided by
the length of a day. The explicit `1e-9` slacks of the code are kept as named constants; decimal
rounding is the identity. The clock, the network, the terminal and the broker are inputs, so each
theorem is about all of them.

| module | part of the program |
|---|---|
| `Broadcast`, `BroadcastClass`, `Leader`, `Pipeline` | the publisher's queue, worker and spool; the leader's store; the polling follower; all three end to end |
| `OrderSend`, `OrderFlow`, `OrderClass` | sending an order under the retry policy, and the volume ladder |
| `OrbEngine`, `OrbRuns`, `OrbOpenings`, `OrbSpacing`, `OrbRange`, `OrbGauges`, `OrbSignals`, `OrbClass`, `Session`, `Indicators` | the opening-range engine, its session clock and indicators |
| `Sim`, `SimMoney`, `SimStops`, `SimTickets`, `SimClass`, `Sitters`, `Babysitting`, `BabyRun`, `BabyPrices`, `Ladder`, `LadderLevels`, `ClosedLoop`, `Lifetime`, `LadderRun`, `LadderWatch`, `Sizing` | the simulator, the two exit managers it drives, the loop each closes with it, and lot sizing |
| `Profile`, `ProfilePrices`, `ProfileVolumes` | the volume profile |
| `Structure`, `StructurePrices`, `Breaks`, `OrderBlocks`, `BlockPrices`, `Evictions`, `Crowding`, `Aggregation` | streaming market structure, order blocks, timeframes |
| `SmcEngine`, `SmcRuns`, `SmcHistory`, `SmcChecks`, `SmcWitness`, `SmcClass` | the multi-timeframe engine |
| `Feed`, `FeedRounds` | the polling live feed |
| `Analytics`, `TradeTables` | drawdown and the trade tables |
| `Prelude`, `Models` | shared vocabulary |

Code that changes fields step by step is a class whose methods carry the code's own loops and are
proved to compute a step function; what the program promises is then proved of that function over
all runs. What each step amounts to is also stated once more on its own terms, in prices, volumes, times
and return codes over the bars and answers seen, without the helpers that the step function is made
of (`OrderFlow`, `OrbSignals`, `SimMoney`, `LadderLevels`, `BabyPrices`, `ProfilePrices`, `SmcChecks` and
the like). Where a class holds other trackers it holds their values, which it advances by the functions
that the trackers' own classes are proved to compute.

## Where the code and its description differ

- `LeaderStore.latest(0)` returns every record, not none (`Leader.LatestIsLast`).
- `Broadcaster.dropped` over-counts when the worker empties the queue between the failed put and the
  get; it is exact exactly when that never happens (`Broadcast.DroppedCount`, `Broadcast.DroppedOverCounts`).
- `_confluence` is said never to use up an order block without entering. It does exactly when the block
  puts the stop farther away than allowed (`SmcRuns.SpentForNothing`; a run from the start in
  which it happens: `SmcWitness.BlockWasted`).
- With one trade a session the engine still enters twice in a session when bars come close together: with
  an opening range of n minutes (under a day) and bars d seconds apart or more, one entry a session (plus one
  for each gap reset) is guaranteed exactly when n + 1 spacings take at least those n minutes, and for every range
  exactly when bars are at least a minute apart (`OrbSpacing.SpacingExact`, `OrbSpacing.MinuteExact`,
  `OrbSpacing.TwoEntriesInOneSession`).
- When a bar closes through both swing references the structure tracker lets the bar's body decide. On valid
  candles that never happens (`Breaks.NeverBoth`).
- A stop "only tightens" in the simulator unless it stands at 0.0, which the simulator takes for "no
  stop": over any run some stop has loosened exactly when a sitter has asked for a looser one than that
  (`SimStops.LoosenedExactly`; a run in which it happens: `SimStops.ZeroStopLoosens`).
- A high-volume node always includes the point of control exactly when the threshold fraction is at
  most 1 (`Profile.PocIsNode`); the constructor does not insist on it.
- The edges of the value area can lie where nothing was ever traded, since rows are taken in pairs
  (`ProfilePrices.EdgeInGap`); a row has been traded exactly when it holds volume (`ProfilePrices.RowTraded`).
- `_check_alignment` has two halves, of which the second decides nothing: a change of character on this very
  bar has already made its direction the trend (`SmcChecks.AgreeIs`). `_check_premium_discount` speaks of the
  middle of the day's range and of a fallback; it takes the middle of the value area, and there is a point of
  control to fall back on only when there are levels (`SmcChecks.CheapIs`).
- The streaming aggregator emits a bucket for a bar out of order that the batch drops; the two agree
  exactly when no bar falls in a bucket before its predecessor's (`Aggregation.StreamMeetsBatch`).

## Model

| member | source | states |
|---|---|---|
| Broadcast.Conservation | orb/broadcast.py:71-190 | in every interleaving of one producer and the worker, whatever each send comes to: acknowledged events, then those the worker carries (spool, in flight, being drained), then the queue, are exactly the published events minus the evicted ones, in publish order; the server has the acknowledged ones in that order, repeats only adjacent, and at most the next event besides |
| Broadcast.NewestGetsIn | orb/broadcast.py:71-87 | no publish call ends with its own event rejected: it is the tail of the queue when the call returns |
| Broadcast.DroppedCount | orb/broadcast.py:77-87 | `dropped` is never below the number of evictions and equals it exactly when the worker never emptied the queue between the failed put and the get |
| Broadcast.DroppedOverCounts | orb/broadcast.py:78-82 | a run in which it over-counts |
| Broadcast.NothingLostAtExit | orb/broadcast.py:98-107 | once the worker has stopped on an empty queue every surviving event is acknowledged or in the spool |
| Broadcast.HandlerCommutes | orb/broadcast.py:71-120 | producer steps commute with worker actions, so handling an event in one piece loses no interleaving |
| Broadcast.HandledIsRun | orb/broadcast.py:111-190 | handling an event in one piece is a sequence of the worker's own atomic actions |
| Broadcast.HandledAcksPrefix | orb/broadcast.py:111-190 | handling an event acknowledges the longest prefix of backlog-then-event that the network lets through and leaves exactly the rest on disk, in order |
| Broadcast.RecoveryFlushes | orb/broadcast.py:161-190 | with a working network one event flushes the whole backlog ahead of itself |
| Broadcast.SurvivorsDrop | orb/broadcast.py:78-80 | evicting one event removes it from the account and changes nothing else |
| BroadcastClass.Broadcaster.constructor | orb/broadcast.py:46-67 | starts empty, with the events a former process spooled as backlog |
| BroadcastClass.Broadcaster.PutNowait | orb/broadcast.py:74 | appends, or refuses when the queue is full, and touches nothing else |
| BroadcastClass.Broadcaster.PublishPut | orb/broadcast.py:73-77 | is the producer's first step |
| BroadcastClass.Broadcaster.PublishEvict | orb/broadcast.py:78-82 | is the step that drops the oldest and counts |
| BroadcastClass.Broadcaster.PublishRetry | orb/broadcast.py:83-87 | is the step of the second put |
| BroadcastClass.Broadcaster.TakeOne | orb/broadcast.py:98-107 | is the worker's step of taking the oldest event or stopping |
| BroadcastClass.Broadcaster.Send | orb/broadcast.py:122-143 | reports success exactly on an acknowledgement; a lost acknowledgement still reaches the server |
| BroadcastClass.Broadcaster.Spool | orb/broadcast.py:152-159 | appends the event to the spool |
| BroadcastClass.Broadcaster.DrainLine | orb/broadcast.py:168-188 | posts one line, or writes it back with everything after it |
| BroadcastClass.Broadcaster.DrainSpool | orb/broadcast.py:161-190 | posts oldest first up to the first failure and keeps the rest |
| BroadcastClass.Broadcaster.Handle | orb/broadcast.py:111-120 | takes the worker where the specification of handling an event says |
| Leader.LatestIsLast | leader/store.py:57-74 | `latest(n)` is the last min(n, length) records exactly when n is positive or nothing is stored |
| Leader.SequenceNumbers | leader/store.py:26-55 | over every run of appends, failed appends and reopenings stored numbers strictly increase and the next append exceeds them all; the follower prints stored records only, in strictly increasing order |
| Leader.NumbersExact | leader/store.py:26-55 | over every run the next number is the last stored one plus one, plus the appends that have failed since unless the store was reopened |
| Leader.PollPrints | leader/follower_example.py:32-48 | a poll prints exactly the unseen records among the last n, and all unseen ones exactly when n is not positive or at most n wait |
| Leader.CaughtUp | leader/follower_example.py:32-48 | a follower that never had more than n waiting has printed the file up to where it stands |
| Leader.NothingMissed | leader/follower_example.py:32-48 | right after such a follower's poll it has printed the whole file, what was there at its first poll included |
| Leader.MissedForever | leader/follower_example.py:43-46 | a record a poll of any run has jumped over is never printed, whatever steps follow |
| Leader.LeaderStore.Load | leader/store.py:26-45 | finds the highest stored number |
| Leader.LeaderStore.AppendEvent | leader/store.py:47-55 | stores the event under the next number |
| Leader.FollowerProcess.Poll | leader/follower_example.py:37-46 | prints, and advances over, exactly what the specification of consuming a reply says |
| Pipeline.StoreHoldsReceived | leader/store.py:47-55 | the store holds exactly what the publisher's network delivered, in that order |
| Pipeline.LeaderInPublishOrder | orb/broadcast.py:98-190 | end to end the leader stores events in publish order, repeats only adjacent |
| Pipeline.FollowerMirrors | leader/follower_example.py:32-48 | a follower that keeps up has, right after a poll, printed just that |
| Pipeline.FollowerInPublishOrder | leader/follower_example.py:32-48 | even one that falls behind prints in publish order, and nothing that was evicted |
| OrderSend.GuardedExact | orb/broker/mt5.py:534-603 | with the entry guard, no one else opening positions and fills visible at the re-query, a call returns exactly when one fill happened and raises exactly when none did |
| OrderSend.GuardNeeded | orb/broker/mt5.py:561-570 | without the guard, or without visibility, an honest server makes the call raise although an order filled, and fill twice as soon as one retry is allowed |
| OrderSend.CallBounded | orb/broker/mt5.py:544-603 | for any server: at most max_retries + 1 sends, one filling rotation, max_retries sleeps, and max_retries * max_delay of sleep in all |
| OrderSend.SleepsAreBackoff | orb/broker/mt5.py:596-603 | under any policy the sleeps are the first m of the backoff's delays in order, the non-positive ones taken without sleeping, m within the budget; none is skipped where all are positive |
| OrderSend.Delays | orb/broker/retcodes.py:133-138 | the delays are base * mult^j capped at the maximum, one for each retry |
| OrderSend.OpenAtMostOnce | orb/broker/mt5.py:236-306 | over the whole ladder at most one fill, a return exactly when there is one, at most 3 * (max_retries + 1) sends, volumes that never rise, and the signal's own risk distances in every request |
| OrderSend.Ladder | orb/broker/mt5.py:257 | starts with the wanted volume, strictly decreases, has at most three rungs |
| OrderFlow.EachAnswer | orb/broker/mt5.py:534-603 | every call, send by send, in the return codes themselves: another send follows exactly when the answer is neither done nor refused, shows no new position where the guard looks for one, the rotation is not used up and the budget not exhausted; it is the same order but for a fresh price after a requote and a swapped filling mode; the last answer alone decides between returning and raising |
| OrderFlow.SleepsPerWait | orb/broker/mt5.py:596-603 | a call sleeps once after each answer that is followed by another send and is neither a requote nor a refused filling mode, each time for the multiplied, capped delay |
| OrderFlow.VolumeFallsOnNoMoney | orb/broker/mt5.py:236-306 | opening a position: the first order carries the signal's volume and distances; a refused send is followed by 0.02 and then 0.01 lots exactly when it was refused with 10019 (or the error text holds those digits) and there is a smaller volume left, and otherwise raised; the volume changes nowhere else |
| OrderClass.TallyExact | orb/broker/mt5.py:547-548 | every attempt is counted once under its own code |
| OrderClass.SendFromIsSend | orb/broker/mt5.py:544-603 | the loop, run on top of any history, adds exactly the trace of the specification |
| OrderClass.ClimbFromIsClimb | orb/broker/mt5.py:259-306 | so does the loop over the rungs |
| OrderClass.Mt5Broker.RecoveredEntry | orb/broker/mt5.py:524-532 | finds the first position that was not in the snapshot |
| OrderClass.Mt5Broker.Judge | orb/broker/mt5.py:549-584 | decides return, raise or retry as specified for every class of return code |
| OrderClass.Mt5Broker.Prepare | orb/broker/mt5.py:586-603 | swaps the filling, refreshes the price or sleeps, and counts the attempt |
| OrderClass.Mt5Broker.SendLoop | orb/broker/mt5.py:544-603 | ends with the outcome, log, sleeps, book and counters of the specification |
| OrderClass.Mt5Broker.SendPolicy | orb/broker/mt5.py:534-603 | takes the ticket snapshot and runs the loop |
| OrderClass.Mt5Broker.TryLadder | orb/broker/mt5.py:257-306 | tries the rungs as specified |
| OrderClass.Mt5Broker.OpenMarket | orb/broker/mt5.py:236-306 | opens as the specification that `OpenAtMostOnce` is about |
| Profile.VolumeConserved | orb/svp/profile.py:75-105 | over every bar sequence the total is the sum of the histogram and of the weights of the bars that counted, and the row bounds are tight |
| Profile.PocUnique | orb/svp/profile.py:202-214 | the heaviest row, lowest on a tie, is unique |
| Profile.PocOfExact | orb/svp/profile.py:202-214 | the scan finds it exactly when any volume has been seen |
| Profile.ValueAreaExact | orb/svp/profile.py:216-270 | the value area lies within the occupied rows, contains the point of control, holds at least the wanted share, would not without its last expansion, and that one took the heavier side |
| Profile.ExpandNested | orb/svp/profile.py:216-270 | a larger share gives an enclosing area |
| Profile.LevelsExact | orb/svp/profile.py:169-197 | a profile has levels exactly when it is ready, and its point of control lies within its value area |
| Profile.SuppressedSpaced | orb/svp/profile.py:313-327 | suppression leaves no two adjacent rows |
| Profile.NodesAlternate | orb/svp/profile.py:277-311 | no two high nodes are adjacent, so there is always a row between two of them; each low node lies strictly between two consecutive high ones and is no heavier than either |
| Profile.OneLowPerGap | orb/svp/profile.py:301-311 | at most one low node in each gap |
| Profile.PocIsNode | orb/svp/profile.py:289-299 | the point of control is a high node exactly when the fraction is at most 1; above it there is no high node |
| Profile.VolumeProfile.Feed | orb/svp/profile.py:75-105 | one bar changes the histogram, total and bounds as specified |
| Profile.VolumeProfile.PocRow | orb/svp/profile.py:202-214 | returns the heaviest row, lowest on a tie |
| Profile.VolumeProfile.Absorb | orb/svp/profile.py:252-269 | one turn keeps the running volume equal to the enclosed volume |
| Profile.VolumeProfile.ExpandFrom | orb/svp/profile.py:232-270 | terminates with the area of the specification |
| Profile.VolumeProfile.ValueArea | orb/svp/profile.py:216-270 | returns the area around the point of control, none exactly when nothing has been seen |
| Profile.VolumeProfile.TopOfRun | orb/svp/profile.py:313-327 | finds the whole plateau and its heaviest, lowest row |
| Profile.VolumeProfile.SuppressAdjacent | orb/svp/profile.py:313-327 | keeps exactly the top row of every run of adjacent rows |
| Profile.VolumeProfile.Valley | orb/svp/profile.py:305-308 | finds a lightest row of a gap |
| Profile.VolumeProfile.Peaks | orb/svp/profile.py:289-298 | finds exactly the local maxima above the threshold |
| Profile.VolumeProfile.Nodes | orb/svp/profile.py:277-311 | returns high and low nodes as characterised |
| ProfilePrices.RowVolume | orb/svp/profile.py:75-105 | over every bar sequence, in prices: a row's volume is the sum over the bars of an even share of each counted bar's weight among the price bands it meets |
| ProfilePrices.RowTraded | orb/svp/profile.py:75-105 | a row holds volume exactly when a counted bar meets its price band |
| ProfilePrices.RowPriceTraded | orb/svp/profile.py:192-197 | the price of a row with volume is within half a row of one a counted bar covers |
| ProfilePrices.LevelsTraded | orb/svp/profile.py:169-197 | the point of control is within half a row of a price covered, and the value area ends no further than that beyond the covered prices |
| ProfilePrices.LevelsAre | orb/svp/profile.py:169-197 | there are levels exactly after enough bars with some volume; they are the middles of the heaviest row and of the area's two outer rows |
| ProfilePrices.EdgeInGap | orb/svp/profile.py:216-270 | three bars whose value area ends where nothing was traded |
| ProfileVolumes.AreaInVolumes | orb/svp/profile.py:216-270 | the value area comes of the point of control by steps of two rows (or the one left) to the side where the next two hold more, the tie going as configured, until it holds the wanted share and not a step longer |
| ProfileVolumes.NodesInVolumes | orb/svp/profile.py:277-327 | a row is a high node exactly when it holds the wanted fraction of the heaviest, no less than the rows beside it, and the row below does not; a row is a low node exactly when it is the lowest lightest one between two consecutive high nodes and at most the wanted fraction of the mean occupied row |
| Babysitting.BabysitterSane | orb/babysitter.py:44-78 | with positive prices it asks for sane actions only, and every stop it asks for is strictly tighter than that of the position it is for |
| BabyRun.StopIsHighWater | orb/babysitter.py:44-78 | in every run of babysitter and simulator together the stop of every open position is that high-water mark of the closes the babysitter has seen it at |
| BabyRun.BabysatLife | orb/babysitter.py:44-78 | in every such run a position's stop only tightens, it is banked on at most once before it is closed, fills and open volume sum to its lots, and its loss is limited |
| BabyRun.SitterIsSane | orb/babysitter.py:44-78 | in every situation such a run puts it in, the babysitter is a sane sitter that asks for strictly tighter stops only |
| BabyRun.BabysatEquity | scripts/sim_realistic.py:184-203 | in every such run equity is the profit of the closed and the open positions |
| Babysitting.Babysitter.OnCandle | orb/babysitter.py:44-78 | returns the actions and keeps the trade states of the specification |
| BabyPrices.ActsByPrice | orb/babysitter.py:44-78 | on every bar each position shown gets exactly this: once, at partial_at_r risk distances of profit, that fraction of its volume closed, and its stop moved to the risk distance behind the close (the entry if that is better and breakeven is reached) if it has none or that protects more |
| BabyPrices.OthersGetNothing | orb/babysitter.py:44-78 | a ticket not shown gets nothing and is forgotten |
| BabyPrices.StopByCloses | orb/babysitter.py:44-78 | in every run an open position's stop is the nearest that is no looser than its first one, the risk distance behind any close it was shown at, and the entry once one of them has reached breakeven |
| Sim.EquityAndVolume | scripts/sim_realistic.py:123-203 | over every run with any sane sitter equity is the profit of closed and open positions, each position's lots are its fills plus what is open, its profit that of its fills, and a closed one has at most dust left |
| Sim.LossLimited | scripts/sim_realistic.py:123-203 | over every such run stops only tighten and no position has lost more than its lots times initial stop distance plus half a spread, plus commission |
| Sim.NeverLooserIffNonzero | scripts/sim_realistic.py:169-172 | an update can never loosen a stop exactly when the stop is not 0.0 |
| SimStops.LoosenedExactly | scripts/sim_realistic.py:156-172 | over any run, with any sitter, some position's stop has loosened exactly when some action asked for a stop on the losing side of 0.0 while the stop stood at 0.0 |
| SimStops.ZeroStopLoosens | scripts/sim_realistic.py:169-172 | a run of the simulator that does loosen one: the sitter asks for 0.0 and then 500.0, and the position loses more than its initial risk allows |
| SimClass.Simulator.LimitSet | scripts/sim_realistic.py:98-110 | places both limits with their shared stop, or nothing at zero risk |
| SimClass.Simulator.Market | scripts/sim_realistic.py:112-121 | opens at the price made worse by half a spread |
| SimClass.Simulator.ClosePart | scripts/sim_realistic.py:184-203 | books the fill, its profit and equity, and removes the position when only dust is left |
| SimClass.Simulator.DropPendings | scripts/sim_realistic.py:125-134 | removes exactly the expired and, on a spike, the old enough orders |
| SimClass.Simulator.FillTouched | scripts/sim_realistic.py:136-148 | opens exactly the touched orders |
| SimClass.Simulator.StopOut | scripts/sim_realistic.py:150-154 | closes exactly the positions whose stop the bar touches |
| SimClass.Simulator.ApplyActions | scripts/sim_realistic.py:156-172 | applies the sitter's actions in order |
| SimClass.Simulator.Bar | scripts/sim_realistic.py:123-182 | one bar: orders, stops, sitter, halt, in that order |
| SimMoney.EveryPrice | scripts/sim_realistic.py:98-203 | over every run, position by position and fill by fill: opened half a spread worse than a market price or a limit of its entry; profit plus commission on the volume is exactly the signed price move times volume times value per move; a stop fill is at the stop in force, any other at the bar's close half a spread worse |
| SimMoney.BarTakes | scripts/sim_realistic.py:123-154 | before the sitter's turn a bar leaves exactly the positions whose stop it has not touched and opens exactly the orders in time that it touches |
| SimMoney.HaltClears | scripts/sim_realistic.py:173-182 | a halted bar leaves no position open and closes each at the close half a spread worse |
| SimMoney.RoundTripCost | scripts/sim_realistic.py:184-203 | a market entry closed at an unchanged price loses exactly a full spread and the commission |
| Sizing.LotWithinBudget | orb/svp/sizing.py:26-63 | the loss at the stop exceeds the budget by at most 1e-9 of a volume step's worth, and unless the lot is capped or skipped one more step would exceed it |
| Sizing.LotExact | orb/svp/sizing.py:26-63 | no lot when balance, percentage, stop distance, value or what may still be lost today is not positive; otherwise the most whole steps that the smaller of the balance's percentage and that rest pays for, none if that is below the smallest volume, and at most the largest |
| Sizing.SizedEntryLoss | orb/svp/sizing.py:26-63 | in every run of the simulator a market entry of that lot loses at most the budget plus spread, commission and slack |
| Ladder.OneUpdate | orb/smc/exits.py:188-216 | at most one stop update per bar, after the closes, and none once the final stop is set |
| Ladder.RungsShape | orb/smc/exits.py:166-177 | rungs only ask for closes within what is left and leave at least the minimum volume, less the slack; a rung marked done stays done |
| Ladder.RungsOnce | orb/smc/exits.py:166-177 | each close is paid for by a rung newly marked done, so a rung fires at most once |
| Ladder.UpdateIsSafe | orb/smc/exits.py:130-216 | a stop asked for is strictly tighter and on the valid side of the close; the final one locks at least the promised multiple of the initial risk |
| Ladder.LadderExitManager.TakeRungs | orb/smc/exits.py:166-177 | takes the rungs of the specification |
| Ladder.LadderExitManager.ManageOne | orb/smc/exits.py:153-216 | one position on one bar, as specified |
| Ladder.LadderExitManager.OnCandle | orb/smc/exits.py:143-223 | all positions on one bar, forgetting those gone |
| LadderLevels.ActsByPrice | orb/smc/exits.py:130-216 | on one bar, in prices: a rung is newly done exactly when the close has gone its multiple of the risk distance beyond the entry; every such rung that whole volume steps and the minimum allow gets its close, and no other; at the final target all the rest is closed; the stop asked for is the stage's level for that close, where it protects more and the market allows it |
| LadderWatch.RungsByCloses | orb/smc/exits.py:143-223 | in every run of ladder and simulator together: a rung of an open position is done exactly when one of the closes the manager was shown it at had gone that far beyond the entry, and none had reached the final target |
| ClosedLoop.SweepApplies | scripts/sim_realistic.py:156-172 | the manager's list of actions, applied in order, does to each position exactly what its own part of the list says |
| ClosedLoop.PartsApply | scripts/sim_realistic.py:156-172 | for any manager: actions that fall into one part per position, applied in order, do to each position exactly what its part says |
| Lifetime.FinalEnds | orb/smc/exits.py:179-186 | reaching the final target closes exactly what the rungs have left, whichever of them a gap skipped |
| Lifetime.BarOfLife | orb/smc/exits.py:143-223 | on every bar a position goes on with the manager's state and the simulator's in step, or ends within its limits |
| LadderRun.LadderLife | orb/smc/exits.py:143-223 | in every run of ladder and simulator together a position's stop moves at most twice and only tightens, it has at most one fill per rung and a closing one, fills and open volume sum to its lots, its profit is that of its fills, and its loss is limited |
| LadderRun.OpenLife | orb/smc/exits.py:134-177 | while it is open, the final stop, reached in one move or in two, locks the promised profit, after any rung the minimum volume, less the slack, is still open, and each fill has a rung of its own marked done |
| LadderRun.LadderEquity | scripts/sim_realistic.py:184-203 | in every such run equity is the profit of the closed and the open positions, and a closed one has at most dust left |
| LadderRun.LadderSane | orb/smc/exits.py:143-223 | the ladder is a sane sitter, so what holds of the simulator under any sane one holds under it |
| Session.ClockForward | orb/session.py:39-67 | as time goes on session ids never decrease and within one id zones only move forward |
| Session.WindowMeaning | orb/session.py:62-67 | the opening window is exactly the first minutes after the open |
| Session.ZoneExact | orb/session.py:39-67 | each zone of each session exactly, in seconds since its open |
| Indicators.UpdateAtrInv | orb/indicators.py:46-68 | the average true range is ready exactly from the period-th bar on and never negative |
| Indicators.RollingSum | orb/indicators.py:112-127 | the rolling sum is the sum of the last `period` volumes over any number of bars |
| OrbGauges.AtrIsWeighted | orb/indicators.py:46-68 | over any bars Wilder's average is the weighted sum of their true ranges: even over the first n and fading by (n - 1) / n with each one after |
| OrbGauges.RocIsCloses | orb/indicators.py:70-98 | the rate of change compares the newest close with the one n bars before it |
| OrbGauges.SmaIsVolumes | orb/indicators.py:112-127 | the volume average is over the last n bars' volumes |
| OrbRuns.EveryRun | orb/engine.py:114-213 | in every run a position exists exactly in breakout, the range is then locked and known and the average true range ready, and transitions form one path of legal edges |
| OrbRuns.SignalsFollowGrammar | orb/engine.py:228-294 | signals follow entry, at most one partial exit, final exit, repeated, with matching direction and a stop that never loosens in between |
| OrbRuns.OnCandleInv | orb/engine.py:146-213 | one candle keeps all of that, whatever the state it finds, and emits at most one signal |
| OrbRuns.Run | orb/engine.py:114-213 | every run of candles and broker closes, of any length, ends in a state in which all of that holds |
| OrbSpacing.EntriesPerSession | orb/engine.py:146-252 | with one trade a session, bars at least d seconds apart and n + 1 spacings taking at least the n minutes of the opening range (or d at least a minute), at most one entry plus one per gap reset in each session, at any point of any run |
| OrbSpacing.TwoEntriesInOneSession | orb/engine.py:218-226 | for every opening range shorter than a day and every closer spacing, a run from the start with bars that far apart, two entries in one session and no gap |
| OrbSpacing.SpacingExact | orb/engine.py:218-226 | so, for every opening range of n minutes, shorter than a day, and every spacing d: every configuration and every run keeps to that bound exactly when (n + 1) d >= 60 n |
| OrbSpacing.MinuteExact | orb/engine.py:218-226 | and for opening ranges of any length exactly when bars are at least a minute apart |
| OrbOpenings.EntriesArePaidFor | orb/engine.py:218-226 | with one trade a session and bars of any length, a session's entries are at most the ranges it has opened plus its gap resets, so a second entry takes a second range opened within the window |
| OrbRange.RangeIsBars | orb/engine.py:218-252 | over every run the range's ends are the highest high and the lowest low of its own bars, counted and locked as the code does |
| OrbGauges.GaugesAreBars | orb/engine.py:196-213 | over every run the indicators are those of the bars in hours since the session began or the last gap reset |
| OrbSignals.EntryExact | orb/engine.py:323-408 | over every run a bar enters exactly when it is warm, its range final, its direction allowed, it passes the momentum gates and it closes above every bar of the range (long) or below every one (short); the stop is atr_mult average ranges behind the close, cut to the limits, the target tp_rrr times that ahead; any other bar enters nothing |
| OrbSignals.HoldExact | orb/engine.py:254-297 | over every run an ordinary bar of a position closes it back at the range, at its target (a part, if so configured) or at its stop, in that order, at that price, and otherwise ratchets the stop to the stop distance behind the close if that is tighter |
| OrbSignals.ForcedOut | orb/engine.py:114-202 | whatever else happens to a position closes it: the end of the session or a gap at the bar's close, the broker at its stop |
| OrbSignals.ResetMeans | orb/engine.py:183-195 | the engine starts anew exactly when, to the nearest bar length, more bars are missing than it puts up with, or any at all if it is to |
| OrbClass.Orb.ExitPosition | orb/engine.py:466-502 | leaves the position as the specified step |
| OrbClass.Orb.ForceFlatNow | orb/engine.py:114-144 | drops a position the broker has closed, as specified |
| OrbClass.Orb.ResetForNewSession | orb/engine.py:529-541 | is the specified reset |
| OrbClass.Orb.HandleGapReset | orb/engine.py:504-527 | is the specified gap reset |
| OrbClass.Orb.HandleIdle | orb/engine.py:218-226 | is the idle step |
| OrbClass.Orb.HandleRangeDefined | orb/engine.py:228-252 | is the range step, rebuild and lock included |
| OrbClass.Orb.HandleBreakoutCheck | orb/engine.py:323-372 | enters, rejects or waits as specified |
| OrbClass.Orb.TakePartial | orb/engine.py:433-447 | banks part of the position once |
| OrbClass.Orb.HandleBreakout | orb/engine.py:254-297 | holds or leaves as specified |
| OrbClass.Orb.FeedAndDispatch | orb/engine.py:196-213 | updates the indicators around the state's handler |
| OrbClass.Orb.SameSession | orb/engine.py:176-213 | a bar within the session |
| OrbClass.Orb.Feed | orb/engine.py:146-213 | `on_candle`, errors and dropped bars included |
| Structure.Refines | orb/smc/structure.py:59-96 | bar by bar the bounded-memory tracker says what a definition over the whole history of bars says |
| Structure.ReferenceExact | orb/smc/structure.py:61-96 | the last swing named is the latest strict extreme of its centred window with `lookback` bars after it; the reference is that swing until a break in its direction and empty from then on |
| Breaks.StandsUntilClose | orb/smc/structure.py:61-96 | on valid candles the reference is the latest swing exactly until a close goes through it |
| Breaks.NeverBoth | orb/smc/structure.py:76-83 | because on valid candles no bar of any run closes through both references |
| Breaks.TieBreakUnused | orb/smc/structure.py:79-83 | so the tracker never comes to the branch in which the body of the bar decides |
| Structure.NoSwingNoReference | orb/smc/structure.py:61-74 | without a swing there is neither |
| Structure.BreakGoesThrough | orb/smc/structure.py:76-96 | an event is a close beyond the latest confirmed swing, one nothing had broken since |
| Structure.BrokenOnce | orb/smc/structure.py:84-95 | each swing is broken at most once |
| Structure.KindExact | orb/smc/structure.py:84-95 | an event is a change of character exactly when the event before it went the other way |
| Structure.SwingBarsExact | orb/smc/structure.py:61-74 | the recorded swing bars are exactly the swings of the history |
| StructurePrices.BreaksInPrices | orb/smc/structure.py:59-96 | over every history, bar by bar, in prices: a break up exactly at a close above the high of the latest bar that stands out from its neighbours and has not been broken since, a break down likewise, each named by that price; the body decides between two |
| Structure.StructureTracker.StandsOut | orb/smc/structure.py:67-71 | decides whether the centre bar goes beyond all the others |
| Structure.StructureTracker.ConfirmCentre | orb/smc/structure.py:63-74 | records the swings the window's centre makes |
| Structure.StructureTracker.Feed | orb/smc/structure.py:59-96 | advances the tracker and emits as the step that `Refines` is about |
| Structure.StructureTracker.Reset | orb/smc/structure.py:127-133 | returns to the start |
| Evictions.AskExact | orb/smc/orderblocks.py:84-159 | after any run `poi_at` returns the latest available block, and none exactly when there is none; available: of that direction, overlapping, not pushed out of the bounded queues, and live: born of a displacement bar from the last opposite candle, confirmed by a same-direction break within confirm_bars, not touched or closed through since, not expired, not handed out |
| Evictions.EvictedWereCrowded | orb/smc/orderblocks.py:75-134 | after any run a block that was pushed out either had MAX_PENDING later births of its direction while it was queued as a candidate (up to the first break, and no longer than the confirm_bars it waits and the bar that ends the wait), or had maxBlocks later confirmations of its direction once confirmed |
| Crowding.PushedOutExactly | orb/smc/orderblocks.py:75-139 | every candidate so crowded has been pushed out, and a block that no break has confirmed in time has been pushed out exactly when it was |
| OrderBlocks.HandedOutOnce | orb/smc/orderblocks.py:146-159 | in every run a block is handed out at most once |
| OrderBlocks.QueuesStayShort | orb/smc/orderblocks.py:127-139 | both queues stay bounded and sorted by birth, and no candidate outlives its window |
| OrderBlocks.DropStaleExact | orb/smc/orderblocks.py:136-139 | in a queue sorted by birth, purging from the head only removes every stale candidate |
| OrderBlocks.LiveFrom | orb/smc/orderblocks.py:84-139 | which blocks are live after a bar: those that were and were left alone, and those it confirms |
| OrderBlocks.UpdateKeepsInv | orb/smc/orderblocks.py:84-143 | a bar keeps both queues sound (only what belongs) and complete (all that belongs, bar what is pushed out) |
| OrderBlocks.PoiKeepsInv | orb/smc/orderblocks.py:146-159 | so does handing out a block |
| OrderBlocks.Pick | orb/smc/orderblocks.py:155-158 | chooses an unspent overlapping block with none after it |
| OrderBlocks.OrderBlockTracker.SiftActive | orb/smc/orderblocks.py:92-106 | expires, invalidates and mitigates the active blocks of a direction |
| OrderBlocks.OrderBlockTracker.AddCandidate | orb/smc/orderblocks.py:111-123 | queues the block a displacement bar leaves |
| OrderBlocks.OrderBlockTracker.Promote | orb/smc/orderblocks.py:127-134 | activates the candidates still in time and clears the queue |
| OrderBlocks.OrderBlockTracker.Purge | orb/smc/orderblocks.py:136-139 | drops stale candidates from the head |
| OrderBlocks.OrderBlockTracker.Feed | orb/smc/orderblocks.py:84-143 | advances the tracker as the step the theorems are about |
| OrderBlocks.OrderBlockTracker.Poi | orb/smc/orderblocks.py:146-159 | hands out, and marks, the chosen block |
| BlockPrices.AskInPrices | orb/smc/orderblocks.py:84-159 | after any run asking hands out the latest block on offer, if any: the range of the last opposite candle among the ten before a bar that is wide against the average true range and mostly body, confirmed in time by a break that way, not traded into or closed beyond since, overlapping the prices asked for, not handed out or pushed out |
| Aggregation.StreamMeetsBatch | orb/smc/mtf.py:65-84 | from two minutes up, completed bars plus the developing one are the batch result exactly when no bar falls in a bucket before its predecessor's |
| Aggregation.StreamIsBatch | scripts/sim_realistic.py:222-253 | on strictly ascending whole-minute bars they agree for every timeframe, one minute included |
| Aggregation.BucketsExact | scripts/sim_realistic.py:236-253 | each bucket has first open, highest high, lowest low, last close and summed volume of exactly the bars that belong to it |
| Aggregation.BucketsInTime | scripts/sim_realistic.py:236-253 | in time: a bucket's bars are exactly those from its start, a whole number of timeframes after midnight, to one timeframe later on the same day |
| Aggregation.BucketOf | orb/smc/mtf.py:44-53 | which bucket a bar belongs to, in those terms |
| Aggregation.EveryBarCounted | scripts/sim_realistic.py:236-253 | every bar belongs to one of the buckets |
| Aggregation.StreamKeepsVolume | orb/smc/mtf.py:65-84 | no volume is lost or made up, in whatever order bars come |
| Aggregation.BatchKeepsVolume | scripts/sim_realistic.py:236-253 | nor by the batch when bars are in order |
| Aggregation.Composes | scripts/build_higher_tf.py:3-6 | aggregating by a and then by b is aggregating by b whenever a is at most a minute, b at least a day, or a divides b |
| Aggregation.StagesExact | scripts/build_higher_tf.py:38-39 | and for all a and b it is so for every ascending list exactly then |
| Aggregation.WithoutDivisor | scripts/sim_realistic.py:238-242 | two bars that show it in every other case |
| Aggregation.TimeframeAggregator.Feed | orb/smc/mtf.py:65-79 | folds a bar and emits the prior bucket as specified |
| Aggregation.TimeframeAggregator.Begin | orb/smc/mtf.py:55-58 | opens a bucket at its floored time |
| Aggregation.KeyIsOpenTs | orb/smc/mtf.py:44-53 | the bucket key and its open time say the same |
| Aggregation.AggregateCandles | scripts/sim_realistic.py:222-253 | the loop returns the specified buckets, or the input for at most one minute |
| SmcRuns.EveryRun | orb/smc/strategy.py:166-238 | in every run a position exists exactly while in a trade, transitions form one path of legal edges, entries and exits take turns and match, and every entry's stop is strictly protective at distance in (0, stop_max_dist] |
| SmcRuns.EntriesPerDay | orb/smc/strategy.py:195-275 | at most max_trades_per_day entries on each UTC date of the fed candle |
| SmcRuns.DecideExact | orb/smc/strategy.py:257-328 | a decision enters exactly when flat, biased, with entries to spare, enough checks, a point of interest and an affordable stop; and then with the bias |
| SmcRuns.StopBeyond | orb/smc/strategy.py:443-465 | the stop lies at least the buffer beyond the bar, the block and the swept level |
| SmcRuns.OneBlockPerDecision | orb/smc/strategy.py:277-328 | a decision uses up exactly one block or none, and one only after the other checks reach min_confluences - 1 and no point of control is near |
| SmcRuns.SpentForNothing | orb/smc/strategy.py:463-465 | a decision that uses up a block does not enter exactly when the stop is too far away |
| SmcWitness.BlockWasted | orb/smc/strategy.py:277-328 | a run from the engine's start whose last bar uses up a block and enters nothing |
| SmcHistory.ViewsAreHistory | orb/smc/strategy.py:207-224 | in every run each timeframe and its trend are those of all the bars fed so far |
| SmcHistory.CompletedAreBuckets | orb/smc/strategy.py:207-224 | the completed bars of each timeframe are those of the batch aggregation but the last |
| SmcHistory.EntryFollowsTrend | orb/smc/strategy.py:243-252 | after every run an entry is in the direction of the latest break among all completed four-hour bars, and the latest daily break, if any, is not opposed |
| SmcHistory.ZonesAreHistory | orb/smc/strategy.py:207-216 | in every run both sets of blocks are those the block tracker keeps for those bars and breaks and what has been used |
| SmcHistory.NoBlockUsedTwice | orb/smc/strategy.py:419-439 | in no run is a block used twice |
| SmcHistory.UsedBlockIsLive | orb/smc/strategy.py:419-439 | every block used was born of a displacement bar of its timeframe, confirmed in time by its structure, and not traded into or closed through since |
| SmcHistory.FedAscends | orb/smc/strategy.py:187-193 | accepted bars are strictly ascending |
| SmcChecks.RestIsHistory | orb/smc/strategy.py:195-232 | in every run today's profile, the prior levels, the indicators and the remembered bars are those of the bars fed so far |
| SmcChecks.ChecksAre | orb/smc/strategy.py:331-417 | the checks counted are, over the completed bars and in prices: the last bar has swept the latest swing or the last four-hour bar's end; it is a thrust not on low volume; it closes back through an opposite bar's open; the latest break agrees; it closes on the right side of the value area's middle |
| SmcChecks.AgreeIs | orb/smc/strategy.py:385-393 | the alignment check is that the latest break of structure agrees |
| SmcChecks.CheapIs | orb/smc/strategy.py:395-417 | a long at or below, a short at or above the middle of today's value area, once there is one |
| SmcChecks.TodayExact | orb/smc/strategy.py:195-205 | today's bars are the last of those fed and all that have the last one's date |
| SmcChecks.EntryInPrices | orb/smc/strategy.py:257-328 | over every run a bar opens a position this way with this stop, at the close of the trigger bar it completes, exactly when, over the bars fed: flat, entries left on this date, the four-hour trend goes this way and the daily one not the other, enough of those checks hold, a point of control is near or a block answers, and the stop, the nearest that leaves the buffer to bar, block and swept level, is near enough |
| SmcClass.Smc.TryOpen | orb/smc/strategy.py:443-481 | opens beyond the invalidation or not at all, as specified |
| SmcClass.Smc.FindPoi | orb/smc/strategy.py:419-439 | resolves the point of interest, using up a block only at the end |
| SmcClass.Smc.CountVotes | orb/smc/strategy.py:292-310 | counts the five read-only checks |
| SmcClass.Smc.Weigh | orb/smc/strategy.py:277-328 | weighs the confluence as specified |
| SmcClass.Smc.OnDecision | orb/smc/strategy.py:257-275 | decides on a trigger bar as specified |
| SmcClass.Smc.RollDay | orb/smc/strategy.py:195-205 | rolls the date, carries the ready profile and counts entries anew |
| SmcClass.Smc.FeedLonger | orb/smc/strategy.py:207-219 | feeds the daily and four-hour trackers what the bar completes |
| SmcClass.Smc.FeedTrigger | orb/smc/strategy.py:221-232 | feeds the trigger timeframe, decides, and remembers the bar |
| SmcClass.Smc.Feed | orb/smc/strategy.py:183-238 | `on_candle`, errors and dropped bars included |
| SmcClass.Smc.BrokerClosed | orb/smc/strategy.py:166-181 | drops a position the broker has closed and re-arms |
| Feed.ExactlyOnce | orb/feeds/mt5feed.py:164-177 | in every run bars come in strictly increasing time, and those from the first to the last have each come exactly once if and only if no round skipped one |
| Feed.NothingSkipped | orb/feeds/mt5feed.py:113-177 | in every run in which each round gets what it asks for and at most count - 1 bars close between successful rounds, every bar from the first that came up to the one forming at the latest round has come exactly once, in order |
| Feed.SkipsNone | orb/feeds/mt5feed.py:114-115 | a round skips none exactly when at most count - 1 bars have closed since the last one passed on |
| Feed.RoundDelivers | orb/feeds/mt5feed.py:164-169 | a round passes on the closed bars not yet passed on, and never the forming one |
| Feed.ClosedBetween | orb/feeds/mt5feed.py:23 | at most n bars close in n minutes |
| Feed.CatchUpCovers | orb/feeds/mt5feed.py:178-186 | the long request after a replay covers what closed meanwhile, if no more than a minute passes besides |
| Feed.OffsetLocked | orb/feeds/mt5feed.py:140-173 | over every run the offset, once locked, never changes, no candle comes before it is, and the shifted candles are never restated |
| Feed.ReconnectsBounded | orb/feeds/mt5feed.py:117-210 | the loop gives up on exactly the failed reconnect that makes max_reconnect_attempts in a row |
| FeedRounds.EveryRound | orb/feeds/mt5feed.py:113-210 | in every run each round, in seconds and counts: when a reconnect is tried, when the market counts as closed, the offset as the nearest whole hours, the long requests of the warm-up, and when silence is suspicious |
| Feed.Mt5Feed.TryReconnect | orb/feeds/mt5feed.py:201-209 | counts failures in a row and gives up at the limit |
| Feed.Mt5Feed.MissPoll | orb/feeds/mt5feed.py:116-138 | a round without rates |
| Feed.Mt5Feed.YieldNew | orb/feeds/mt5feed.py:164-177 | passes on exactly the unseen bars |
| Feed.Mt5Feed.PassOn | orb/feeds/mt5feed.py:157-186 | warm-up bookkeeping around them |
| Feed.Mt5Feed.Watch | orb/feeds/mt5feed.py:195-210 | the staleness watchdog |
| Feed.Mt5Feed.PollOnce | orb/feeds/mt5feed.py:113-210 | one round of the loop, as specified |
| Analytics.DrawdownExact | orb/analytics.py:117-127 | the running peak finds the deepest fall of the whole curve, and the percentage is that of the first point to reach it, relative to the peak before it |
| Analytics.ByCloseSorts | orb/analytics.py:120 | the curve is taken over all trades, sorted by closing time |
| Analytics.TablePartitions | orb/analytics.py:155-222 | each table splits the trades: rows in increasing order, counts and nets that sum to the totals, the last running total equal to the net |
| Analytics.HoursSplit | orb/analytics.py:165-186 | the hour table splits the trades over the hours of the day they opened in |
| Analytics.DurationsSplit | orb/analytics.py:189-222 | the duration table splits them over the five duration buckets, empty ones left out |
| TradeTables.DaysInTime | orb/analytics.py:155-162 | each row counts and adds up exactly the trades closed on its date and totals what has been made by its end; no trade's date is missing |
| TradeTables.HoursInTime | orb/analytics.py:165-186 | each row counts and adds up exactly the trades opened in that hour of some day |
| TradeTables.DurationsInTime | orb/analytics.py:189-222 | each row counts and adds up exactly the trades that lasted that long, in seconds |
| TradeTables.DrawdownInMoney | orb/analytics.py:117-127 | over the trades by closing time the drawdown is the deepest fall of what has been made, from the highest point so far, and its percentage that of the balance there |
| Analytics.BucketFrom | orb/analytics.py:189-212 | the first duration bucket a trade fits in; negative durations go to the first |
| Analytics.MaxDrawdown | orb/analytics.py:117-127 | the loop returns that drawdown |
| Analytics.Nets | orb/analytics.py:85-92 | count and net of every key that occurs, and of no other |
| Analytics.DailyTable | orb/analytics.py:155-162 | the days in order with a running total |
| Analytics.ByHour | orb/analytics.py:165-186 | the loops return the hour table |
| Analytics.ByDuration | orb/analytics.py:198-222 | the loops return the duration table |

## Left out

- HTTP, HMAC, sockets, JSON and file syscalls: a send is acknowledged, fails, or fails although it was received; a file operation succeeds or, in the store, fails as a whole. `_spool_backlog` is taken to answer truly, and stored lines to be whole.
- The threads themselves: the producer and the worker are interleaved step by step; `close` waits for nothing.
- Order blocks, positions, candles and orders are values, not shared objects: that a caller could change one it was handed is not modelled.
- The engines hold their trackers as values instead of objects; each tracker's own class is proved to compute the same function.
- `_send` without a retry policy, limit-mode orders in the broker, and everything else `Mt5Broker` does.
- The text of an error: the ladder's test for "10019" in it is a flag that return code 10019 sets and that anything else may set, since the text also holds the request.
- What the broker assumptions of `OrderSend.GuardedExact` rest on: a hedging account gives every fill a new ticket, and no one else opens positions.
- `SimClass.Simulator`: the equity curve list and the tag dictionary carried to the closed record. `halted` and `spike` are arbitrary inputs.
- `snapshot`, `reset` and `replay` of the engines, log lines, and the reason texts of signals and transitions.
- `Feed.Mt5Feed.PollOnce`: how long a round sleeps; the clock readings are arbitrary whole seconds, in order or not.
- `Analytics.TablePartitions`: win percentages and profit factors of a row, which are ratios of sums over the same split.
- IEEE floating point and decimal rounding, apart from the explicit slacks.
- `macro/`, `orb/svp/strategy.py`, `orb/svp/structure.py`, `orb/riskguard.py`, `orb/execguard.py`, `orb/symbols.py`, `orb/brokerstate.py`, `orb/tradeevents.py`, `orb/quarters.py`, `orb/trueopen.py`, `orb/cli.py`: they would repeat these arguments or add one-branch facts.
- `ProfileLevels.shape` and `_classify_shape`: a classification by thresholds with no guarantee over runs.
