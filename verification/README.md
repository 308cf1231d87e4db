# Verification of the PTP daemon

A model, in Dafny, of a PTP (IEEE 1588) daemon that speaks versions 1 and 2 of the protocol, with proofs
of what it promises. `dafny verify dfyconfig.toml` checks everything.

The project follows the program, file by file:

| Dafny file | program |
|---|---|
| `Arith`, `Crc`, `CrcDivision` | `src/arith.c`: signed second/nanosecond times with 32-bit wrap-around, their form on the wire, the CRC as a division of polynomials |
| `Servo`, `ServoClock`, `Convergence`, `ServoProperties`, `Steering` | `src/dep/servo.c`: filters, PI controller, clock steps, and which way they steer |
| `Bmc`, `V2Bmc`, `DataSets`, `Election`, `V2Election` | `src/bmc.c`, `src/v2bmc.c`: best master clock algorithms, data sets, state decision |
| `ForeignMasters` | `addForeign`, `addV2Foreign` of `src/protocol.c`: the table of foreign masters |
| `Timers` | `src/dep/timer.c` |
| `PortTypes`, `PortModel`, `PtpClocks`, `Daemon` | `src/protocol.c`: one port, its message handlers and its main loop |
| `PortTimers`, `PortFrames`, `PortParents`, `PortPairing`, `PortServo`, `PortOutput`, `DelayHandshake`, `DelayHalves` | what every run of a port keeps |
| `PortSending`, `PortMessages`, `Serving` | when a port sends, what each message does, what it answers |
| `Synchronization`, `DelayMeasurement`, `MasterAndSlave` | what a slave measures, round by round, and what its master contributes |
| `Scenario`, `Mispairing`, `DelayRuns` | concrete runs in which things go wrong |
| `Msg`, `WireLayout`, `TwoNodes` | `src/dep/msg.c`: packing into the shared buffer, octet by octet, and a delay exchange between two nodes |
| `Getopt`, `CommandLine` | `src/dep/getopt.c`: argument permutation, and what a command line means |
| `Octets`, `Products` | memcmp, and facts about products and truncated quotients |

Code that updates its state in place is modelled that way: `PtpClocks.PtpClock` is a class with the fields of a
port, its timers (an array), its table (an array) and its servo, and so are the scanner of getopt, the time cells of
`Arith` and the message buffer. Each method is proved to do what a function on values says; the functions of
`PortModel`, `DataSets`, `Servo` and `ForeignMasters` are those specifications, and the properties below are proved of
them for all inputs and, over `Run`, for all runs. `Daemon.RunPort` brings both together: a port object that is run
from power up has the properties. The methods of `PtpClock` stand for these parts of the program:

| method of PtpClock | program |
|---|---|
| `DoInit` | `src/protocol.c:343-464` |
| `DoState` | `src/protocol.c:468-626` |
| `ToState` | `src/protocol.c:630-833` |
| `Handle` | `src/protocol.c:836-1125` |
| `Dispatch` | `src/protocol.c:1117-1274` |
| `HandleSync` | `src/protocol.c:1476-1826` |
| `HandleFollowUp` | `src/protocol.c:1828-2013` |
| `DelayReqTxComplete` | `src/protocol.c:2015-2102` |
| `HandleDelayReq` | `src/protocol.c:2104-2177` |
| `HandleDelayResp` | `src/protocol.c:2179-2296` |
| `HandlePDelayReq` | `src/protocol.c:2299-2372` |
| `HandlePDelayResp` | `src/protocol.c:2375-2538` |
| `HandlePDelayRespFollowUp` | `src/protocol.c:2540-2669` |
| `HandleAnnounce` | `src/protocol.c:1320-1472` |
| `HandleManagement` | `src/protocol.c:2672-2720` |
| `V2StateDecision` | `src/v2bmc.c:468-533` |
| `StateDecision` | `src/bmc.c:543-599` |
| `M1` | `src/bmc.c:179-241` |
| `S1` | `src/bmc.c:245-295` |
| `V2S1` | `src/v2bmc.c:185-241` |
| `IssueSync` | `src/protocol.c:2778-2843` |
| `IssueAnnounce` | `src/protocol.c:2723-2776` |
| `IssueDelayReq` | `src/protocol.c:2911-2990` |

A run is any sequence of rounds of the main loop. Each round is given an input: what reception delivers (a failure,
nothing, or a message with arbitrary contents), the ticks that come in before each timer is looked at, whether each
send succeeds, random numbers and clock readings. A message carries every reading of its octets that a handler may
use. Its header of the other protocol version stands for what an earlier message left in the scratch area, and is
arbitrary too, so that the results cover whatever was left there. A port keeps histories (`log`, `measures`, and
`outbox`, the messages it has sent; ghost in the class) that the properties over runs speak of; they do not influence
the port.

## What turned out not to hold as one might expect

- Comparing two version 1 candidates both ways round gives opposite results exactly in the cases that
  `Bmc.OppositeWhenSwapped` lists (`Bmc.SwappingFails` shows others); never are both better. Under version 2 both can be better than the other
  (`V2Bmc.BothBetter` says exactly when, `V2Bmc.BothBetterHappens` shows two), because `src/v2bmc.c:320-321` compares an accuracy with a class and
  `src/v2bmc.c:329-330` repeats the test before it.
- Equal accuracies that are above the class make either of two version 2 clocks lose against the other. That is so with
  the default options, where the class is 251 (stratum 4) and the accuracy 0xFE (identifier DFLT, `src/ptpd.c:20-24`,
  `src/v2utils.c:123-124`, `src/v2utils.c:229-231`): ports with these options that hear one another all decide to be SLAVE,
  and none MASTER (`V2Election.DefaultsElectNoOne`). Ports agree on a master exactly if its clock is first in order and the
  comparison with every other is clear (`V2Election.OneMasterIsElected`, `V2Election.TwoPorts`).
- `v2copyD0` gives a port the priorities and quality of the grandmaster it follows for its own. A SLAVE of the lower
  identity, however bad its clock, therefore becomes MASTER in the round after the next Announce of its only master
  (`V2Election.LeavesItsMaster`, `V2Election.NextAnnounceUnseats`), exactly if the accuracy announced is within the class.
- A version 1 management message is translated to type 0xD (`src/protocol.c:1041-1042`), but its handler is chosen by 4
  (`src/protocol.c:1194`): no management message is ever handled (`PortOutput.ManagementIsNotHandled`), and in no run without
  messages of types that do not exist is a port DISABLED or its clock or interval changed (`PortOutput.NeverCommanded`).
- A DISABLED port does not stay so: a message that is too short, or a reception that fails, brings it back by way of
  FAULTY (`PortMessages.DisabledStays` says exactly when).
- At full speed only the nanoseconds of the offset are looked at: a clock that is a whole number of seconds ahead is
  sped up (`Steering.FullSpeedOpposes`, `Steering.FullSpeedTheWrongWay`, `src/dep/servo.c:676`).
- The adjustment that is remembered is a hundred times the one that gave the good rate (`Steering.RememberedHundredfold`,
  `src/dep/servo.c:758-764`).
- A clock reset keeps the interval between two Syncs where it should keep the time of the last: the next one finds a wrong
  interval (`Steering.LaterResetsAreOff`, `src/dep/servo.c:493-500`).
- A version 2 Sync without Follow_Up is corrected by what the last Follow_Up left behind
  (`Synchronization.OldCorrectionCounts`).
- Whether a Sync is ignored as one of a burst is read from the version 1 header under version 2 too, where it is what an
  earlier message left behind (`PortMessages.SyncIsAccepted`).
- After 999 delay requests a SLAVE sends none until the 16-bit counter has wrapped (`Synchronization.AcceptedSteers`, with
  `Synchronization.CountsDown`; `src/protocol.c:1712-1713`).
- A Pdelay_Resp that comes in before the own Pdelay_Req has been looped back, with the loop-back before its Follow_Up, is
  measured without the time of the Follow_Up, and the Follow_Up makes the port FAULTY (`DelayMeasurement.PeerOvertaken`).
- If a second peer asks before the response to the first has come back, the Follow_Up of that response goes to the second
  (`Serving.SecondPeerIsFollowedUp`).
- A start puts the number of the last Sync back to 0, but a Sync that waits for its time stamp goes on waiting
  (`PortOutput.NumberLostOnStart`); otherwise Follow_Ups have the number of their Sync (`PortOutput.FollowUpsCompleteSyncs`).
- Similar variance is not transitive, so that the order of the records may decide (`Bmc.CircleOfSimilarClocks`): it
  does not exactly if one record beats all others (`Bmc.OrderDoesNotMatter`), and ports that hear one another agree on
  a master exactly if the clock of one beats all others (`Election.OneMasterIsElected`).
- `initData` forgets the foreign masters but not the write position; the ring order is lost with the next new record
  exactly unless that position is 0 (`ForeignMasters.ForgettingNeedsTheStart`). For version 1 a
  Follow_Up then need not have the number of the Sync it completes: `Mispairing.DisorderBreaksPairing` is a run of
  nine rounds. It has it exactly if the Sync last applied has that number, as is the case with the same parent if
  the records of the parent agree with the number noted at every decision, or the table was last emptied at position 0 (`PortPairing.FollowUpsArePaired`).
- After a failed Delay_Req a port is FAULTY with its receipt timer running, and becomes MASTER from there exactly if it
  may be master and enough ticks come in within the round (`PortTimers.FaultyBecomesMaster`; a run:
  `DelayRuns.FaultyToMaster`).
- The order of the two halves of a delay measurement does not matter exactly if both times have non-zero seconds or
  neither has (`DelayHandshake.OrderOfHalves`). Neither time is tied to a request: a half left over from an
  earlier one is measured with the first half of the next (`DelayRuns.MixedMeasurement`), exactly if it is there when
  that request is issued (`DelayHalves.FirstMeasurementExactly`; for all runs `DelayHalves.HalvesInEveryRun`).
- The domain of a response is not put back: later messages go out in the domain of the last request answered
  (`Msg.StampSurvives`).
- Rearranged arguments are scanned alike a second time, unless an option that missed its argument the first time now
  finds an operand to eat (`Getopt.RescanIsStable`, `Getopt.RescanEatsOperand`).
- The full adjustment, not a hundredth of it, is given to the operating system exactly if the offset has seconds, the
  clock may not be reset and adjusting is on (`ServoProperties.FullSpeedExactly`, `src/dep/servo.c:670-678`).
- An offset of exactly -1 ns is taken for a missing one by the offset filter (`ServoProperties.FilteredOffsetIsFound`).

## Model

| member | source | states |
|---|---|---|
| PortTimers.TimersInEveryRun | src/protocol.c:468-833 | In every state a port can reach: MASTER has the Sync timer started with its interval, the receipt timer stopped, the Announce timer started exactly under version 2; LISTENING, PASSIVE and SLAVE have the receipt timer started and both transmission timers stopped; PRE_MASTER and UNCALIBRATED are never entered; a SLAVE is at most seven Syncs away from its next delay request |
| PortTimers.SlaveOnlyIsNeverMaster | src/protocol.c:566-593 | A slave-only port is not MASTER in any run, with messages of either version and any management message |
| PortTimers.TimeoutsRun | src/constants.h:108-109 | Cut to 16 bits, the receipt timeout is not 0 exactly for intervals up to 14, the transmission timeout exactly for intervals up to 15 |
| PortTimers.SilenceTimesOut | src/protocol.c:553-595 | Without messages a port that waits keeps its state while fewer ticks have gone by than the timer had left; with the round that brings the rest it has forgotten the foreign masters and is MASTER, or LISTENING if it may not be master |
| PortTimers.AcceptedSyncRestarts | src/protocol.c:1707-1723 | After an accepted Sync the receipt timer has its full time; the port is FAULTY exactly if a delay request was due, allowed by the debug counter, and could not be sent |
| PortTimers.FaultyBecomesMaster | src/protocol.c:1707-1723 | If an accepted Sync leaves the port FAULTY, the receipt timer makes it MASTER without initialization exactly if the port may be master and at least as many ticks as the timeout has, but not none, come in before the timer is looked at |
| PortTimers.FaultyRound | src/protocol.c:553-595 | The state after a whole round in which a SLAVE accepts a Sync: SLAVE, or FAULTY if the delay request due could not be sent, or else MASTER or LISTENING exactly if the timeout is not 0 and as many ticks came in |
| DelayRuns.FaultyToMaster | src/protocol.c:1707-1723 | A concrete run from power up whose sixth round takes a SLAVE through FAULTY to MASTER |
| PortTimers.ChangeOfState | src/protocol.c:630-833 | Every change of state that occurs establishes the timers of the state entered |
| PortTimers.DoStateTimers | src/protocol.c:468-626 | One round keeps the timer invariant |
| PortSending.SilentMaster | src/protocol.c:597-616 | One round of a MASTER with no decision pending that hears nothing: it sends a Sync, with the next number, exactly if its Sync timer is flagged or as many ticks came in as it had left, and an Announce exactly under version 2 likewise, the ticks after a Sync that failed not counted; the Sync then waits for its time stamp, and whatever could not be sent leaves the port FAULTY; else neither number changes and nothing is sent |
| PortSending.SyncsOnTime | src/protocol.c:599-604 | However the ticks fall into silent rounds, the next Sync goes out in the round in which the ticks left have come in by the time of the look, and none before |
| PortSending.AnnouncesOnTime | src/protocol.c:607-611 | Likewise the next Announce under version 2 |
| PortSending.Version1IsSilent | src/protocol.c:2732-2736 | Under version 1 no number of rounds brings an Announce |
| PortSending.SyncsInAll | src/protocol.c:599-604 | With ticks one at a time, any number of silent rounds brings one Sync for every interval that the ticks looked at make up |
| PortSending.AnnouncesInAll | src/protocol.c:607-611 | And one Announce for every announce interval |
| PortSending.TimeoutStartsSending | src/protocol.c:720-770 | A port whose receipt timeout passes in silence is MASTER with both transmission timers at their full time, the Announce timer exactly under version 2 |
| PortSending.SyncsFillSilence | src/protocol.c:553-616 | From the timeout of a waiting port on, over any number of silent rounds, the number of its Syncs is that of the intervals gone by |
| PortSending.AnnouncesFillSilence | src/protocol.c:553-616 | And that of its Announces, under version 2; none under version 1 |
| Serving.MasterAnswers | src/protocol.c:2104-2177 | A MASTER answers a Delay_Req exactly if it is of another port, with technologies that agree under version 1 and a time of reception with seconds: with its number, its sender, that time less the latency, and under version 2 its correction; if that cannot be sent it is FAULTY; otherwise nothing changes |
| Serving.SyncIsFollowedUp | src/protocol.c:1277-1296 | A Sync of the port itself that comes back is followed up exactly if one is pending and it has that number: once, with that number and the time it was sent plus the latency |
| Serving.PeerIsAnswered | src/protocol.c:2347-2366 | From LISTENING on, a Pdelay_Req of another port is answered with its number and the time of its reception, and its header is kept |
| Serving.PeerIsFollowedUp | src/protocol.c:2402-2420 | The own Pdelay_Resp that comes back is followed up to the port whose header is kept, with the time it was sent plus the latency |
| Serving.SecondPeerIsFollowedUp | src/protocol.c:2356-2366 | If another port asks in between, the Follow_Up of the response to the first goes to the second |
| PortMessages.ServoOfChange | src/protocol.c:649-833 | A change of state touches the servo exactly if SLAVE is left or entered; then offsets, drift and both delays between the clocks are cleared and the base rate is given anew, while delay and filter value in use stay |
| PortMessages.NewSlave | src/protocol.c:792-816 | A new SLAVE waits four to seven Syncs for its first delay request and for no Follow_Up |
| PortMessages.MasterIsReference | src/bmc.c:179-241 | A decision for MASTER leaves no offset, delay or steps, and the own identity, priorities, quality and Sync number as grandmaster |
| PortMessages.TimeoutIsReference | src/protocol.c:566-581 | So does a receipt timeout of a port that may be master, and it forgets the foreign masters |
| PortMessages.StartingStratum | src/bmc.c:66-140 | A slave-only port starts with stratum 255, any other with that of its options, or 4 if that does not exist |
| PortMessages.Starting | src/protocol.c:343-464 | The round that starts a port: FAULTY and the end of the loop without a network; otherwise LISTENING with its receipt timer at the full time, all numbers 0, no foreign masters, a cleared servo, the interval last set, and its own clock as reference |
| PortMessages.IntervalSetLater | src/dep/msg.c:575-675 | A Sync interval set by a command is in use from the next start on, and not before |
| PortMessages.CommandedState | src/dep/msg.c:575-675 | The state each command leads to, and that every command makes the port decide again |
| PortMessages.CommandedClock | src/dep/msg.c:575-675 | What each command makes of the own clock; the stratum of a slave-only port stays |
| PortMessages.DisabledStays | src/protocol.c:836-1125 | A DISABLED port stays so in a round exactly unless it is commanded otherwise, reception or the answer to a query fails, or a message shorter than its handler wants comes in; then it is FAULTY or INITIALIZING |
| PortMessages.SyncIsAccepted | src/protocol.c:1521-1590 | A SLAVE accepts exactly the Syncs of its parent with a time of reception and a new number, unless the version 1 header at hand has the burst flag, and notes sender, number and time; any other leaves servo, history and Sync in progress alone |
| PortMessages.SyncCountsOnce | src/protocol.c:1581-1586 | A second copy of a Sync of the parent, whenever it comes in, changes nothing |
| PortMessages.AnnounceCountsOnce | src/protocol.c:1370-1432 | Nor does a second copy of an Announce of the parent |
| PortMessages.SyncIsRemembered | src/protocol.c:1730-1790 | Outside SLAVE a Sync of another clock is remembered exactly under version 1, with a time of reception and technologies that agree; else nothing changes |
| PortMessages.AnnounceIsRemembered | src/protocol.c:1320-1472 | From LISTENING on an Announce of another clock is remembered, unless it is one of the parent seen before; a new one of the parent also brings grandmaster, priorities, quality and distance |
| PortMessages.PeerRespondsOnce | src/protocol.c:2435-2490 | A Pdelay_Resp makes the port FAULTY exactly if peer delay is off, another port asked for it, or it has the current number and was not asked for or is the second |
| PortOutput.FollowUpsCompleteSyncs | src/protocol.c:1277-1296 | In every run each Follow_Up sent completes the Sync sent last, no Sync gets two, and the number is that of the Sync, or 0 after a start in between |
| PortOutput.NumberLostOnStart | src/bmc.c:52-176 | That exception is needed: after a start with a Sync pending, an own Sync with number 0 is followed up as 0 |
| PortOutput.SlaveOnlyStratum | src/dep/msg.c:575-675 | Whatever it receives, a slave-only port that has stratum 255 keeps it in every run |
| PortOutput.SlaveOnlyStratumFromPowerUp | src/bmc.c:66-140 | And has it from its first start on |
| PortOutput.ManagementIsNotHandled | src/protocol.c:1041-1042 | A version 1 management message, whatever it commands, changes nothing but the type noted as 0xD |
| PortOutput.CommandsAreOdd | src/protocol.c:1194-1210 | What is taken for a command instead: exactly a version 1 message with a control field above 4 after a version 2 message of type 4 |
| PortOutput.NeverCommanded | src/protocol.c:1194-1210 | In every run without version 2 messages of type 4 the port is never DISABLED, and its interval and own clock are those of its options |
| PortOutput.NeverCommandedFromPowerUp | src/protocol.c:269-341 | So it is in every such run from power up |
| PortPairing.FollowUpsArePaired | src/protocol.c:1858-1992 | In runs with messages of one version, every correction noted of a Follow_Up has the time of reception of the last Sync accepted, and no Sync twice; as long as no message of another master has been applied since, the sender of the Follow_Up is that of the Sync. The number the Follow_Up carries is that of the Sync under version 2; under version 1 it is that of the Sync last applied, so that it is that of the Sync accepted exactly if the two are the same; with the same parent they are if, at every decision since, the records of the parent in use had the number noted, or if the table was last emptied with its write position at the start (PortPairing.NotedIsUsed: what is noted is what the clock is corrected by) |
| PortPairing.NotedIsUsed | src/protocol.c:1936-1992 | While a port stays SLAVE, a Follow_Up is either noted, with the sender and the number it carries, and corrects the clock by its own time, the time of reception noted and both corrections; or it changes neither log nor servo |
| Synchronization.AcceptedSteers | src/protocol.c:1617-1723 | An accepted Sync without Follow_Up corrects the clock by its own time stamp, its time of reception and its correction; one with a Follow_Up notes reception and correction and leaves the servo alone; either counts down to the delay request, which goes out exactly if it is due and the 16-bit counter of requests is below 1000 |
| Synchronization.SyncSteers | src/protocol.c:468-626 | The same over a whole round, whether a decision comes before it or not |
| Synchronization.FollowUpSteers | src/protocol.c:1828-2013 | A round with the Follow_Up waited for corrects by its time stamp, the time of reception of its Sync and both corrections |
| Synchronization.TwoStepsSteer | src/protocol.c:1828-2013 | A Sync and its Follow_Up correct the clock exactly as a one-step Sync with the time stamp of the Follow_Up would |
| Synchronization.SteeredMeasures | src/dep/servo.c:364-426 | A Sync that took a given time by the two clocks, less corrections, makes exactly that the delay to the slave, and exactly the rest over the delay in use the offset, smoothed with the sample before |
| Synchronization.SyncFindsOffset | src/protocol.c:1674-1696 | A one-step Sync over a link of delay d with a clock ahead by off, latency taken off: the offset found is d + off less the delay in use, smoothed |
| Synchronization.SlaveSteersToMaster | src/dep/servo.c:680-758 | With the delay known and no sample before, the offset is off itself; the one rate given goes against it unless the drift opposes, and not too far if the drift is at most 198 times as large |
| Synchronization.OldCorrectionCounts | src/protocol.c:1637-1657 | Under version 2 the delay to the slave measured by a Sync without Follow_Up is right exactly if the last Follow_Up left no correction |
| Mispairing.DisorderBreaksPairing | src/bmc.c:103-103 | That condition is needed: a concrete run, with one initialization that finds the write position at 1, in which a Follow_Up of the unchanged parent with number 5 is taken to complete its Sync with number 1 |
| PortPairing.TableInEveryRun | src/protocol.c:3189-3294 | In such runs the table is a ring with one record for each master whenever it was last emptied with its write position at the start, and the best record of a SLAVE is in use |
| PortPairing.V1AcceptTracks | src/protocol.c:1581-1723 | An accepted version 1 Sync, which goes into the table and rewrites the parent data set, leaves the invariant behind the pairing intact |
| PortPairing.V2AcceptTracks | src/protocol.c:1637-1700 | The same for an accepted version 2 Sync |
| PortPairing.DecisionTracks | src/bmc.c:603-660 | Although a decision rewrites the sequence number of the last Sync, it keeps that invariant: if the parent stays, so does the number |
| PortPairing.StepTracks | src/protocol.c:468-626 | So does every round |
| PortParents.DataSetsInEveryRun | src/protocol.c:468-626 | In every state a port can reach, with messages of both versions: MASTER has itself as parent and grandmaster, with port number 0, and no steps removed; SLAVE and PASSIVE have the sender of the message last applied as parent, the grandmaster it names, and one step more than it says, modulo 2^16 |
| PortParents.DecisionSetsData | src/bmc.c:543-599 | A decision for MASTER leaves the own data sets, one for SLAVE or PASSIVE those of the record applied |
| PortParents.AcceptedDataSets | src/protocol.c:1581-1723 | Accepting a Sync keeps the data sets those of the message last applied |
| PortParents.AnnounceDataSets | src/protocol.c:1320-1472 | Handling an Announce keeps the data sets those of the message last applied |
| PortParents.OnlyTheParentSteers | src/protocol.c:1476-2296 | A Sync, Follow_Up, Delay_Req, Delay_Resp or Announce of another clock than the parent, at least as long as its kind and version ask for, changes neither servo nor data sets, Sync, delay request or state of a SLAVE |
| PortServo.ServoInEveryRun | src/dep/servo.c:51-758 | Whatever a port receives, its servo stays within the limits of ServoProperties.Bounded; only an INITIALIZING or FAULTY port can have one that has never been initialized |
| PortFrames.ManagementIsQuiet | src/dep/msg.c:575-675 | A management message leaves reference, table and Sync in progress alone and keeps the state or makes the port INITIALIZING, FAULTY or DISABLED |
| PortFrames.OtherPacketsAreQuiet | src/protocol.c:1126-1273 | Any message but Sync, Follow_Up and Announce leaves reference, table and Sync in progress alone |
| PortFrames.SeenSyncIsQuiet | src/protocol.c:1730-1824 | Outside SLAVE, or from another sender, a Sync is at most remembered, and only under version 1, from others, with a matching technology |
| DelayHandshake.OrderOfHalves | src/protocol.c:2060-2101 | With a request outstanding, transmission first and response first end in the same state (but for the history) exactly if both times have non-zero seconds or neither has; with non-zero seconds both measure the delay exactly once and clear both times, the correction and the request |
| DelayHandshake.OrderRequestFirst | src/protocol.c:2060-2101 | What transmission first does, for all times |
| DelayHandshake.OrderResponseFirst | src/protocol.c:2244-2284 | What response first does, for all times |
| DelayHandshake.MeasuredOnce | src/protocol.c:2204-2208 | A second copy of either half does not touch the servo |
| DelayHandshake.FirstRequestIsOutstanding | src/protocol.c:792-816 | The first request of a new SLAVE starts with both halves missing |
| DelayHandshake.EarlierHalfIsUsed | src/protocol.c:2268-2284 | The first half of a new request is measured with the other half of an earlier one exactly if that was there, with non-zero seconds, when the request was issued: a loop-back with the earlier response, a response with the earlier transmission |
| DelayHalves.FirstMeasurementExactly | src/protocol.c:2911-2990 | After a request is issued and its own two halves come in, the first delay measured is that of one request exactly if no earlier response was there at the issue, loop-back first, or no earlier transmission, response first |
| DelayHalves.HalvesInEveryRun | src/protocol.c:2015-2296 | In every run, each delay noted as measured has the time of the last loop-back and of the last response accepted, neither used before nor from before the port became SLAVE; the number the response carried was that of the last request; it is the delay of one request exactly if both halves came after the last request was issued and the loop-back carried its number, and a half that came before was there when it was issued (DelayHalves.NotedIsMeasured: what is noted is what the servo is given) |
| DelayHalves.NotedIsMeasured | src/protocol.c:2060-2284 | While a port stays SLAVE, a looped back request or a response changes the servo exactly by the measurement it notes, with the two times and the correction noted |
| DelayRuns.MixedMeasurement | src/protocol.c:2015-2296 | Two concrete runs from power up that end in a delay measured with halves of two requests, one for each half that can be left over |
| DelayMeasurement.LoopBackMeasures | src/protocol.c:2015-2102 | A round with the own Delay_Req: its time of transmission, latency included, is kept, or measured with the response that is there |
| DelayMeasurement.ResponseMeasures | src/protocol.c:2179-2296 | A round with the response waited for, likewise with its time of reception and correction |
| DelayMeasurement.RequestFindsDelay | src/dep/servo.c:272-340 | If the delay to the slave is d + off and the request took d - off, the delay found is exactly d: in use as it is from a second on, which clears the filter, else through the filter |
| DelayMeasurement.ExchangeFindsDelay | src/protocol.c:1476-2296 | Three rounds over a symmetric link, a one-step Sync on which a request is due, and its loop-back and response in either order, find exactly the delay of the link, whatever the offset, latencies and corrections; the response carries the next number |
| DelayMeasurement.TwoStepExchangeFindsDelay | src/protocol.c:1476-2296 | Four rounds with a two-step Sync find the same, and the offset |
| DelayMeasurement.PeerMeasures | src/protocol.c:2299-2669 | The delay to a peer is measured once, with all four times and both corrections, if the own request is looped back before the response or after its Follow_Up |
| DelayMeasurement.PeerOvertaken | src/protocol.c:2333-2346 | In between, it is measured without the time of the Follow_Up, which then makes the port FAULTY |
| DelayMeasurement.PeerLinkIsExact | src/dep/servo.c:136-194 | The delay measured is exactly that of the link, whatever the clock of the peer, its turnaround time and the corrections added on the way |
| DelayMeasurement.PeerFindsDelay | src/protocol.c:2299-2669 | So the three messages find exactly the delay of the link |
| MasterAndSlave.SlaveFindsLink | src/protocol.c:1476-2296 | A master port and a slave port, each with its own latencies: the Follow_Up and Delay_Resp that the one sends make the other find its offset and exactly the delay of the link |
| TwoNodes.ResponseIsAccepted | src/protocol.c:2225-2258 | The Delay_Resp a master packs to a slave's Delay_Req passes that slave's test if the master is its parent, brings the correction of the request back, and the time of reception unchanged exactly for seconds below INT_MAX |
| TwoNodes.DelayExchange | src/dep/msg.c:1226-1276 | The exchange over two buffers: whatever message has the readings of the master's buffer is accepted, with time and correction unchanged |
| Msg.StampSurvives | src/dep/msg.c:838-861 | After any sequence of messages over one header: version 2, the node's transport and port identity; type, length, sequence number and correction of the last message; the domain of the last request answered |
| Msg.PackAll | src/dep/msg.c:863-994 | The same of the octets in the buffer, with time stamp, requester and contents of an Announce as unpacked |
| Msg.PackV2Header | src/dep/msg.c:838-861 | Unpacking gives the node's stamp, no flags, and everything else as before |
| Msg.PackAnnounce | src/dep/msg.c:863-936 | Unpacking gives the Announce packed, with its header, time stamp and contents; the reserved octet is zero and every octet behind the 64 of the message is unchanged |
| WireLayout.MessageStands | src/dep/msg.c:838-1375 | A packed message octet for octet: its header, its time stamp, the contents of an Announce, the requester or ten zeros, and behind it what was there |
| WireLayout.HeaderStands | src/dep/msg.c:200-262 | The header read from a buffer is what its first 34 octets say, each field in its place, numbers with the high octet first |
| WireLayout.StandsAnnounce | src/dep/msg.c:274-320 | The contents of an Announce are octets 44 to 63 in their order |
| WireLayout.TypeStands | src/dep/msg.c:863-1375 | Type, length and control field of every message by their numbers, and the flags of Sync and Pdelay_Resp |
| Msg.PackV2Sync | src/dep/msg.c:938-994 | Unpacking gives the Sync packed; the stamp and every octet behind the 44 of the message are unchanged |
| Msg.PackV2DelayReq | src/dep/msg.c:1046-1077 | Unpacking gives the Delay_Req packed; the stamp and every octet behind the 44 of the message are unchanged |
| Msg.PackV2PDelayReq | src/dep/msg.c:1079-1114 | Unpacking gives the Pdelay_Req packed, its ten reserved octets are zero; the stamp and every octet behind the 54 of the message are unchanged |
| Msg.PackV2FollowUp | src/dep/msg.c:1166-1201 | Unpacking gives the Follow_Up packed, with the flags of the message before; the stamp and every octet behind the 44 of the message are unchanged |
| Msg.PackV2DelayResp | src/dep/msg.c:1226-1276 | Unpacking gives the Delay_Resp packed, with requester, domain, correction and sequence number of the request |
| Msg.PackV2PDelayResp | src/dep/msg.c:1278-1328 | Unpacking gives the Pdelay_Resp packed, with requester, domain and sequence number of the request |
| Msg.PackV2PDelayRespFollowUp | src/dep/msg.c:1330-1375 | Unpacking gives the Pdelay_Resp_Follow_Up packed, with requester, domain, correction and sequence number of the request |
| Msg.PackFollowUp | src/dep/msg.c:1203-1224 | Unpacking gives the version 1 Follow_Up packed; the burst and statistics flags are cleared; the octets that are not its own are unchanged |
| Msg.FollowUpOverWire | src/dep/msg.c:428-434 | A time sent in a version 1 Follow_Up comes back exactly if its seconds are below INT_MAX and its signs agree, the half epoch exactly if the seconds are |
| Election.OneMasterIsElected | src/bmc.c:543-660 | Ports that hear one another, with different UUIDs and stratum 3 to 254, all decide for the same one as MASTER and for SLAVE with that port as parent, whatever the order of their records, exactly if its clock beats all others |
| Election.RankableElect | src/bmc.c:543-660 | With transitively similar variances there is such a port |
| Election.HearsTheWinner | src/bmc.c:632-651 | The scan of every other port finds the record of the clock that beats all others |
| Election.FollowsItsBetter | src/bmc.c:593-598 | A port becomes the SLAVE only of a port whose clock beats its own |
| Election.DecidesByBest | src/bmc.c:579-598 | With stratum 3 to 254 a port decides for MASTER exactly if it is better than its best record, else for SLAVE of that record |
| Election.DecidesByStratum | src/bmc.c:543-599 | A version 1 port decides for SLAVE if it is slave-only or of stratum 255, else for MASTER exactly if it is better than its best record, and else for PASSIVE up to stratum 2 and SLAVE from stratum 3; the data sets are its own or those of the record |
| Election.HearsItsOwnClock | src/bmc.c:436-539 | A best record that names the own clock as grandmaster is outdone exactly by the shorter way, by one step only if it is not of the port itself |
| Election.AccurateDecides | src/bmc.c:561-578 | A clock of stratum up to 2 against a record that differs in preference, stratum or identifier: MASTER exactly if it is ahead, in this order, else PASSIVE |
| V2Election.OrderExactly | src/v2bmc.c:276-390 | Of two version 2 clocks none is better exactly if they agree down to an accuracy above the class; exactly one exactly if they are clear, and that is the first by priority1, class, accuracy, variance, priority2 and identity |
| V2Election.LowestIsKept | src/v2bmc.c:537-596 | The scan keeps the record that is first in order and clear of all others, wherever it stands |
| V2Election.FirstIsKept | src/v2bmc.c:537-596 | Among records all clear of one another it keeps the first in order |
| V2Election.DecidesByLowest | src/v2bmc.c:468-533 | With such a record, clear of the own clock, a version 2 port is MASTER exactly if its own is before it; otherwise it follows the sender, SLAVE exactly from class 128 on, else PASSIVE |
| V2Election.SlaveOnlyFollows | src/v2bmc.c:479-483 | A slave-only port follows the record kept |
| V2Election.OneMasterIsElected | src/v2bmc.c:468-596 | Version 2 ports on their own that hear one another, with different identities, all decide for the same one as MASTER and to follow it, whatever the order of their records, exactly if its clock is before all others and clear of each |
| V2Election.MasterIsOnItsOwn | src/bmc.c:179-241 | Every MASTER of version 2 that a run reaches compares the clock of its options |
| V2Election.ClearPortsElect | src/v2bmc.c:468-596 | If all clocks are clear of one another, as with different priority1, there is such a port |
| V2Election.TwoPorts | src/v2bmc.c:468-533 | Of two ports exactly one is MASTER exactly if they are clear; both follow each other exactly if they agree down to an accuracy above the class; both are MASTER exactly in the cases of BothBetter |
| V2Election.DefaultsElectNoOne | src/v2bmc.c:316-325 | Any number of ports of class 251 and accuracy 0xFE with one priority1, as by default, all decide for SLAVE |
| V2Election.LeavesItsMaster | src/v2bmc.c:243-262 | A SLAVE that decides again on the record of its own grandmaster becomes MASTER exactly if its identity is the lower and the accuracy is within the class |
| V2Election.NextAnnounceUnseats | src/protocol.c:1320-1472 | So it does in the round after the next Announce of its only master |
| Bmc.IdentifiersInOrder | src/bmc.c:329-346 | The time sources by their names: ATOM and GPS, NTP, HAND, INIT, DFLT, and any other last |
| Bmc.NeverBothBetter | src/bmc.c:351-539 | Of two version 1 candidates never both are better, on any input |
| Bmc.OppositeWhenSwapped | src/bmc.c:351-539 | The result turns round when the arguments are swapped exactly if there is no tie between ports of one grandmaster and the comparison by steps does not mix up the sender visibly |
| Bmc.SwappingFails | src/bmc.c:351-539 | Two ports of one grandmaster that each lose, and a pair of neighbours that ties one way round only |
| Bmc.ScanKeepsTheBest | src/bmc.c:632-651 | On different grandmasters of stratum 3 or more with transitively similar variances, the record kept beats all others in the order preferred, stratum, identifier, variance, boundary clock, UUID |
| Bmc.ScanFindsTheBest | src/bmc.c:632-651 | If some record of stratum above 2, among different grandmasters, beats all others, the scan picks it, and it is the only one |
| Bmc.EveryOrderPicks | src/bmc.c:632-651 | Among different grandmasters of stratum above 2 a record is picked in every order of the records, by every receiver, exactly if it beats all others |
| Bmc.OrderDoesNotMatter | src/bmc.c:632-651 | For different grandmasters of stratum above 2 the record picked depends neither on the order of the records nor on who compares, exactly if one record beats all others |
| Bmc.RankableHaveWinner | src/bmc.c:632-651 | With transitively similar variances there is such a record, the one the scan picks |
| Bmc.CircleOfSimilarClocks | src/bmc.c:390-393 | Without transitivity there are three clocks of which the scan keeps whichever comes last |
| V2Bmc.BothBetter | src/v2bmc.c:276-464 | Exactly when of two version 2 candidates each is better than the other |
| V2Bmc.BothBetterHappens | src/v2bmc.c:316-332 | Two candidates, each better than the other |
| V2Bmc.SameGrandmaster | src/v2bmc.c:392-464 | Of two ways to one grandmaster the first is better exactly if it is one step shorter and the second is not of the receiver itself, or equally long with the lower sender; ways that differ by more lose to each other |
| Bmc.ShorterWay | src/bmc.c:436-539 | Under version 1 the first is better exactly if it is shorter, by one step only if the second is not of the receiver itself, or equally long with the lower sender or of the same with the later Sync |
| ForeignMasters.AddIsFirstInFirstOut | src/protocol.c:3300-3389 | Adding to a table in order is adding to a bounded queue: a known master is updated in place, a new one appended, the oldest dropped beyond the capacity; keys stay distinct, only the slot returned changes |
| ForeignMasters.RecordHolds | src/protocol.c:3189-3389 | The record written has the key and the message that came: a Sync leaves the Announce there, an Announce brings its reading as a Sync; no other record changes |
| ForeignMasters.FindsExactly | src/protocol.c:3307-3333 | The search, wrapped from the best record on, finds a key exactly if a record in use has it |
| ForeignMasters.SearchCovers | src/protocol.c:3307-3333 | The wrapped search looks at every record in use exactly if it starts at one of them |
| ForeignMasters.ForgettingNeedsTheStart | src/bmc.c:103-103 | Forgetting the records without resetting the write position loses the order with the next new record exactly unless the position is 0 |
| ForeignMasters.ForeignTable.Add | src/protocol.c:3189-3389 | The loop over the array finds and overwrites the slot that the specification gives |
| ForeignMasters.ForeignTable.Forget | src/protocol.c:569-570 | The records are forgotten, the next one goes to slot 0 |
| Timers.ExpiresOnTime | src/dep/timer.c:143-187 | However the ticks are split among updates, a running timer is flagged exactly if as many ticks as it had left have gone by, or it was flagged before |
| Timers.StoppedStaysSilent | src/dep/timer.c:168-175 | A stopped timer never changes |
| Timers.TimerSet.Update | src/dep/timer.c:143-166 | Every running timer is counted down by the ticks elapsed, which are used up |
| Timers.TimerSet.Start | src/dep/timer.c:177-187 | Exactly the timer named is set, unflagged, with its full time |
| Timers.TimerSet.Stop | src/dep/timer.c:168-175 | Exactly the timer named stops, with its flag as it was |
| Timers.TimerSet.Expired | src/dep/timer.c:189-203 | All timers are updated; the flag of the one named is reported and cleared |
| Convergence.DelayFilterSettles | src/dep/servo.c:306-340 | From any state and for a constant delay of either sign: after one sample, and then as many as the value is off or as many as shrink that distance below one by (1 - 1/2^s) each, the filtered value is never beyond the delay and at most 2 * 2^s - 1 ns short of it, for ever |
| Convergence.BlendSteps | src/dep/servo.c:324-331 | One step with weight k takes the error e to e' with k e' <= (k-1) e + 2k - 1, never passes the delay from below, and approaches it from above |
| Convergence.BlendTowardsMean | src/dep/servo.c:324-331 | One step with weight k and any two samples in a row: 2k times the new value is 2(k-1) times the old one and the two samples, up to 4(k-1) + 2 |
| Convergence.EveryStepTowardsMean | src/dep/servo.c:306-340 | So it is at every step of the filter, since the product never wraps |
| Convergence.RunningMean | src/dep/servo.c:306-340 | From a cleared filter the first 2^s samples are averaged: after n of them, of at most 2^(31-s) each, the weight is n and 2n times the value is the sum of the samples in pairs, up to 2 n * n |
| Convergence.ReducedIsLargest | src/dep/servo.c:306-309 | The stiffness found is the largest, up to s, at which the product cannot overflow |
| Convergence.StepTowards | src/dep/servo.c:306-340 | Every sample of the same delay brings the value closer until it is within the slack, and keeps it there |
| Convergence.ContractsEachTime | src/dep/servo.c:306-340 | After n samples at most (1 - 1/2^s)^n of the excess over the slack is left, whatever weights the filter goes through |
| Convergence.FilterMirrors | src/dep/servo.c:306-340 | The filter treats negative delays as the mirror image of positive ones |
| Servo.FilterDelay | src/dep/servo.c:306-340 | For s up to 30 and any exponent the filtered value and the sample kept stay below a second, so that the loop that lowers s ends and no product overflows |
| Servo.ProductFits | src/dep/servo.c:306-326 | At the stiffness the loop finds, the product of the old value fits into 32 bits |
| ServoProperties.EveryRunIsBounded | src/dep/servo.c:51-758 | In every run with s up to 30: filters stay below a second, drift within the adjustment limit, and the next product fits into 32 bits; every rate given to the system by the controller or a clock reset lies, modulo 2^32, within a hundredth of the limit around the base it was computed from, the base itself is restored exactly, and only a clock that may not be reset is told the whole limit; the base is the configured one, or within the limit of it if adjustments are remembered |
| ServoProperties.RatesOfCorrection | src/dep/servo.c:431-760 | The rates of one correction: off the current base by exactly the limit if the offset has seconds, the clock may not be reset and adjusting is on; at most by a hundredth of it otherwise; none without adjusting |
| Steering.SteersTowards | src/dep/servo.c:716-758 | A clock that is ahead is not sped up and one that is behind not slowed down, unless the drift opposes; an offset of 100 times the attenuation does turn the rate |
| Steering.SteersMore | src/dep/servo.c:716-758 | The farther ahead, in offset and drift, the lower the rate and the higher the drift |
| Steering.SteersMirrored | src/dep/servo.c:716-758 | With offset and drift turned round, rate and drift turn round |
| Steering.SteersBy | src/dep/servo.c:716-758 | Below the limits a hundred times the turn of the rate is the sum of drift, proportional and integral term against it, up to less than 101 |
| Steering.NotFartherAway | src/dep/servo.c:716-758 | A clock whose offset changes by that turn is not farther away afterwards, if the drift does not oppose and is at most 198 times the offset |
| Steering.IntegralActs | src/dep/servo.c:716-735 | Every correction by an offset beyond the attenuation moves the drift towards the limit by at least 1, and at the limit the rate is off by a hundredth of it against the offset, over any number of corrections |
| Steering.ResetSteers | src/dep/servo.c:455-650 | An offset of seconds: the first correction only keeps the times of the Sync; the next sets the time, gives a rate against the drift it finds, by a hundredth of it, and clears the servo but for that drift |
| Steering.ResetFindsDrift | src/dep/servo.c:493-535 | The drift found is, cut to the limit, how much faster the own clock has run between the two Syncs than the master's, in parts per billion, as long as they have come apart by at most nine seconds |
| Steering.LaterResetsAreOff | src/dep/servo.c:493-500 | The next reset finds the right interval exactly if the time of the Sync before was the interval before that |
| Steering.PeerDelayDefersReset | src/dep/servo.c:201-202 | After the delay to a peer has been measured, a correction by seconds only keeps the times of its Sync again |
| Steering.ResetSetsTime | src/dep/servo.c:571-592 | The time set is exactly the time now, less the offset, plus the time between two readings |
| Steering.FullSpeedOpposes | src/dep/servo.c:672-678 | At full speed the rate goes against the offset exactly unless that is a whole number of seconds ahead |
| Steering.FullSpeedTheWrongWay | src/dep/servo.c:676-677 | A clock a second ahead is sped up by the whole limit |
| Steering.RememberedExactly | src/dep/servo.c:759-767 | The adjustment is remembered exactly after a correction by at most 100 ns, if asked for |
| Steering.RememberedHundredfold | src/dep/servo.c:73-87 | The next initialization turns the configured base by a hundred times what the good rate turned it by; the rate is the good one exactly if that is nothing |
| ServoProperties.FullSpeedExactly | src/dep/servo.c:670-678 | A correction gives a rate off by the whole limit exactly in that case |
| ServoProperties.FullSpeedHappens | src/dep/servo.c:670-678 | It happens, a second ahead as well as behind |
| ServoProperties.ExchangeMeasuresDelay | src/dep/servo.c:272-290 | On a symmetric link of any delay d without overflow, a second or more included, the unfiltered one-way delay is exactly d, whatever the offset |
| ServoProperties.ExchangeUpdatesDelay | src/dep/servo.c:292-340 | A delay of a second or more is taken as it is and clears the filter; a smaller one goes through the filter |
| ServoProperties.SyncMeasuresOffset | src/dep/servo.c:364-385 | For any delay without overflow the unfiltered offset is exactly d + offset less the delay in use |
| ServoProperties.OffsetIsFound | src/dep/servo.c:260-429 | After enough exchanges over a symmetric link, from any state, the unfiltered offset is the true one up to 2 * 2^s - 1 ns |
| ServoProperties.FilteredOffsetIsFound | src/dep/servo.c:387-426 | Then the filtered offset of two Syncs in a row is the mean of the true offsets up to the slack and a nanosecond; an offset measured as -1 ns counts as missing |
| ServoProperties.ExchangesSettle | src/dep/servo.c:260-352 | Any number of exchanges over a symmetric link feeds the filter with that delay alone |
| ServoClock.Clock.ReduceStiffness | src/dep/servo.c:306-309 | The loop ends, with the largest stiffness up to s at which the product cannot overflow |
| ServoClock.Clock.MeasureDelay | src/dep/servo.c:260-352 | In place, the measurement specified by Servo.UpdateDelay |
| ServoClock.Clock.MeasurePathDelay | src/dep/servo.c:90-258 | In place, the measurement specified by Servo.UpdatePathDelay; the times and corrections it uses up belong to the port, whose FinishPeerDelay clears them |
| ServoClock.Clock.MeasureOffset | src/dep/servo.c:354-429 | In place, the measurement specified by Servo.UpdateOffset |
| ServoClock.Clock.Adjust | src/dep/servo.c:431-760 | In place, the correction specified by Servo.UpdateClock, with the commands to the system in order |
| ServoClock.Clock.Init | src/dep/servo.c:51-88 | In place, the initialization specified by Servo.InitClock |
| Arith.SumIsExact | src/arith.c:233-256 | The sum of canonical times is canonical, and the exact sum of nanoseconds exactly if its seconds with carry fit into 32 bits |
| Arith.DifferenceIsExact | src/arith.c:258-264 | The same of the difference |
| Arith.HalfIsExact | src/arith.c:272-311 | Half of a canonical time is canonical, and the total divided by 2 and truncated |
| Arith.CanonicalIsUnique | src/arith.c:233-248 | A total has only one canonical form |
| Arith.NormalizedIsCanonical | src/arith.c:233-248 | Normalizing gives a canonical time whatever it is given |
| Arith.AddTime | src/arith.c:250-256 | In place, also if the result is one or both of the operands |
| Arith.SubTime | src/arith.c:258-264 | In place, also if the result is one or both of the operands |
| Arith.HalveTime | src/arith.c:272-311 | In place, the half specified |
| Arith.NormalizeTime | src/arith.c:233-248 | In place, the normal form specified |
| Arith.WireRoundTrip | src/arith.c:127-173 | A time survives the format on the wire exactly if its seconds are below INT_MAX and its signs agree, zero nanoseconds or not; the half epoch exactly if the seconds are |
| Arith.FromInternalTime | src/arith.c:127-150 | The wire format specified |
| Arith.ToInternalTime | src/arith.c:152-173 | In place, the time and half epoch specified |
| Crc.OneOctetIsDetected | src/arith.c:61-87 | Buffers of one length that differ in exactly one octet never have the same CRC, at any length |
| Crc.ShiftIsInjective | src/arith.c:69-80 | One bit step is a bijection of the register |
| Crc.FeedOctetsIsInjective | src/arith.c:61-87 | So are all steps of the same octets |
| CrcDivision.ChecksumIsRemainder | src/arith.c:61-87 | The checksum, lowest bit first, is the complement of the remainder of the message, with its first 32 bits turned round and 32 zeros appended, in long division by the generator of IEEE 802.3 |
| CrcDivision.ConstantIsGenerator | src/arith.c:65-65 | The constant is that generator, written out by its exponents |
| Crc.CrcAlgorithm | src/arith.c:61-87 | The two loops compute the checksum that these lemmas speak of |
| Getopt.ScanAll | src/dep/startup.c:160-160 | The caller's loop reports what a single left-to-right reading of the original arguments reports, and leaves argv as program name, options in order, operands in order, a permutation of the original, with the index of the first operand |
| Getopt.PartitionIsStable | src/dep/getopt.c:546-621 | Options with their arguments and operands each keep their order, and together are all arguments |
| CommandLine.LineIsRead | src/dep/getopt.c:867-1165 | Options of any kind, in clusters of letters declared without argument or not at all, with a required argument attached or in the next element, an optional one attached or left out, mixed with operands, and an argument missing or a terminator at the end, rendered into arguments: the scan gives back exactly these letters with their arguments in order, the letters not declared, ':' or '?' for the one missing, the options and the operands |
| CommandLine.ProgramLineIsRead | src/dep/getopt.c:523-1166 | The same behind a program name |
| CommandLine.FlagMeans | src/dep/getopt.c:869-1100 | A letter without argument or not declared, under any option string rendered from declarations |
| CommandLine.ArgumentMeans | src/dep/getopt.c:1103-1160 | A letter with an argument, required or optional, attached, separate, left out or missing |
| CommandLine.ScanLine | src/dep/startup.c:160-160 | And so do the calls of getopt over the argument list in memory, which leave options in front of operands |
| Getopt.MergeIsPermutation | src/dep/getopt.c:546-621 | Such a merge is a permutation |
| Getopt.OperandsAreNotOptions | src/dep/getopt.c:546-621 | No operand looks like an option, unless a terminator protects it |
| Getopt.RescanIsStable | src/dep/getopt.c:546-621 | Scanning the rearranged arguments again gives the same and moves nothing, exactly unless an option missed its argument and there is an operand |
| Getopt.RescanEatsOperand | src/dep/getopt.c:1127-1160 | An argument list whose last option misses its argument and takes an operand the second time |
| Getopt.Scanner.Exchange | src/dep/getopt.c:302-379 | Ends, with the two adjacent segments in exchanged order, each in its own order, nothing else touched, and the indices at the new place of the first |
| Getopt.SwapBlocks | src/dep/getopt.c:322-354 | Two blocks of equal length have changed places |
| Getopt.Scanner.GatherOperands | src/dep/getopt.c:546-579 | All options read so far stand before all operands skipped so far, the rest is untouched, and the next argument is not an operand |
| Getopt.Scanner.TakeTerminator | src/dep/getopt.c:586-599 | After the terminator argv is in its final order |
| Getopt.Scanner.AdvanceElement | src/dep/getopt.c:546-635 | Either a next option element is ready to be read, or argv is in its final order and the index is at the first operand |
| Getopt.Scanner.DecodeLetter | src/dep/getopt.c:867-1165 | One letter gives the character, argument and bad option that the option string asks for, and moves on accordingly |
| Getopt.Scanner.Next | src/dep/getopt.c:523-1166 | One call reports the next event, and argv stays a partial rearrangement; or it ends the scan with the final order; at every return argv is a permutation of the original arguments |
| PtpClocks.PtpClock.Protocol | src/protocol.c:269-341 | The port in memory, run for any sequence of inputs, ends in the state that Run gives: each handler updates the fields as the function of the same name says, within its frame |
| PtpClocks.PtpClock.FinishPeerDelay | src/dep/servo.c:195-203 | The peer delay is measured, its four times and two corrections are cleared, and the request is done with |
| PtpClocks.PtpClock.BestMasterClock | src/bmc.c:603-660 | The loop over the array of records finds the best one of the scan, and the decision follows it |
| Daemon.RunPort | src/protocol.c:269-341 | A port object run from power up has the timers, data sets, servo, delay halves and Follow_Ups of the invariants above, with messages of existing types only the clock and interval of its options, and with messages of one version the pairing |

## Left out

- Sockets, `select`, and the Windows time, frequency and random calls: inputs of each round, or recorded commands and messages; a message sent is recorded with its number, times, correction and addressee.
- Several ports in one process (`multiPortProtocol`): one port is modelled; ports share no state but the debug counter of delay requests.
- Service wrapper, option meanings, display of statistics, probes and debug output.
- `src/v2utils.c`: the version 1 reading of an Announce and the version 2 quality of the own clock are taken as inputs.
- `v2CorrectionToInternalTime`: corrections reach the port as internal times; in `Msg` they are 64-bit numbers.
- The frequency estimate of a clock reset divides by the interval between two Syncs; what a division by zero gives is an input.
- Contents of management messages, other than what changes the port; the test of their address is an input.
- Attributes of the grandmaster that are only reported (stratum, identifier, variance, preferred, boundary clock), UTC offset, leap flags, epoch and half epoch of a port.
- Message counters of foreign masters and of general messages, `sentPDelayResp`, and the header of a Pdelay_Req but for sender, number and correction.
- Long options, `-W`, and the modes of getopt that do not permute (an option string that starts with `-` or `+`, or POSIXLY_CORRECT): the option string is taken to be one of short options.
- Ticks that come in while `timerUpdate` runs: they come in between rounds.
- Shifts by 32 or more in the timeouts, which C leaves undefined: the power of two is taken and cut to 16 bits.
- Packing and unpacking of version 1 messages other than Follow_Up: the same field copies.
- The structures inside PtpClock (parent data set, times of a Sync, of a delay request) are values that are replaced, not objects that could be aliased.
- PortPairing.FollowUpsArePaired: under version 1 the numbers of a Follow_Up and its Sync need not agree after an initialization that finds the write position of the table elsewhere than at 0, until a receipt timeout, because the program does not keep it there (Mispairing.DisorderBreaksPairing); when they agree is stated in terms of the records applied.
