# BBR in three implementations, and the TCP sender below it

The repository holds the BBR congestion controller three times: the fixed-point code of
the Linux kernel (`drafts/real_bbr.c`), the Chromium QUIC sender (`drafts/bbr_sender.cc`)
and an ns-2 agent (`tcp-bbr.cc`), the last on top of the ns-2 TCP agent (`drafts/tcp.cc`,
`drafts/tcp-reno.cc`). This project models all of them and proves what they promise over
whole runs of events.

## How it is built

Each implementation appears twice. A *state machine* (`LinuxBbr`, `QuicBbr`, `Ns2Bbr`,
`TcpSender`, `RttEstimator`) has one function for each function of the source, on values;
`Run` folds it over any sequence of events. A *class* (`LinuxSocket.BbrSocket`,
`QuicSender.BbrSender`, `Ns2Agent.BbrTcpAgent`, `RenoAgent.RenoTcpAgent`,
`RttAgent.RttState`) has the fields of the source and methods that update them in place,
with the loops and the array of the source; the contract of every method equates the
view of its new state with the state machine's. Each object carries a ghost history of
the events it has handled; its entry points keep the invariant that its state is that of
the run over this history, so that the theorems about runs hold of the object
(`LinuxSocket.BbrSocket.ModesAreSound`, `QuicSender.BbrSender.RunIsSound` and so on). The
other modules prove what the state machines do:

- `BbrModes`, `BbrMachine`: the machine of section 4.3 of
  draft-cardwell-iccrg-bbr-congestion-control-00 and its gain cycle, which all three
  refine (`LinuxModes`, `QuicModes`, `Ns2Modes`).
- `FullPipe`: the detector that ends STARTUP, with its lexicographic measure.
  `MinFilter`: the expiring minimum filter. All three use both.
- `Words`, `LinuxArith`, `LinuxWrap`: machine words. The Linux machine takes a `Width`, so
  that one text describes the kernel's 32-bit counters and the unbounded counters they
  stand for, and `LinuxWrap` proves that they agree while compared values are near.
- `LinuxStartup`, `LinuxPolicer`, `LinuxPoliced`, `LinuxProbeRtt`: STARTUP, the long-term
  policer detector and runs into its use, and PROBE_RTT of the kernel sender.
  `LinuxControl`, `LinuxCycle`, `LinuxWindow`, `LinuxGrowth`: its pacing rate, when the
  phases of its gain cycle and DRAIN end, and its window from above and from below. These
  speak of fields, elapsed times and unrounded targets, not of the functions that decide.
- `QuicStartup`, `QuicRounds`, `QuicConservation`, `QuicDrift`, `QuicProbeRtt`, `QuicPath`:
  the end of STARTUP, rounds and recovery, packet conservation and its limits, PROBE_RTT,
  path and window of the QUIC sender; `QuicCycle` and `QuicWindow` do for it what
  `LinuxCycle` and `LinuxGrowth` do for the kernel sender. The history of a run (when each
  packet was sent, what was in flight) is kept beside the state.
- `Ns2Filter`, `Ns2ProbeRtt`, `Ns2Cycle`: the filters, PROBE_RTT and phases of the ns-2 agent.
- `TcpSequence`, `TcpRing`, `TcpStray`, `TcpReno`, `RenoRecovery`: sequence numbers, the
  doubling table of time stamps, when its copy loop leaves it, Reno's rule against repeated
  window cuts, and what goes out on the wire in fast recovery.
- `Remainders`: facts about products and remainders.

Random draws, clocks, rate samples and the outputs of filters that live elsewhere are
arbitrary fields of the events; clocks are monotone where a theorem says so.

## What the code does differently from what it says

Each of these is a lemma of the table below, with the exact condition where it has one.

- `bbr_rate_bytes_per_sec` is said to work up to 2.9 Tbit/s; it does, but the u32 rate
  format goes further and there it wraps (`LinuxArith.TopRateWraps`).
- The threshold of `bbr_check_full_bw_reached` is truncated to 32 bits: from 2^32 * 4/5 on
  each round with the same estimate looks like growth, and so it does below 4 units. At
  such a constant estimate STARTUP never ends (`LinuxStartup.ConstantRateFillsIff`), and
  there are such runs of any length (`LinuxStartup.Stalling`); in a band of estimates that
  avoids both, and in no other, it ends within a number of rounds
  (`LinuxStartup.StartupEndsIff`).
- The test of the policer detector wraps in 32 bits in its ratio and in 64 in its rate: it
  can take rates far apart for equal, and large rates near each other for unequal
  (`LinuxArith.ConsistencyIsExactIff`, `LinuxArith.FalseConsistency`,
  `LinuxArith.FalseInconsistency`).
- The length of a policer interval in microseconds wraps, too: from 2^32 on it can be a small
  positive number (`LinuxPolicer.TimeIsExactIff`), and a run takes a rate into use that is
  150000 times the true one (`LinuxPoliced.LongIsUsed`). Its loss test wraps in both products
  (`LinuxPolicer.LossTestIsExactIff`, `LinuxPolicer.LossTestFails`).
- 0 marks an unset `probe_rtt_done_stamp`, and is a value of the clock, too: an ACK at such
  a time does not count as the beginning of a drained stay
  (`LinuxProbeRtt.DrainForgottenIff`, `LinuxProbeRtt.StayIsScheduledIff`,
  `LinuxProbeRtt.ForgottenDrainIsReached`). Length and spacing of the stays hold all the
  same (`LinuxProbeRtt.KernelProbeRtt`).
- `bbr_save_cwnd` is called after the mode has become PROBE_RTT, so that it only ever
  raises `prior_cwnd` (`LinuxProbeRtt.StaleWindowStaysIff`,
  `LinuxProbeRtt.StaleWindowIsReached`).
- An ACK that reports losses and delivers nothing leaves the window alone
  (`LinuxWindow.EmptyAckReleasesLosses`).
- CONSERVATION of the QUIC sender conserves the flight exactly if all packets have the same
  size (`QuicDrift.ConservesIff`): with unequal ones, sent while one byte of window is left,
  the flight drifts upwards by up to a packet less one byte with every congestion event
  (`QuicConservation.DriftIsBounded`), and there are runs that drift so for any number of
  events (`QuicDrift.DriftIsTight`).
- The ns-2 agent counts ACKs where its comments say rounds (`Ns2Modes.FourAcksFillIff`), has
  an int `cwnd_gain`, so that 2.885 is 2 (`Ns2Modes.ModesAreSound`), forgets larger samples
  than the one it takes on expiry (`Ns2Filter.UpdateKeepsMaximumIff`,
  `Ns2Filter.BtlBwIsMaximumIff`), and accepts no RTT for exactly ten seconds when it starts
  without one (`Ns2Modes.RTpropUnknownIff`).
- An estimate of 0 always looks like growth: at such rates STARTUP of the QUIC sender and of
  the ns-2 agent never ends; in every band of positive ones it does
  (`QuicStartup.StartupEndsIff`, `Ns2Modes.StartupEndsIff`).
- With `rfc2988_` the backoff multiplier of the TCP sender doubles until the timeout reaches
  `maxrto_`. Where that takes more than 2^30 it leaves its int, and the program ends on a
  negative timeout (`RttEstimator.BackoffsNeverShortenIff`, `RttEstimator.SomeRunExits`). A
  `maxrto_` below two ticks is exceeded.
- The copy loop that doubles the time stamp table begins at index -1 if nothing has been
  acknowledged. A run gets there exactly if an event before the first ACK sends the 91st
  packet, in a burst or by limited transmit, or retransmits with 90 or more out
  (`TcpStray.RunStraysIff`); with the default `syn_` a first burst of 90 packets of data is
  enough (`TcpStray.FirstBurstStraysIff`). State machine and class drop that access and
  record it.

Line 116 of `drafts/real_bbr.c` ends in a stray word; the model reads past it.

## Model

| member | source | states |
|---|---|---|
| BbrMachine.RunSound | drafts/real_bbr.c:408-434 | In every run of the abstract machine DRAIN and PROBE_BW imply a full pipe, STARTUP one that is not full, and a PROBE_BW stay consists of consecutive gain phases from a legal entry |
| BbrMachine.FullForever | drafts/real_bbr.c:118-125 | A pipe found full by a prefix of a run is full at its end |
| BbrMachine.CycleIsFair | drafts/real_bbr.c:86-93 | In every PROBE_BW stay, for every entry draw and every n, the first n phase gains sum to n or n + 1/4 |
| BbrMachine.NewestGain | drafts/real_bbr.c:387-395 | The newest gain of a stay is the gain of its current phase |
| FullPipe.FuelBound | drafts/real_bbr.c:615-631 | Lexicographic measure on (growth steps left, stalled rounds left): evaluated rounds so far plus rounds still possible never exceed one allowance per reset |
| FullPipe.FillsWithin | drafts/real_bbr.c:615-631 | With estimates in [b, top] and g growth steps from b leading above top, limit * g + 1 evaluations per baseline fill the pipe |
| MinFilter.HeldIsMinimum | drafts/real_bbr.c:668-690 | The value an expiring minimum filter holds is a sample, smaller than every later sample, and was not expired at any of them |
| Words.SDiffAgrees | drafts/real_bbr.c:574-576 | before() and after() on 32-bit counters order them as unbounded counters do while they are within 2^31 of each other |
| Words.DiffAgrees | drafts/real_bbr.c:541-542 | The u32 difference of two counters is the true one while it fits |
| LinuxArith.PacingRateIsExact | drafts/real_bbr.c:143-154 | Up to 2.9 Tbit/s and a gain of 739/256 no u64 step wraps, and the result is the exact floor of rate * mtu * gain * 10^6 / 2^32 or one less |
| LinuxArith.RateFitsIff | drafts/real_bbr.c:147-154 | No step wraps exactly if the last product fits a u64 |
| LinuxArith.RateIsExactIff | drafts/real_bbr.c:143-154 | For u32 rates, 16-bit packet sizes and gains from 1 the result is the unwrapped one exactly if no step wraps |
| LinuxArith.TopRateWraps | drafts/real_bbr.c:143-154 | The claim ends there: the largest u32 rate with 1500-byte packets wraps, and a larger gain gives a smaller rate |
| LinuxArith.TargetCwndIsTight | drafts/real_bbr.c:240-267 | When no step wraps the target window is even, less than 2^-24 packet below gain * BDP + 3 * tso_segs_goal, and less than two packets above it |
| LinuxArith.TargetCwndIsMonotone | drafts/real_bbr.c:240-267 | A larger bandwidth, RTT, gain or segment goal never lowers the target window, and fits if the larger one does |
| LinuxArith.ConsistencyIsExactIff | drafts/real_bbr.c:460-481 | For all u32 rates and 16-bit packet sizes the test of bbr_lt_bw_interval_done gives the intended answer exactly if the rates are in neither of two families: a packet per microsecond or more and more than an eighth apart, and their wrapped numbers show a small difference; or within an eighth, the earlier one at least 2^27, and their wrapped numbers show a large one |
| LinuxArith.FalseConsistency | drafts/real_bbr.c:460-470 | Two concrete pairs of rates far apart that pass as equal: one, 10^5 times the other, through the u32 ratio, one through the u64 product of the rate in bytes alone |
| LinuxArith.FalseInconsistency | drafts/real_bbr.c:460-470 | Two rates a sixteenth apart that fail |
| LinuxModes.RunRefines | drafts/real_bbr.c:717-724 | Every run of any callbacks, with or without wrapping counters, is a run of the abstract machine with legal entry phases |
| LinuxModes.ModesAreSound | drafts/real_bbr.c:408-434 | In every reachable state DRAIN or PROBE_BW implies full pipe, STARTUP implies not full, the gains match the mode except for a pacing gain of 1.0 while lt_use_bw is set, and cycle index, full-pipe count, long-term round count, segment goal and recovery state fit their bit fields |
| LinuxModes.FullForever | drafts/real_bbr.c:615-631 | A pipe found full is full ever after, also across retransmission timeouts |
| LinuxModes.EstimateDroppedInProbeBw | drafts/real_bbr.c:498-505 | lt_use_bw is only ever cleared in PROBE_BW |
| LinuxModes.OnlyUpdateBwTouchesLt | drafts/real_bbr.c:717-737 | After bbr_update_bw nothing that an ACK does touches the long-term detector |
| LinuxModes.CycleIsFair | drafts/real_bbr.c:387-426 | The phase gains of each PROBE_BW stay sum to n or n + 1/4, and its pacing gain is the newest of them unless the long-term estimator paces at 1.0 |
| LinuxStartup.RunDetects | drafts/real_bbr.c:615-631 | In every run whose estimates stay in a band without truncation full_bw and full_bw_cnt are what the shared detector makes of the evaluated rounds and timeouts |
| LinuxStartup.StartupEnds | drafts/real_bbr.c:615-631 | With estimates in [b, top], no truncation and g growth steps, 3 g + 1 evaluated rounds per baseline fill the pipe (one more baseline for every retransmission timeout) |
| LinuxStartup.StepsExist | drafts/real_bbr.c:615-631 | From 4 units up such a g exists for every top below the limit |
| LinuxStartup.ConstantRateFillsIff | drafts/real_bbr.c:615-631 | In every run, of either width, whose evaluated rounds all find one estimate and no timeout interferes, the pipe is full exactly after four of them and if the estimate is at least 4 units and 5/4 of it fits a u32; until then, and so otherwise for ever, the mode is STARTUP or PROBE_RTT |
| LinuxStartup.Stalling | drafts/real_bbr.c:615-631 | At every other estimate there is, from every fresh state and for every n, a run with exactly n evaluated rounds, each with a sample of that size, that is not full |
| LinuxStartup.StartupEndsIff | drafts/real_bbr.c:615-631 | From every fresh state: some number of evaluated rounds, and as many again for each timeout, fills the pipe in every run with estimates in [b, top] exactly if b is at least 4 units and 5/4 of top fits a u32 |
| LinuxStartup.EvaluatesIff | drafts/real_bbr.c:615-622 | An ACK evaluates the pipe exactly if it is not full, a round starts and the application did not limit its sample; and no other ACK moves the detector |
| LinuxWrap.StepTruncs | drafts/real_bbr.c:563-715 | One event on wrapping counters mirrors the event on unbounded ones while compared values are in range |
| LinuxWrap.RunTruncs | drafts/real_bbr.c:563-715 | Every such run: the whole state, with all round starts, intervals, expiries, modes and windows, is the truncation of the run on unbounded counters |
| LinuxWrap.MinRttExpiredTruncs | drafts/real_bbr.c:674-676 | The expiry decision on wrapped jiffies is the one on unbounded jiffies |
| LinuxPolicer.PolicerIsSound | drafts/real_bbr.c:437-560 | In every run in which no wrapped word misleads the detector (loss counts, times and rates of the intervals, see the iff lemmas), whenever lt_use_bw is set lt_bw is the floor average of two consecutive sampling intervals, each of 4 to 16 rounds with at least 50/256 losses, whose rates are the packets delivered over the time between their ends and differ by at most an eighth of the earlier one or 500 B/s |
| LinuxPolicer.PolicerDetectsIff | drafts/real_bbr.c:460-560 | And lt_use_bw is set by an event exactly if that event ends such an interval and its rate confirms a nonzero rate of the interval before |
| LinuxPolicer.DroppedAtRound48 | drafts/real_bbr.c:498-505 | The rate is given up exactly at the 48th PROBE_BW round of its use, so that the 7-bit lt_rtt_cnt cannot overflow |
| LinuxPolicer.RunSamplesIff | drafts/real_bbr.c:507-560 | In every run sampling begins exactly with the first losses, and goes on exactly until the application limits a sample or the interval is given up: after 16 rounds, or for a lossy end after a time that does not fit an int |
| LinuxPolicer.TimeoutEndsRound | drafts/real_bbr.c:819-831 | A timeout counts as the lossy end of a round: it opens sampling, counts in an interval and for a rate in use, and forgets the baseline |
| LinuxPolicer.KernelPolicerIsSound | drafts/real_bbr.c:437-560 | Soundness on the 32-bit counters |
| LinuxPolicer.KernelPolicerIff | drafts/real_bbr.c:460-560 | Coming into use exactly on a confirming interval, and given up exactly at the 48th round, on the 32-bit counters |
| LinuxPolicer.CallDetectsIff | drafts/real_bbr.c:490-560 | One call of bbr_lt_bw_sampling brings the rate into use exactly if it confirms it |
| LinuxPolicer.CloseEndsInterval | drafts/real_bbr.c:533-560 | The last part of bbr_lt_bw_sampling ends the interval exactly if it is sound, and otherwise resets or waits |
| LinuxPolicer.LossTestIsExactIff | drafts/real_bbr.c:540-545 | For all u32 counts the loss test is lost/delivered below 50/256 exactly if neither 2^24 losses or more wrap to too few, nor 2^32/50 deliveries or more to too few |
| LinuxPolicer.LossTestFails | drafts/real_bbr.c:540-545 | Counts for both: 2^24 of 2^24 packets lost is too few, none of 2^31 is not |
| LinuxPolicer.TimeIsExactIff | drafts/real_bbr.c:548-556 | A positive number of microseconds is the true length of an interval exactly if that is below 2^32, at every tick rate |
| LinuxPoliced.SteadyIsUsed | drafts/real_bbr.c:490-560 | From every fresh state at 1000 ticks a second, on counters of either width, eight lossy rounds at a constant rate bring that rate into use; the run meets the conditions of PolicerIsSound |
| LinuxPoliced.LongIsUsed | drafts/real_bbr.c:548-560 | And eight lossy rounds over 143 minutes bring a rate of 153726 units into use, while each of the two intervals delivered at 1 |
| LinuxProbeRtt.StayIsLongEnough | drafts/real_bbr.c:696-712 | PROBE_RTT ends only more than the jiffies of 200 ms after its window was first drained, and only after an ACK whose prior_delivered reached the delivered count of that moment |
| LinuxProbeRtt.StaysAreSpaced | drafts/real_bbr.c:668-690 | The next PROBE_RTT begins more than ten seconds after the end of the last one |
| LinuxProbeRtt.KernelProbeRtt | drafts/real_bbr.c:668-715 | Both on the 32-bit counters, in every run whose compared values are within 2^31, also where a stamp is 0 modulo 2^32: the drained moment is then that of the first ACK whose stamp is not |
| LinuxProbeRtt.StepTells | drafts/real_bbr.c:668-715 | The invariant behind them, for counters of either width: stamps and counts are the images of those of an unbounded history |
| LinuxProbeRtt.LastTells | drafts/real_bbr.c:683-712 | In every run PROBE_RTT ends exactly with an ACK more than its time after the drained moment, once a round has begun since; and it begins exactly with an ACK more than ten seconds after the min RTT was last confirmed, unless transmission has started from idle since the last ACK |
| LinuxProbeRtt.AckMarks | drafts/real_bbr.c:692-695 | In PROBE_RTT an ACK leaves what is delivered and in flight in tp->app_limited, never 0 |
| LinuxProbeRtt.MinStayIs200Ms | drafts/real_bbr.c:699-700 | The jiffies of a stay are at least 200 ms at any tick rate |
| LinuxProbeRtt.DrainForgottenIff | drafts/real_bbr.c:697-703 | One ACK that finds the window drained leaves the done stamp unset exactly if the stamp to set is 0 modulo 2^32 |
| LinuxProbeRtt.UnscheduledStayGoesOn | drafts/real_bbr.c:692-713 | On 32-bit counters PROBE_RTT goes on, with no end set, through any sequence of events whose ACKs find the window not drained or have such a stamp |
| LinuxProbeRtt.StayIsScheduledIff | drafts/real_bbr.c:697-703 | And exactly the first other ACK sets its end, the mode still being PROBE_RTT |
| LinuxProbeRtt.StaleWindowStaysIff | drafts/real_bbr.c:685-689 | The window saved on entry differs from one saved before the mode changed exactly if, outside recovery, a larger window was saved earlier |
| LinuxProbeRtt.StaleWindowIsReached | drafts/real_bbr.c:194-203 | From every fresh state a run into it: the window is saved, the stack lowers it, and PROBE_RTT still keeps the old one |
| LinuxProbeRtt.ForgottenDrainIsReached | drafts/real_bbr.c:697-703 | From every fresh state, and for every such time, a run into a stay whose window is drained and whose end is not set |
| LinuxProbeRtt.MinRttIsMinimum | drafts/real_bbr.c:674-681 | In every run min_rtt_us is the expiring minimum of the samples |
| LinuxWindow.DeductionIsExact | drafts/real_bbr.c:285-290 | The u32 subtraction of losses through max_t(s32, ...) is exact below 2^31 |
| LinuxWindow.AckReleases | drafts/real_bbr.c:277-347 | An ACK delivering P packets raises the unused window by at most 2 P, and by at most P under packet conservation, unless the floor of 4 binds or a saved window is restored |
| LinuxWindow.RunReleases | drafts/real_bbr.c:277-347 | Over any number of ACKs the packets sent exceed the initially unused window by at most two, or under conservation one, per packet delivered |
| LinuxWindow.EmptyAckReleasesLosses | drafts/real_bbr.c:329-330 | An ACK that delivers nothing leaves the window, so that all losses it reports can be replaced at once |
| LinuxControl.AckPaces | drafts/real_bbr.c:136-172 | In every run an ACK outside STARTUP leaves the pacing rate of lt_bw while lt_use_bw is set, and else of the filtered maximum, with the gain of the mode and the cap of the socket; in STARTUP that, or the rate before if it was larger |
| LinuxControl.RestartPaces | drafts/real_bbr.c:205-218 | A start from idle in PROBE_BW paces at the same estimate with gain 1 |
| LinuxControl.InitPaces | drafts/real_bbr.c:750-755 | The first rate is the window once in the smoothed RTT, with the high gain |
| LinuxControl.FilterTakesIff | drafts/real_bbr.c:582-604 | The maximum filter takes the sample of an ACK exactly if it is valid, and not limited by the application or not below the maximum |
| LinuxControl.RoundsAreCounted | drafts/real_bbr.c:573-579 | In every run rtt_cnt counts the round starts |
| LinuxControl.TargetIsNear | drafts/real_bbr.c:240-267 | The target against gain * BDP and three segment goals, or ten packets while the RTT is unknown: a count at most that is within it, a count two packets above is not |
| LinuxGrowth.AckGrows | drafts/real_bbr.c:322-347 | In every run an ACK of P packets outside recovery and PROBE_RTT: with a full pipe the window is at least every count up to the old window less its losses plus P, the clamp and gain * BDP with three segment goals, and no larger than that target but for its rounding; before, it grows by exactly P below the target or ten deliveries, and not at all above |
| LinuxGrowth.WindowReaches | drafts/real_bbr.c:322-347 | Over any number of such loss-free ACKs with targets and clamps of at least n the window grows by all that is delivered until it has reached n |
| LinuxGrowth.AckInRecovery | drafts/real_bbr.c:292-316 | Packets are conserved exactly from the first ACK in recovery, which leaves the flight plus what it acknowledges; conservation always leaves room for that, and PROBE_RTT at most four packets |
| LinuxGrowth.SavedWindowReturns | drafts/real_bbr.c:298-310 | The window saved when recovery begins comes back with the first ACK after it, whatever happens in between, up to the clamp and, with a full pipe, the target |
| LinuxCycle.PhasesEndInTime | drafts/real_bbr.c:350-406 | In every run, in PROBE_BW without a rate of the policer, counted from the event with which the phase began: a phase of gain 1 ends exactly with the first ACK after more than min_rtt_us; one of 5/4 only then, and exactly if there are losses or the flight before the ACK has reached gain * BDP and three segment goals, up to the rounding; one of 3/4 by then, and earlier if that flight is down at BDP and three segment goals |
| LinuxCycle.PolicedPaces | drafts/real_bbr.c:470-478 | While the rate of the policer is in use PROBE_BW paces at gain 1 from the ACK with which it comes into use, and keeps its phase |
| LinuxCycle.DrainByAck | drafts/real_bbr.c:634-647 | From any state of STARTUP or DRAIN, once the pipe is full, an ACK leads to PROBE_BW if the packets in flight are at most BDP and three segment goals, and to DRAIN if they are two or more above, unless PROBE_RTT begins |
| LinuxCycle.EveryPhaseIsEntered | drafts/real_bbr.c:417-426 | Every phase but that of gain 3/4 is entered by some draw, and different draws below seven enter different ones |
| LinuxSocket.BbrSocket.constructor | drafts/real_bbr.c:739-774 | The object starts in the initial state, which is a fresh one, with an empty history |
| LinuxSocket.BbrSocket.SetPacingRate | drafts/real_bbr.c:163-172 | The new state of the fields is that of bbr_set_pacing_rate |
| LinuxSocket.BbrSocket.SetTsoSegsGoal | drafts/real_bbr.c:182-191 | The segment goal capped at 0x7F, all else unchanged; the whole new state is that of the state machine |
| LinuxSocket.BbrSocket.SaveCwnd | drafts/real_bbr.c:194-203 | prior_cwnd is the window, or the larger of both inside recovery or PROBE_RTT, all else unchanged; the whole new state is that of the state machine |
| LinuxSocket.BbrSocket.CurrentBandwidth | drafts/real_bbr.c:136-141 | The long-term rate while in use, else the filtered maximum |
| LinuxSocket.BbrSocket.CwndEvent | drafts/real_bbr.c:205-218 | Restart from idle, paced at 1.0 in PROBE_BW; the whole new state is that of the state machine |
| LinuxSocket.BbrSocket.TrackRecovery | drafts/real_bbr.c:292-303 | The conservation and restore flags after a change of the recovery state |
| LinuxSocket.BbrSocket.SetCwndToRecoverOrRestore | drafts/real_bbr.c:277-317 | New state, new window and whether conservation fixes it |
| LinuxSocket.BbrSocket.SetCwnd | drafts/real_bbr.c:322-347 | The window after an ACK: recovery, slow start towards the target, floor, clamp and PROBE_RTT cap; the whole new state is that of the state machine |
| LinuxSocket.BbrSocket.IsNextCyclePhase | drafts/real_bbr.c:350-385 | The decision to move the gain cycle on |
| LinuxSocket.BbrSocket.AdvanceCyclePhase | drafts/real_bbr.c:387-395 | Next phase, its stamp and its gain; the whole new state is that of the state machine |
| LinuxSocket.BbrSocket.UpdateCyclePhase | drafts/real_bbr.c:398-406 | Moves on only in PROBE_BW without a long-term rate; the whole new state is that of the state machine |
| LinuxSocket.BbrSocket.ResetStartupMode | drafts/real_bbr.c:408-415 | STARTUP and its gains; the whole new state is that of the state machine |
| LinuxSocket.BbrSocket.ResetProbeBwMode | drafts/real_bbr.c:417-426 | PROBE_BW in a random phase; the whole new state is that of the state machine |
| LinuxSocket.BbrSocket.ResetMode | drafts/real_bbr.c:428-434 | STARTUP or PROBE_BW, by the full-pipe count; the whole new state is that of the state machine |
| LinuxSocket.BbrSocket.ResetLtBwSamplingInterval | drafts/real_bbr.c:437-446 | A new interval begins at the current counters; the whole new state is that of the state machine |
| LinuxSocket.BbrSocket.ResetLtBwSampling | drafts/real_bbr.c:449-457 | No rate, no sampling, a new interval; the whole new state is that of the state machine |
| LinuxSocket.BbrSocket.LtBwIntervalDone | drafts/real_bbr.c:460-481 | Average into use if consistent, else a new interval with the new rate; the whole new state is that of the state machine |
| LinuxSocket.BbrSocket.LtCloseInterval | drafts/real_bbr.c:540-560 | The end of an interval that has enough rounds; the whole new state is that of the state machine |
| LinuxSocket.BbrSocket.LtBwSampling | drafts/real_bbr.c:490-560 | One call of the long-term detector on 32-bit counters; the whole new state is that of the state machine |
| LinuxSocket.BbrSocket.StartRound | drafts/real_bbr.c:573-578 | The round fields; all else unchanged, and conservation is ended by CountRound |
| LinuxSocket.BbrSocket.CountRound | drafts/real_bbr.c:569-579 | The packet-timed round counter; the whole new state is that of the state machine |
| LinuxSocket.BbrSocket.UpdateBw | drafts/real_bbr.c:563-605 | Rounds, long-term detector and filtered bandwidth after an ACK; the whole new state is that of the state machine |
| LinuxSocket.BbrSocket.CheckFullBwReached | drafts/real_bbr.c:615-631 | One evaluated round of the full-pipe detector, with its u32 threshold; the whole new state is that of the state machine |
| LinuxSocket.BbrSocket.CheckDrain | drafts/real_bbr.c:634-647 | STARTUP to DRAIN, DRAIN to PROBE_BW; the whole new state is that of the state machine |
| LinuxSocket.BbrSocket.LeaveProbeRtt | drafts/real_bbr.c:706-711 | The end of PROBE_RTT; the whole new state is that of the state machine |
| LinuxSocket.BbrSocket.StayInProbeRtt | drafts/real_bbr.c:692-713 | What an ACK does inside PROBE_RTT, with the mark in tp->app_limited; the whole new state is that of the state machine |
| LinuxSocket.BbrSocket.StayOrLeave | drafts/real_bbr.c:696-712 | The end of the stay is set, or it ends, or it goes on; the whole new state is that of the state machine |
| LinuxSocket.BbrSocket.TrackMinRtt | drafts/real_bbr.c:674-681 | The min RTT filter; the whole new state is that of the state machine |
| LinuxSocket.BbrSocket.EnterProbeRtt | drafts/real_bbr.c:683-690 | Entry to PROBE_RTT; the window is saved after the mode has changed; the whole new state is that of the state machine |
| LinuxSocket.BbrSocket.UpdateMinRtt | drafts/real_bbr.c:668-715 | Filter, entry, stay and end of PROBE_RTT; the whole new state is that of the state machine |
| LinuxSocket.BbrSocket.UpdateModel | drafts/real_bbr.c:717-724 | The model after an ACK; the whole new state is that of the state machine |
| LinuxSocket.BbrSocket.BbrMain | drafts/real_bbr.c:726-737 | Everything an ACK does; the whole new state is that of the state machine |
| LinuxSocket.BbrSocket.SetState | drafts/real_bbr.c:819-831 | A retransmission timeout as a lossy end of a round; the whole new state is that of the state machine |
| LinuxSocket.BbrSocket.CongControl | drafts/real_bbr.c:726-737 | An ACK leaves the state of the run so far and this event |
| LinuxSocket.BbrSocket.OnState | drafts/real_bbr.c:819-831 | A change of the recovery state, the same |
| LinuxSocket.BbrSocket.OnTxStart | drafts/real_bbr.c:205-218 | A start of transmission, the same |
| LinuxSocket.BbrSocket.OnSsthresh | drafts/real_bbr.c:790-795 | The start of loss recovery, the same |
| LinuxSocket.BbrSocket.ModesAreSound | drafts/real_bbr.c:408-434 | After any such calls DRAIN and PROBE_BW mean a full pipe, STARTUP one that is not full, the gains match the mode, and the bit fields hold their values |
| LinuxSocket.BbrSocket.PolicerIsSound | drafts/real_bbr.c:437-560 | After any such calls, with bounded counts on counters in range, a long-term rate in use is the average of two sound intervals of the history |
| LinuxSocket.BbrSocket.ProbeRttIsSound | drafts/real_bbr.c:668-715 | The last of any such calls ends PROBE_RTT only after its time and round, and begins it only ten seconds after the last |
| QuicModes.RunRefines | drafts/bbr_sender.cc:239-304 | Every run of sends and congestion events is a run of the abstract machine |
| QuicModes.ModesAreSound | drafts/bbr_sender.cc:326-344 | In every reachable state DRAIN or PROBE_BW implies full pipe, STARTUP implies not full, and the gains are those of the mode |
| QuicModes.FullForever | drafts/bbr_sender.cc:422-436 | A pipe found full is full ever after |
| QuicModes.CycleIsFair | drafts/bbr_sender.cc:394-420 | The phase gains of each PROBE_BW stay sum to n or n + 1/4, and the pacing gain is the newest of them |
| QuicModes.RunDetects | drafts/bbr_sender.cc:422-436 | In every run the full-pipe fields are what the shared detector makes of the evaluated rounds |
| QuicModes.StartupEnds | drafts/bbr_sender.cc:422-447 | With estimates in [b, top] and g growth steps of 25%, num_startup_rtts * g + 1 evaluated rounds fill the pipe |
| QuicStartup.StartupEndsIff | drafts/bbr_sender.cc:422-447 | Some number of evaluated rounds fills the pipe in every run with estimates in [b, top] exactly if b is positive |
| QuicStartup.ZeroNeverFills | drafts/bbr_sender.cc:422-436 | With bandwidth samples of 0 a legal run of n evaluated rounds leaves the pipe unfilled, for every n |
| QuicModes.PipeEffect | drafts/bbr_sender.cc:283-304 | Of all a congestion event does only its full-pipe check touches the detector |
| QuicCycle.PhasesEndInTime | drafts/bbr_sender.cc:394-420 | In every run, in PROBE_BW, counted from the event with which the phase began: a phase of gain 1 ends exactly with the first event after more than the min RTT; one of 5/4 only then, exactly if there are losses or the flight before the event has reached gain * BDP, four segments at least, up to the two truncations; one of 3/4 by then, and earlier if that flight is down at the BDP |
| QuicCycle.DrainByEvent | drafts/bbr_sender.cc:438-447 | From any state of STARTUP or DRAIN, once the pipe is full, an event leads to PROBE_BW if the flight is within the BDP, or four segments, and to DRAIN if it is above, unless PROBE_RTT begins |
| QuicCycle.TargetIsNear | drafts/bbr_sender.cc:316-324 | The target against gain * BDP, up to its truncations, with a floor of four segments |
| QuicCycle.EveryPhaseIsEntered | drafts/bbr_sender.cc:332-344 | Every phase but that of gain 3/4 is entered by some draw, and different draws below seven enter different ones |
| QuicRounds.RoundsAreReal | drafts/bbr_sender.cc:352-359 | Every round start is caused by the acknowledgement of a packet sent after the previous round start |
| QuicRounds.ConservationLastsARound | drafts/bbr_sender.cc:486-519 | CONSERVATION ends only on the acknowledgement of a packet sent after recovery began |
| QuicRounds.RecoveryEndsLossFree | drafts/bbr_sender.cc:486-519 | Recovery ends only on a loss-free acknowledgement of a packet sent after the last acknowledgement that reported losses |
| QuicRounds.FallthroughIsARoundStart | drafts/bbr_sender.cc:507-517 | The way from CONSERVATION straight out of recovery passes through a round start |
| QuicRounds.RunKeepsMarks | drafts/bbr_sender.cc:122-134 | In every run the packet-number marks split the packets by the time at which they were sent |
| QuicRounds.RestKeepsMarks | drafts/bbr_sender.cc:276-304 | Only the first part of a congestion event moves rounds or the recovery state |
| QuicRounds.RecoveryIff | drafts/bbr_sender.cc:486-519 | In every run recovery begins exactly with an acknowledgement that reports losses, CONSERVATION turns to GROWTH exactly with the acknowledgement of a packet sent after the last round start and the entry, and recovery ends exactly with a loss-free one of a packet sent after the last losses |
| QuicRounds.RoundsAreCounted | drafts/bbr_sender.cc:352-359 | In every run the round counter counts the round starts |
| QuicConservation.FlightIsConserved | drafts/bbr_sender.cc:635-679 | Packet conservation: with whole packets and gated sends, during CONSERVATION the bytes in flight never exceed what was in flight at the loss without the lost bytes, or the minimum window rounded up to whole packets; for any number of events and both settings of fix_conservation2 |
| QuicConservation.DriftIsBounded | drafts/bbr_sender.cc:635-679 | With packets of any size up to q they exceed it by at most q - 1 bytes per congestion event, and q - 1 more |
| QuicDrift.DriftIsTight | drafts/bbr_sender.cc:635-679 | This bound is reached for every number n of events and every largest packet size q: in every configuration without rate-based recovery whose initial window holds 2 n + 2 packets of q bytes more than the minimum window (four segments) there is a legal run of packets of at most q bytes after which the flight exceeds its cap by n * (q - 1), and q - 1 more |
| QuicDrift.ConservesIff | drafts/bbr_sender.cc:635-679 | For every set of packet sizes with largest size q and windows that hold one packet of q bytes more than the minimum window: the flight stays within its cap in every legal run of packets of these sizes exactly if q is the only size |
| QuicDrift.UnequalOvershoot | drafts/bbr_sender.cc:165-196 | A smaller packet sent into the last room of the window and a full one after it break the cap |
| QuicConservation.WindowIsConserved | drafts/bbr_sender.cc:635-679 | One event leaves in the recovery window at most the flight without the losses, the window before, or four segments |
| QuicWindow.GrowthReleases | drafts/bbr_sender.cc:635-679 | In every run an event that leaves GROWTH leaves room in the recovery window for twice the acknowledged bytes above the flight, or with fix_conservation2 for once, and then at least the old window less the losses plus those bytes; and no more than one of these, or four segments |
| QuicWindow.GrowthGrows | drafts/bbr_sender.cc:635-679 | Over any number of events in GROWTH the recovery window grows by all that is acknowledged, less the losses; without fix_conservation2 if each finds the window used up |
| QuicConservation.RunStaysBounded | drafts/bbr_sender.cc:165-196 | The invariant over all runs that ties window, flight and cap |
| QuicProbeRtt.StayIsLongEnough | drafts/bbr_sender.cc:449-484 | PROBE_RTT ends only 200 ms or more after its flight first was small, and only after a round start since then |
| QuicProbeRtt.StaysAreSpaced | drafts/bbr_sender.cc:381-391 | The next PROBE_RTT begins more than ten seconds after the end of the last one |
| QuicProbeRtt.StaysIff | drafts/bbr_sender.cc:449-484 | In every run PROBE_RTT ends exactly with an event 200 ms or more after its drained moment, once a round has begun since; and it begins exactly with an event that brings a sample more than ten seconds after the min RTT was last confirmed, unless a packet was sent from idle before |
| QuicPath.LoopFindsSmallest | drafts/bbr_sender.cc:364-375 | The loop over the acknowledged packets finds their smallest valid RTT sample, or none |
| QuicPath.LoopFindsMaximum | drafts/bbr_sender.cc:364-375 | The loop leaves the filter maximum after the last sample that the application did not limit or that exceeds the maximum so far, and whether the last sample was limited |
| QuicPath.MinRttIsMinimum | drafts/bbr_sender.cc:361-392 | In every run min_rtt_ is the expiring minimum of the samples |
| QuicPath.WindowIsPaidFor | drafts/bbr_sender.cc:585-633 | Over every run of every configuration the congestion window stays between the smallest and the largest of initial, minimum and maximum window, and never exceeds the initial or minimum window by more than the bytes acknowledged |
| QuicPath.BytesAreCounted | drafts/bbr_sender.cc:361-392 | In every run the sender counts just the acknowledged bytes |
| QuicWindow.EventGrows | drafts/bbr_sender.cc:585-633 | From any state, outside PROBE_RTT: with a full pipe the congestion window is at least every size up to the old window plus the acknowledged bytes, the maximum, and gain * BDP with the addition to it, and below every size above that target; before, it grows by exactly those bytes below the target or the first initial window of data, and not at all above |
| QuicWindow.WindowReaches | drafts/bbr_sender.cc:585-633 | Over any number of events with targets of at least n the window grows by all that is acknowledged until it has reached n |
| QuicWindow.ProbeRttWaits | drafts/bbr_sender.cc:188-196 | In PROBE_RTT the congestion window waits, and packets leave exactly while less than four segments are in flight |
| QuicWindow.WindowsGate | drafts/bbr_sender.cc:165-196 | Elsewhere packets leave exactly while the flight is below the congestion window, and in recovery, unless it is rate-based, below the recovery window |
| QuicPath.StartupNeverShrinks | drafts/bbr_sender.cc:621-632 | Before the pipe is full no event shrinks the window, but to the maximum window, from any state and in any configuration |
| QuicPath.WindowIsPaid | drafts/bbr_sender.cc:585-633 | What one event does to the window: growth only with acknowledged bytes, limits kept |
| QuicSender.BbrSender.constructor | drafts/bbr_sender.cc:63-114 | The object starts in the initial state of the state machine, with an empty history |
| QuicSender.BbrSender.OnPacketSent | drafts/bbr_sender.cc:122-134 | Last sent packet and the end of quiescence; the whole new state is that of the state machine |
| QuicSender.BbrSender.CongestionWindow | drafts/bbr_sender.cc:188-196 | Four segments in PROBE_RTT, the smaller of both windows in recovery, else the congestion window |
| QuicSender.BbrSender.TimeUntilSend | drafts/bbr_sender.cc:165-175 | A packet may leave now exactly if the flight is below the window |
| QuicSender.BbrSender.MinRtt | drafts/bbr_sender.cc:310-314 | The min RTT, or the initial RTT while it is unknown |
| QuicSender.BbrSender.TargetCongestionWindow | drafts/bbr_sender.cc:316-324 | gain * BDP, truncated twice, with the initial window in place of 0 and a floor of four segments |
| QuicSender.BbrSender.EnterStartupMode | drafts/bbr_sender.cc:326-330 | Only mode and gains change, to those of STARTUP |
| QuicSender.BbrSender.EnterProbeBandwidthMode | drafts/bbr_sender.cc:332-344 | Only mode, gains, offset and stamp change; the offset is drawn from 0, 2 .. 7 |
| QuicSender.BbrSender.UpdateRoundTripCounter | drafts/bbr_sender.cc:352-359 | The round counter, and whether a round starts |
| QuicSender.BbrSender.TakeSamples | drafts/bbr_sender.cc:364-375 | The loop over the packets gathers bandwidth, RTT and bytes as the fold over them does |
| QuicSender.BbrSender.UpdateBandwidthAndMinRtt | drafts/bbr_sender.cc:361-392 | The path after the acknowledgements, and whether the min RTT expired |
| QuicSender.BbrSender.UpdateRecoveryState | drafts/bbr_sender.cc:486-519 | The recovery state machine with its fallthrough |
| QuicSender.BbrSender.UpdateGainCyclePhase | drafts/bbr_sender.cc:394-420 | The gain cycle moves on, or nothing changes |
| QuicSender.BbrSender.CheckIfFullBandwidthReached | drafts/bbr_sender.cc:422-436 | One evaluated round; only the full-pipe fields change |
| QuicSender.BbrSender.MaybeExitStartupOrDrain | drafts/bbr_sender.cc:438-447 | STARTUP to DRAIN, DRAIN to PROBE_BW |
| QuicSender.BbrSender.StayInProbeRtt | drafts/bbr_sender.cc:457-482 | What an event does inside PROBE_RTT |
| QuicSender.BbrSender.MaybeEnterOrExitProbeRtt | drafts/bbr_sender.cc:449-484 | Entry, stay and end of PROBE_RTT |
| QuicSender.BbrSender.CalculateCongestionWindow | drafts/bbr_sender.cc:585-633 | The congestion window of the state machine |
| QuicSender.BbrSender.CalculateRecoveryWindow | drafts/bbr_sender.cc:635-679 | The recovery window of the state machine, in both settings of the flag |
| QuicSender.BbrSender.CountLost | drafts/bbr_sender.cc:294-296 | The loop adds up the lost bytes |
| QuicSender.BbrSender.OnCongestionEvent | drafts/bbr_sender.cc:239-304 | A congestion event, all but the pacing rate and the sampler: the new state is that of the state machine |
| QuicSender.BbrSender.PacketSent | drafts/bbr_sender.cc:122-134 | A sent packet leaves the state of the run so far and this event |
| QuicSender.BbrSender.CongestionEvent | drafts/bbr_sender.cc:239-304 | A congestion event, the same |
| QuicSender.BbrSender.RunIsSound | drafts/bbr_sender.cc:326-344 | After any such calls DRAIN and PROBE_BW mean a full pipe, STARTUP one that is not full, the gains match the mode, and the window is within its limits and paid for |
| QuicSender.BbrSender.FlightIsConserved | drafts/bbr_sender.cc:635-679 | After any legal calls with whole packets, in CONSERVATION, the flight is within its cap |
| QuicSender.BbrSender.ProbeRttIsSound | drafts/bbr_sender.cc:449-484 | The last of any calls ends PROBE_RTT only after 200 ms and a round, and begins it only ten seconds after the last |
| Ns2Modes.RunRefines | tcp-bbr.cc:340-360 | Every run of new ACKs is a run of the abstract machine |
| Ns2Modes.ModesAreSound | tcp-bbr.cc:222-255 | In every reachable state DRAIN or PROBE_BW implies full pipe, STARTUP implies not full, and the gains are those of the mode, the int cwnd_gain truncated to 2 |
| Ns2Modes.FullForever | tcp-bbr.cc:182-197 | A pipe found full stays full and its detector is frozen |
| Ns2Modes.CycleIsFair | tcp-bbr.cc:228-246 | The phase gains of each PROBE_BW stay sum to n or n + 1/4 |
| Ns2Modes.StartupEnds | tcp-bbr.cc:182-197 | With rates in [b, top] and g growth steps of 25% the pipe is full after 3 g + 1 ACKs, for every ACK is evaluated as if it ended a round |
| Ns2Modes.StartupEndsIff | tcp-bbr.cc:182-197 | Some number of ACKs fills the pipe in every run with rates in [b, top] exactly if b is positive |
| Ns2Modes.FourAcksFillIff | tcp-bbr.cc:182-197 | In every run at a constant positive rate the pipe is full exactly from the fourth ACK on |
| Ns2Modes.RTpropStaysUnknown | tcp-bbr.cc:67-79 | Started without a smoothed RTT the agent accepts no RTT sample in its first ten seconds and does not enter PROBE_RTT |
| Ns2Modes.RTpropUnknownIff | tcp-bbr.cc:67-79 | In every run started so RTprop is unknown exactly if no ACK came after those ten seconds, and else it is a sample |
| Ns2Modes.CycleRaces | tcp-bbr.cc:261-282 | So in PROBE_BW each of these ACKs moves the gain cycle on |
| Ns2Filter.FilterLeads | tcp-bbr.cc:172-180 | After any nonnegative samples 1 <= BtlBw_stamp <= 11, and BtlBw is the sample of BtlBw_stamp updates ago and exceeds every later one |
| Ns2Filter.FilterIsNoMoreThanMax | tcp-bbr.cc:172-180 | BtlBw never exceeds the maximum of the last eleven samples |
| Ns2Filter.UpdateKeepsMaximumIff | tcp-bbr.cc:172-180 | While BtlBw is the maximum of the last eleven samples, the next sample keeps it so exactly unless it finds BtlBw expired and is smaller than one of the ten samples before it |
| Ns2Filter.BtlBwIsMaximumIff | tcp-bbr.cc:172-180 | In every run BtlBw is the maximum of the last eleven delivery rates at every ACK exactly if no ACK finds it expired and brings a smaller rate than one of the ten before |
| Ns2Filter.ExpiryForgets | tcp-bbr.cc:172-180 | For all a > b > c: after a, b and ten times c the filter holds c though b is among the last eleven samples |
| Ns2Filter.AgentFilters | tcp-bbr.cc:353-355 | In every run BtlBw is what the filter makes of the delivery rates |
| Ns2Filter.RTpropIsMinimum | tcp-bbr.cc:67-79 | In every run RTprop is the expiring minimum of the samples, less than every later one |
| Ns2ProbeRtt.StayIsLongEnough | tcp-bbr.cc:304-319 | PROBE_RTT ends only more than 200 ms after at most four packets were first in flight |
| Ns2ProbeRtt.StaysAreSpaced | tcp-bbr.cc:67-79 | The next PROBE_RTT begins more than ten seconds after the end of the last one |
| Ns2ProbeRtt.StaysIff | tcp-bbr.cc:284-319 | In every run PROBE_RTT ends exactly with an ACK more than 200 ms after its drained moment, and begins exactly with one more than ten seconds after RTprop was last confirmed |
| Ns2Cycle.PhasesEndInTime | tcp-bbr.cc:236-282 | In every run, in PROBE_BW, an ACK ends the phase exactly if more than RTprop has passed since it began, or, with gain 3/4, the flight before is at most BtlBw * RTprop and the quanta, or the initial window while RTprop is unknown |
| Ns2Cycle.DrainByAck | tcp-bbr.cc:222-255 | From any state of STARTUP or DRAIN, once the pipe is full, an ACK leads to PROBE_BW exactly if the flight is at most that, and else to DRAIN, unless PROBE_RTT begins |
| Ns2Cycle.EveryPhaseIsEntered | tcp-bbr.cc:228-234 | Every phase but that of gain 3/4 and the next is entered by some draw |
| Ns2Agent.BbrTcpAgent.constructor | tcp-bbr.cc:645-678 | The object starts in the initial state of the state machine, with an empty history |
| Ns2Agent.BbrTcpAgent.UpdateBtlBw | tcp-bbr.cc:172-180 | One sample through the count-expired filter; nothing else changes |
| Ns2Agent.BbrTcpAgent.BBRInflight | tcp-bbr.cc:119-125 | The initial window while RTprop is unknown, else gain * BDP plus three quanta |
| Ns2Agent.BbrTcpAgent.AdvanceCyclePhase | tcp-bbr.cc:240-246 | Next phase, its stamp and gain; nothing else changes |
| Ns2Agent.BbrTcpAgent.IsNextCyclePhase | tcp-bbr.cc:261-282 | A full RTprop has passed, or in the 0.75 phase the queue is gone |
| Ns2Agent.BbrTcpAgent.CheckCyclePhase | tcp-bbr.cc:236-238 | The cycle moves on only in PROBE_BW |
| Ns2Agent.BbrTcpAgent.CheckFullPipe | tcp-bbr.cc:182-197 | One evaluation of the full-pipe detector |
| Ns2Agent.BbrTcpAgent.EnterStartup | tcp-bbr.cc:622-626 | Only mode and gains change, to those of STARTUP |
| Ns2Agent.BbrTcpAgent.EnterDrain | tcp-bbr.cc:222-226 | Only mode and gains change, to those of DRAIN |
| Ns2Agent.BbrTcpAgent.EnterProbeBw | tcp-bbr.cc:228-234 | Only the phase fields change; the entry phase is drawn from 0, 3 .. 7 |
| Ns2Agent.BbrTcpAgent.CheckDrain | tcp-bbr.cc:248-255 | STARTUP to DRAIN, DRAIN to PROBE_BW |
| Ns2Agent.BbrTcpAgent.UpdateRTprop | tcp-bbr.cc:67-79 | The min RTT filter and its expiry flag; nothing else changes |
| Ns2Agent.BbrTcpAgent.EnterProbeRtt | tcp-bbr.cc:284-302 | Entry to PROBE_RTT |
| Ns2Agent.BbrTcpAgent.ExitProbeRtt | tcp-bbr.cc:321-324 | PROBE_BW if the pipe is full, else STARTUP |
| Ns2Agent.BbrTcpAgent.HandleProbeRtt | tcp-bbr.cc:304-319 | What an ACK does to stamps, mode and gain cycle inside PROBE_RTT |
| Ns2Agent.BbrTcpAgent.CheckProbeRtt | tcp-bbr.cc:284-296 | Entry, stay and end of PROBE_RTT |
| Ns2Agent.BbrTcpAgent.RecvNewAckHelper | tcp-bbr.cc:340-360 | Everything a new ACK does to modes, filters and gain cycle |
| Ns2Agent.BbrTcpAgent.NewAck | tcp-bbr.cc:340-360 | An ACK leaves the state of the run so far and this ACK |
| Ns2Agent.BbrTcpAgent.RunIsSound | tcp-bbr.cc:222-255 | After any ACKs DRAIN and PROBE_BW mean a full pipe, STARTUP one that is not full, the gains match the mode, and BtlBw is what the filter makes of the delivery rates |
| Ns2Agent.BbrTcpAgent.ProbeRttIsSound | tcp-bbr.cc:284-319 | The last of any ACKs ends PROBE_RTT only after 200 ms, and begins it only ten seconds after the last |
| TcpSequence.RunSafe | drafts/tcp.cc:711-865 | In every run highest_ack_ < t_seqno_ <= maxseq_ + 1; exactly the numbers 0 .. maxseq_ were sent; ndatapack_ counts the packets sent and equals nrexmitpack_ + maxseq_ + 1; and at most the advertised window is outstanding |
| TcpSequence.BurstSound | drafts/tcp.cc:1130-1157 | The send loop leaves at most max(old outstanding, window) outstanding and acknowledges nothing |
| TcpSequence.BurstIsComplete | drafts/tcp.cc:1130-1157 | It stops only when nothing more may be sent or maxburst_ packets were |
| TcpSequence.OutputSound | drafts/tcp.cc:836-865 | Sending the next packet, or an earlier one again, keeps numbers and counters consistent, also when the SYN is given up |
| TcpSequence.StepSafe | drafts/tcp.cc:1673-1688 | Every event keeps the sequence numbers safe |
| TcpRing.RingRefinesMap | drafts/tcp.cc:728-750 | In every run, across all sends and doublings, the slot of every unacknowledged sequence number holds the time of its last transmission (but for the SYN with which the sender gives up); a run whose copy loop leaves its tables before the first ACK is covered as if that access were dropped |
| TcpRing.CopyKeeps | drafts/tcp.cc:737-746 | After i rounds of the copy loop the doubled table holds the i entries above the acknowledged one |
| TcpRing.PreparedFits | drafts/tcp.cc:735-746 | The table always has room for the next packet |
| TcpStray.BurstStraysIff | drafts/tcp.cc:737-746 | A burst before the first ACK, with or without a SYN and under any maxburst_, accesses memory outside the table exactly if the window, the data (the SYN is one packet of it) and what maxburst_ leaves let it reach the 91st packet, and the sender does not give up on its SYN |
| TcpStray.FirstBurstStraysIff | drafts/tcp.cc:737-746 | The first burst of a connection does so exactly if 90 packets of data are supplied with syn_ set, or 91 without, the advertised and the initial window are at least 91 packets, and maxburst_ is 0 or at least 91 |
| TcpStray.StepIsUnguardedIff | drafts/tcp.cc:737-746 | While nothing has strayed, an event accesses memory outside exactly if, before the first ACK, the guards that hold before it let limited transmit or a fast retransmit send with 90 packets out, or let its burst reach the 91st packet |
| TcpStray.RunStraysIff | drafts/tcp.cc:737-746 | In every run, of any configuration, such an access happens exactly if some event is let through by these guards; which is exactly if some event before the first ACK leaves 91 packets or more sent, or cuts the window with 90 or more out |
| TcpReno.OneCutPerWindow | drafts/tcp-reno.cc:172-219 | With bug_fix_, in every run the third duplicate ACK cuts the window exactly if everything sent before the last cut or timeout is acknowledged, or packet 0 alone with bugfix_ss_ |
| TcpReno.RunRemembers | drafts/tcp-reno.cc:147-231 | The invariant behind it: recover_ marks the last cut or timeout, and last action DUPACK implies dupacks_ >= numdupacks_ |
| TcpReno.EveryThirdCuts | drafts/tcp-reno.cc:172-186 | Without bug_fix_ every third duplicate ACK cuts |
| TcpReno.FastRetransmitHalves | drafts/tcp-reno.cc:209-219 | A standard cut sets ssthresh_ to half the flight, at least 2, the window to at most half the flight plus numdupacks_, and sends the first unacknowledged packet alone |
| TcpReno.TimeoutRestarts | drafts/tcp.cc:2205-2245 | A timeout with data outstanding leaves a window of one packet and half the flight as ssthresh_ |
| RenoRecovery.RecoverySends | drafts/tcp-reno.cc:42-59 | In every legal run without a burst limit, after a fast retransmit and k more duplicate ACKs: just the first unacknowledged packet and the next numbers have been put on the wire, until min(wnd_, cwnd_ + numdupacks_ + k) packets are outstanding or the data runs out; cwnd_ is what the cut left |
| RenoRecovery.CutSends | drafts/tcp.cc:1535-1668 | A cut leaves half the flight, or beyond slow start the configured share, as window and threshold, truncated unless precision is asked for |
| RenoRecovery.NewAckSends | drafts/tcp-reno.cc:105-112 | An ACK for new data ends the inflation, and just the next numbers go out until min(wnd_, cwnd_) packets are outstanding or the data runs out |
| RenoRecovery.TimeoutSends | drafts/tcp-reno.cc:221-231 | A timeout with data outstanding sends the first unacknowledged packet alone |
| RenoRecovery.IdleTimeout | drafts/tcp.cc:2195-2245 | What a timeout with nothing outstanding leaves of window and threshold |
| RenoRecovery.OldAcksAreIgnored | drafts/tcp-reno.cc:130-146 | An ACK for less than was acknowledged changes nothing, but that a burst may go on with aggressive_maxburst_ |
| RenoRecovery.UncutDuplicates | drafts/tcp-reno.cc:114-129 | Without a cut, with exitFastRetrans_, duplicates from the third on leave the window alone |
| RenoRecovery.UncutInflates | drafts/tcp-reno.cc:114-129 | Without exitFastRetrans_ they inflate it all the same |
| RenoAgent.RenoTcpAgent.constructor | drafts/tcp.cc:493-565 | The object starts in the initial state of the state machine, with an empty history |
| RenoAgent.RenoTcpAgent.PacketInFlight | drafts/tcp.cc:1093-1095 | t_seqno_ - highest_ack_, or 0 |
| RenoAgent.RenoTcpAgent.Window | drafts/tcp-reno.cc:42-59 | The truncated congestion window and the inflation by duplicates, at most the advertised window |
| RenoAgent.RenoTcpAgent.CopyOne | drafts/tcp.cc:741-743 | One turn of the loop: the entry moves to its new slot, or an access outside the tables is reported and dropped |
| RenoAgent.RenoTcpAgent.CopyTable | drafts/tcp.cc:741-743 | The loop fills the new table as the copy function does and reports an access outside exactly if highest_ack_ is negative |
| RenoAgent.RenoTcpAgent.DoubleTable | drafts/tcp.cc:736-746 | Only the table changes: the doubled one, freshly allocated |
| RenoAgent.RenoTcpAgent.StampTime | drafts/tcp.cc:728-750 | Allocation, doubling and the store of the time; nothing else changes |
| RenoAgent.RenoTcpAgent.Transmit | drafts/tcp.cc:836-860 | The packet goes out and is counted as new or as a retransmission |
| RenoAgent.RenoTcpAgent.Output | drafts/tcp.cc:711-865 | The new state of all fields and the table, with the SYN and its abort |
| RenoAgent.RenoTcpAgent.SendNext | drafts/tcp.cc:1133-1137 | One packet is sent and t_seqno_ moves on |
| RenoAgent.RenoTcpAgent.SendMuch | drafts/tcp.cc:1107-1171 | The loop does what the state machine's burst does, and ends |
| RenoAgent.RenoTcpAgent.SendOne | drafts/tcp.cc:1896-1908 | Limited transmit |
| RenoAgent.RenoTcpAgent.Slowdown | drafts/tcp.cc:1535-1668 | Window and threshold after a cut by the standard decrease; nothing else changes |
| RenoAgent.RenoTcpAgent.DupAckAction | drafts/tcp-reno.cc:172-219 | Fast retransmit, or nothing |
| RenoAgent.RenoTcpAgent.NewAck | drafts/tcp.cc:1673-1688 | Numbers and counters after a new ACK |
| RenoAgent.RenoTcpAgent.DuplicateAck | drafts/tcp-reno.cc:114-129 | What one duplicate ACK does |
| RenoAgent.RenoTcpAgent.Recv | drafts/tcp-reno.cc:78-146 | What an ACK does to numbers, table, recovery state and sending, given the grown window |
| RenoAgent.RenoTcpAgent.CutAfterTimeout | drafts/tcp.cc:2195-2245 | What a timeout does to window, threshold and recover_ |
| RenoAgent.RenoTcpAgent.ForgetDuplicates | drafts/tcp-reno.cc:223-226 | The duplicates are forgotten, and with bug_fix_ recover_ is moved; nothing else changes |
| RenoAgent.RenoTcpAgent.Resume | drafts/tcp.cc:1184-1185 | The next packet is the first unacknowledged one; nothing else changes |
| RenoAgent.RenoTcpAgent.Timeout | drafts/tcp-reno.cc:221-231 | What the retransmit timer does to window, numbers, recovery state and sending |
| RenoAgent.RenoTcpAgent.AdvanceBy | drafts/tcp.cc:883-889 | More data, and what may be sent of it |
| RenoAgent.RenoTcpAgent.OnData | drafts/tcp.cc:883-889 | New data leaves the state of the run so far and this event |
| RenoAgent.RenoTcpAgent.OnAck | drafts/tcp-reno.cc:78-146 | An ACK, the same |
| RenoAgent.RenoTcpAgent.OnTimer | drafts/tcp-reno.cc:221-231 | The timer, the same |
| RenoAgent.RenoTcpAgent.RunIsSound | drafts/tcp.cc:711-865 | After any such calls by which the run is legal the sequence numbers are safe and the table holds the times of all unacknowledged packets |
| RenoAgent.RenoTcpAgent.StraysIff | drafts/tcp.cc:737-746 | After any such calls an access has left the tables exactly if one of them was let through by the guards of the first ACK |
| RttEstimator.RunIsBounded | drafts/tcp.cc:615-691 | With samples in [lo, hi] that fit a short, in every run the smoothed time is 0 after a clobber or in [lo, hi], and the deviation at most max(2 hi, 4 (hi - lo) + 3), plus hi after a clobber |
| RttEstimator.ClampsNeverFire | drafts/tcp.cc:651-659 | The 16-bit differences are exact and the clamps to 1 never fire |
| RttEstimator.UpdateFollowsRfc2988 | drafts/tcp.cc:644-659 | The scaled sums follow the weights of section 2.3 of RFC 2988 with an error below one unit of the last place |
| RttEstimator.TimeoutFollowsRfc2988 | drafts/tcp.cc:664-670 | The timeout is the smoothed time plus four deviations, in ticks |
| RttEstimator.FirstSample | drafts/tcp.cc:660-663 | The first sample, and every one after a clobber, follows section 2.2 of RFC 2988 |
| RttEstimator.BackoffsNeverShortenIff | drafts/tcp.cc:579-611 | For every configuration and nonnegative rtxcur_init_: in all runs successive backoffs give timeouts that never decrease, never exceed maxrto_ and are never negative, exactly if maxrto_ is at least two ticks, and rfc2988_ is off, or maxrto_ is two ticks, or at most 2^30 times the least value that is ever multiplied: the larger of minrto_ and the smaller of rtxcur_init_ and a tick |
| RttEstimator.SomeRunExits | drafts/tcp.cc:675-691 | Otherwise 31 backoffs and a sample, after the two samples that make the shortest timeout if need be, end the program with a negative timeout |
| RttEstimator.ShortestTimeout | drafts/tcp.cc:644-670 | Samples of 1 and 32769 ticks make a timeout of one tick: the 16-bit difference wraps |
| RttEstimator.RunKeepsTimer | drafts/tcp.cc:675-691 | In every run of such a configuration the multiplier is a power of two up to 64, or with rfc2988_ below twice maxrto_ over that least value |
| RttEstimator.MultiplierIsPower | drafts/tcp.cc:675-685 | In every run the multiplier is 2^k, where k counts the backoffs since the last ACK that ended one: up to six, and with rfc2988_ beyond while the timeout is below its cap |
| RttEstimator.TimeoutIsMultiple | drafts/tcp.cc:579-611 | In every run the timeout is the last one computed, at least minrto_, times that power, within two ticks and maxrto_ |
| RttEstimator.EndedTimeout | drafts/tcp.cc:1698-1719 | Right after a sample that ends a backoff it is the smoothed time plus four deviations, at least minrto_, within these bounds |
| RttEstimator.BackoffClobbersIff | drafts/tcp.cc:682-690 | A backoff moves the smoothed time into the deviation exactly if the multiplier is then above 8 |
| RttEstimator.TimeoutIsCapped | drafts/tcp.cc:579-611 | The timeout is between two ticks and maxrto_ |
| RttAgent.RttState.constructor | drafts/tcp.cc:570-577 | The object starts in the initial state, without a smoothed time and with an empty history |
| RttAgent.RttState.SmoothIn | drafts/tcp.cc:650-663 | The smoothing step on the fields; nothing else changes |
| RttAgent.RttState.RttUpdate | drafts/tcp.cc:615-673 | The new state after a sample: the sums and the timeout in ticks |
| RttAgent.RttState.RttTimeout | drafts/tcp.cc:579-611 | The timeout, or the end of the program on a negative one |
| RttAgent.RttState.RttBackoff | drafts/tcp.cc:675-691 | The whole new state after a backoff |
| RttAgent.RttState.NewSample | drafts/tcp.cc:615-673 | A sample leaves the state of the run so far and this event |
| RttAgent.RttState.StopBackoff | drafts/tcp.cc:1698-1719 | The end of a backoff, the same |
| RttAgent.RttState.RetransmissionTimeout | drafts/tcp.cc:675-691 | A backoff, the same |
| RttAgent.RttState.StaysInBand | drafts/tcp.cc:615-691 | After any such calls with all samples in [lo, hi] the smoothed time is in [lo, hi], or 0 after a clobber, and the deviation is bounded |

## Left out

- LinuxPolicer.PolicerIsSound: runs in which an interval can end and the loss test is wrong (LinuxPolicer.LossTestIsExactIff), its time wraps to a short one (LinuxPolicer.TimeIsExactIff), or the comparison with the rate before is wrong (LinuxArith.ConsistencyIsExactIff); and there rates from 2^31 units and packets from 2^16 bytes. LinuxPoliced.LongIsUsed is a run of the second kind for which it fails.
- LinuxPolicer.PolicerDetectsIff: the same runs; an interval of 2^31 microseconds or more is not sound, and the code gives it up.
- LinuxPoliced.LongIsUsed: only at 1000 ticks a second; LinuxPolicer.TimeIsExactIff is for every tick rate that divides a second evenly.
- LinuxGrowth.AckGrows: windows, losses and flights below 2^31 and targets whose words do not wrap (LinuxArith.TargetFits).
- LinuxCycle.PhasesEndInTime: such targets.
- LinuxCycle.DrainByAck: such targets.
- LinuxControl.InitPaces: initial windows below 256 packets; beyond them the u64 quotient is cut to a u32.
- QuicWindow.EventGrows: `congestion_window_gain_` is positive.
- QuicCycle.TargetIsNear: sizes within the two truncations of the target are on neither side.
- RenoRecovery.RecoverySends: `maxburst_` is 0, its default, and packet 0 is acknowledged, so that no SYN is sent again.
- RenoRecovery.NewAckSends: `maxburst_` is 0.
- RenoRecovery.TimeoutSends: `maxburst_` is 0, and packet 0 is acknowledged.
- LinuxStartup.RunDetects: estimates below 4 units or whose threshold is truncated; for these LinuxStartup.ConstantRateFillsIff and LinuxStartup.StartupEndsIff say what then happens.
- LinuxWrap.RunTruncs: values compared stay within 2^31 of each other; the 10-packet test on `tp->delivered` is excluded where the wrapped counter is small again, and a done stamp of 0 is excluded, with which the 32-bit machine does differ from the unbounded one (LinuxProbeRtt.DrainForgottenIff).
- LinuxProbeRtt.KernelProbeRtt: values compared stay within 2^31 of each other.
- QuicConservation.FlightIsConserved: `rate_based_recovery_` off; with it the recovery window is not used at all.
- QuicDrift.ConservesIff: windows that hold fewer packets than the run needs, packets of no bytes, and `rate_based_recovery_`, with which nothing conserves.
- QuicDrift.DriftIsTight: the same windows, and `rate_based_recovery_`.
- QuicSender.BbrSender.OnCongestionEvent: `CalculatePacingRate`, `DiscardLostPackets`, the ack aggregation and slow-delivery flags and the sampler.
- QuicStartup.StartupEndsIff: `num_startup_rtts_` of 0.
- QuicModes.StartupEnds: only rounds that are not application-limited count; the code evaluates no others.
- Ns2Agent.BbrTcpAgent.HandleProbeRtt: `RestoreCwnd`, which writes the window that `send_much` sets to 1.
- Ns2Modes.RTpropUnknownIff: `t_rtt_` is not negative; the code starts it at 0 and never lowers it below.
- RenoAgent.RenoTcpAgent.Slowdown: `wnd_option_` 6 and 8 (HighSpeed and binomial decreases), `pace_loss_filter_` and the cut counters.
- RenoAgent.RenoTcpAgent.Recv: the growth of the window is an argument; the RTT update, the timers, Quick-Start, ECN and F-RTO are left out.
- RenoAgent.RenoTcpAgent.CutAfterTimeout: the changes of `wnd_init_` and `wnd_init_option_`, which only later initial windows read, and `nrexmit_`.
- RenoAgent.RenoTcpAgent.Resume: of `reset_rtx_timer` the timer, its backoff and the RTT flag.
- RenoAgent.RenoTcpAgent.Timeout: `rtt_backoff`, which is RttAgent.RttState.RttBackoff, and the timer itself.
- RttAgent.RttState.constructor: `srtt_init_` is 0, its default.
- RttAgent.RttState.RttUpdate: the conversion of the sampled time to ticks and the RTT that pacing uses.
- RttEstimator.BackoffsNeverShortenIff: a negative `rtxcur_init_`, and `use_rtt_`, which replaces one timeout.
- RttEstimator.RunIsBounded: `srtt_init_` is 0, `T_SRTT_BITS` 3, `T_RTTVAR_BITS` 2 and `rttvar_exp_` 2, their defaults.
- TcpSequence.RunSafe: F-RTO, ECN, Quick-Start, QOption, ELN, pacing and `overhead_` are off, `bugfix_ts_` is on, and no ACK is for more than was sent.
- TcpReno.OneCutPerWindow: ECN and F-RTO off.
- Linux: the windowed maximum `win_minmax`, `tcp_tso_autosize` and the socket are arbitrary inputs, also `tp->app_limited` where a transmission starts; `snd_ssthresh`, `bbr_sndbuf_expand`, `bbr_undo_cwnd`, `bbr_get_info` and module registration only pass values on.
- Linux: the tick rate is a parameter, and conversions of jiffies are those for rates that divide evenly or round up.
- QUIC: `BandwidthSampler` and `WindowedFilter` are arbitrary inputs; the pacing rate, slow delivery, ack aggregation and bandwidth resumption are left out; `rtt_variance_weight_`, ack aggregation and the TSO allowance appear as one arbitrary addition to the target window.
- QUIC: floats and `QuicBandwidth` products are reals with the truncations of the code, without rounding.
- ns-2 BBR: window, send quantum, recovery and pacing; the code reads `packets_delivered`, `packets_lost` and `delivered`, which nothing assigns, and `send_much` sets the window to 1.
- ns-2 BBR: `Now()` jumps when the first packet is sent; runs have a monotone clock. An infinite delivery rate (two events at one time) is not modelled. `idle_restart` is never set by the code and is left out.
- ns-2: doubles are reals, without rounding; timers, packets and tracing are left out, and the application is told nothing when all is sent.
- TCP: the growth of the window (`opencwnd`, `initial_window`) is an arbitrary input; HighSpeed and binomial decreases, Quick-Start, QOption and pacing inflation use logarithms and powers.
- Vegas (drafts/tcp-vegas.cc), the patches, drafts/pacing.c and the scripts.
