# FastProf / ProbData: a verified model

FastProf looks for good transport settings between two hosts: a client and a server open a
control channel, the client searches a history file of earlier measurements, profiles TCP and then
UDT with a stochastic search over two parameters, appends every measurement to the history, and
recommends the best of the three.  This project models these parts in Dafny and proves what they
promise.  `dafny verify dfyconfig.toml` checks all of it.

## What is modelled

**The control protocol** (`Wire`, `Parties`, `Sessions`, `Channels`, `Plans`, `Choreography`,
`SessionInvariant`, `SessionTheorems`, `SessionProgress`, `Transcripts`, `Programs`, `Workers`).  `Wire` has the byte
level: the send and receive loops over a socket that fragments as it likes, and the handshake.
`Parties` has the two programs over `struct probdata`: for each status code the list of transfers and
steps that its handler makes, and how received bytes enter the fields.  `Sessions` puts both programs,
two FIFO byte queues and the server's two worker threads into one world in which any enabled move may
come next; a move transfers any number of bytes, does one step, or is one of a worker's.  A program knows
nothing of the other.  `Plans` proves for any common order of messages that two programs which follow it stay in it; `Choreography`
gives the one order of a session and proves that the two switches follow it.  The rest states what
holds of every run: framing, agreement, rising codes, the order of all work, worker safety, phase exclusion,
termination, freedom from deadlock and the exact sessions in which the server can hang.  `Transcripts` has
all messages of a session as bytes, and the moments of all work between them.  `Programs` is
the same system on the heap, two objects updated in place, proved to make the moves of `Sessions`.  The
history search enters as its success; error-free means that no transfer fails and the peer does not close early.

**The tuning loop** (`Probes`, `Tuning`, `TuningSteps`, `TuningTrace`, `TuningRange`, `TuningReport`,
`PlainPass`, `Climbs`, `WrongReports`, `Budgets`, `Profiler`).
TCP and UDT run the same algorithm; the kind of the configuration tells which parameter is the buffer and
how a setting is written.  Everything a pass takes from outside (ping time, perturbation signs, the
two powers, three measurements, what converting an out-of-range double yields) is an arbitrary input, so all
results hold for every environment.  Doubles are reals; the powers are arbitrary positive numbers where
something is claimed of all runs.  Where a run is shown to exist the powers are given and not chosen, and the
rates are not negative (`Climbs`).
`Tuning` is the loop as a function with an unbounded number of passes, `Profiler` the same loop over mutable
variables, one shared test object and `prof_max` as a shallow copy of `prof`, proved to compute it.
`PlainPass` says once more what a pass, an exit test and a measurement do, in products, nearest whole numbers
and written-out constants, without the functions of `Tuning`.

**The profile history** (`Decimals`, `Scanf`, `Records`, `TextFiles`, `Histories`).  Text is `seq<char>`;
the printer and the scanner are modelled conversion by conversion, with the C library's widths
(a `%d` that overflows saturates to 64 bits and keeps the low 32).  `%lf` keeps six decimals, ties to even,
so a performance is a real and comes back `Rounded`.

**The queues** (`TailQueues`, `Streams`).  One heap class stands for both a tail queue's head and its
elements, as the macros treat them; the list of streams is walked with wrapping 64-bit sums.

**The recommendation** (`Advisor`, `WholeSession`): composing a record, what a run adds to the file and the
three tests at the end; then the work of the protocol's client, in the order in which the session does it,
on the file, and the theorems that tie session, profilers, file and a fresh search together.  `Numbers` and `Options` hold
what all share.

## Where the code surprises

- A session with `-t` whose history search fails still asks for TCP profiling; the server starts the TCP
  worker, never cancels it and then joins it (`SessionProgress.DeadlockExactly`).
- `prof_max` shares the test object with `prof`: its performance is the best one, its settings are those
  written last.  With the default gains, and any others that move the streams or the block size, some run
  prints the wrong setting unless the bandwidth, the ratio or a limit is 0 (`WrongReports.ReportExactly`,
  `WrongReports.ReportExactlyByDefault`); with small gains none may (`WrongReports.SmallGainsReport`).  The file
  has the right one (`WholeSession.FileNamesSetting`).
- With a limit N of 1, 4, 7, ... the server's UDT worker stops before a long client run does
  (`Budgets.BudgetCoversRuns`).
- After a short read the handshake succeeds with whatever was in the buffer (`Wire.Endpoint.ExchangeServer`).
- A gain ratio of 0 with any bandwidth but 0 ends the run by the gain exit before anything is measured
  (`TuningTrace.GainAtStart`).
- A history line of more than 511 characters, even a comment, goes on as a further line (`Histories.LongLine`).
- The record's source address is cut at the length of the remote one (`Advisor.SourceKept`).
- The round-trip time is smoothed with weights 1/8 for the old and 7/8 for the new value, the reverse of
  section 2 of RFC 6298 (`TuningRange.RttConverges`).
- `send_Nbytes` reports success when a write returned 0 (`Wire.Socket.SendNbytes`).
- The second error test of the UDT worker cannot succeed (`Workers.UdtFastprofWorker`).
- In a session with TCP and UDT the TCP worker is joined twice; the second join is taken to return at once.

## Model

| member | source | states |
|---|---|---|
| Wire.IntRoundTrip | src/probdata/probdata_control.cpp:335-343 | an int of the handshake survives its four bytes, for every 32-bit value |
| Wire.IntBytes | src/probdata/probdata_control.cpp:335-343 | the four bytes are the number modulo 2^32, the least significant first |
| Wire.MsgRoundTrip | src/probdata/probdata_control.cpp:285-310 | both fields of the 8-byte control message survive their encoding |
| Wire.MsgBytes | src/probdata/probdata_control.cpp:285-310 | the first four bytes of the message are those of the flag, the others those of the buffer limit |
| Wire.CodeBytes | src/probdata/probdata_control.cpp:231-243 | a status code is one byte, the code modulo 256, and is read back with its sign |
| Wire.Socket.RecvNbytes | src/probdata/probdata_control.cpp:245-262 | however `read` cuts the stream, the answer is exactly the next `count` bytes, or all there are when the peer closes early; -1 only on a failed read; nothing is skipped |
| Wire.Socket.SendNbytes | src/probdata/probdata_control.cpp:264-281 | what is written is a prefix of the buffer; without an error the answer is the full length, and the whole buffer was written if and only if no `write` returned 0 |
| Wire.Endpoint.ExchangeServer | src/probdata/probdata_control.cpp:317-350 | the server takes up to 8 bytes and keeps the rest of its uninitialised buffer when the peer closes early; it adopts the flag read, keeps the smaller buffer limit in both places, and answers with these values |
| Wire.Endpoint.ExchangeClient | src/probdata/probdata_control.cpp:283-315 | the client sends its values and reads up to 8 bytes over them, so that after a short answer it compares with its own; it keeps the smaller buffer limit in both places and its own flag |
| Wire.HeardWhole | src/probdata/probdata_control.cpp:285-343 | a whole control message is heard with the two values it was sent with |
| Wire.HeardByte | src/probdata/probdata_control.cpp:317-350 | after a short read byte k of the message buffer is byte k of what came, or what was there before |
| Parties.OddCode | src/probdata/probdata_client.cpp:454-469 | on a code that it does not know, or with a destination file only, the client gives up, by the numbers of src/probdata/probdata.h; the server goes on polling, except after P_SERVER_ERROR and P_CLIENT_TERMINATE |
| Channels.Written | src/probdata/probdata_control.cpp:264-281 | a write of any part of a message keeps the queue equal to what is sent and not yet received |
| Channels.Consumed | src/probdata/probdata_control.cpp:245-262 | a read of any part finds the next bytes of the message its receiver expects, and keeps the queue equation |
| Channels.SentBefore | src/probdata/probdata_control.cpp:245-281 | no message is received before it is sent |
| Channels.LogReceived | src/probdata/probdata_control.cpp:245-281 | the receiver's log of a direction is a prefix of the sender's |
| Choreography.ClientAdvances | src/probdata/probdata_client.cpp:107-144 | from its state at any message of the common order, the client's own handlers lead to its state at the next one, with the work between |
| Choreography.ServerAdvances | src/probdata/probdata_server.cpp:84-134 | the same for the server, whatever workers exist before the last code |
| Choreography.ClientReacts | src/probdata/probdata_client.cpp:192-469 | the client's answer to every echoed code is what the next message of the order needs |
| Choreography.ServerReacts | src/probdata/probdata_server.cpp:186-379 | the server's answer to every code is the echo of the order, with the worker steps before or after it |
| Choreography.PlanGood | src/probdata/probdata_server.cpp:19-70 | in every valid session the two programs, each from its own switch, follow one common order of messages |
| Plans.WriteMoves | src/probdata/probdata_control.cpp:264-281 | every partial or completing write of either side leads to the next position of the plan, queues included |
| Plans.ReadMoves | src/probdata/probdata_control.cpp:245-262 | every partial or completing read of either side consumes bytes of the message it expects and leads to the next position |
| Plans.ActMoves | src/probdata/probdata_server.cpp:276-362 | so does every piece of work, which is the one the plan has there |
| Plans.PlanKept | src/probdata/probdata_server.cpp:19-70 | for any plan that two programs follow, every move of either party or of a worker keeps it |
| SessionInvariant.InitInv | src/probdata/probdata_client.cpp:20-51 | the starting state is in the invariant |
| SessionInvariant.WorkersWorked | src/probdata/probdata_server.cpp:276-362 | start, cancel and join of the two workers lead to the worker states that belong to the next position |
| SessionInvariant.MoveKeepsInv | src/probdata/probdata_server.cpp:19-70 | every enabled move of a session keeps the invariant over parties, queues and workers |
| SessionInvariant.RunKeepsInv | src/probdata/probdata_server.cpp:19-70 | so does every finite run, in every interleaving and fragmentation |
| SessionTheorems.Framing | src/probdata/probdata_control.cpp:245-350 | in every reachable state each party's completed receives are, kind by kind and byte by byte, a prefix of the other's completed sends; so no id, address or control message byte is read as a status code |
| SessionTheorems.NothingLost | src/probdata/probdata_control.cpp:245-350 | in every finished session they are all of them: what was sent has arrived |
| SessionTheorems.Agreement | src/probdata/probdata_control.cpp:283-350 | a party that has the other's control message, in particular one at P_RUN_M2M_DB or later, holds the minimum of the two starting limits in both places and the client's UDT-only flag |
| SessionTheorems.AgreementKept | src/probdata/probdata_control.cpp:283-350 | no later move changes these values |
| SessionTheorems.StatusGrows | src/probdata/probdata.h:21-30 | no move takes either party to a smaller status code |
| SessionTheorems.StatusRises | src/probdata/probdata.h:21-30 | every status code that either party receives is strictly larger than the one it had |
| SessionTheorems.ClientBehind | src/probdata/probdata.h:21-30 | the client's code is never ahead of the server's |
| SessionTheorems.WorkInOrder | src/probdata/probdata_client.cpp:281-438 | in every reachable state the work each side has done is a first part of the list that the session's parameters give, and in a finished session all of it: a client with TCP has searched, run TCP and run UDT, in this order |
| SessionTheorems.WorkerSafety | src/probdata/probdata_server.cpp:300-362 | the TCP worker about to be cancelled exists; at the P_PROGRAM_DONE join it is already joined when `do_udt_only <= 0`, and otherwise it is live and uncancelled or gave up, and the history search had failed; the UDT join happens at P_PROGRAM_DONE |
| SessionTheorems.PhaseExclusion | src/probdata/probdata_server.cpp:276-331 | while the client profiles TCP the server's TCP worker was started and not cancelled; with `do_udt_only <= 0` a UDT worker exists only after the TCP worker was joined |
| Transcripts.SessionTranscript | src/probdata/probdata.h:21-30 | in every reachable state what each side has sent, and what it has received, is a first part of one explicit list of messages, codes written as their bytes: 2, 3 and 3 around the handshake, then 4, 5, 6, 10 or 4, 6, 10 or 7, 8, 9, 10; in a finished session all of it |
| Transcripts.Introduced | src/probdata/probdata_server.cpp:84-134 | the server holds the 32-byte id that the client made once it has received it, and the client the address that the server saw it under |
| Transcripts.StatusHeard | src/probdata/probdata.h:21-30 | the status of each side is the last code that it received, before that 1 and 2 for a connection, and 0 while the client has none |
| Transcripts.WorkMoment | src/probdata/probdata_server.cpp:216-362 | whenever a side is about to do a piece of work, the last message that it received and the last one that it sent are these: the client profiles TCP between the echo of 5 and its own 6, the server starts the TCP worker after 5 and before its echo, and the UDT worker after its echo of 6 |
| Transcripts.ServesInPhase | src/probdata/probdata_server.cpp:611-652 | the UDT worker begins to serve a run only while 6 is the last code that the server has received |
| SessionProgress.MoveCosts | src/probdata/probdata_server.cpp:611-652 | every move uses up bytes, work or a worker's life, except that the UDT worker may take another round, which adds one |
| SessionProgress.SessionBound | src/probdata/probdata_client.cpp:51-71 | every run has at most a number of moves fixed by the session plus twice the number of UDT rounds |
| SessionProgress.Progress | src/probdata/probdata_server.cpp:46-59 | in every reachable state the session is through, or some move that has to come is possible, or the server is stuck at the TCP join, which only a memory session with `do_udt_only > 0` and a failed search can be |
| SessionProgress.Completes | src/probdata/probdata_server.cpp:46-59 | every other session can be brought from every reachable state to its end, both parties at P_PROGRAM_DONE and both queues empty, by moves that have to come |
| SessionProgress.EndsOnlyByFailure | src/probdata/probdata_server.cpp:358-362 | a `-t` session without history ends only if the TCP worker gave up by itself |
| SessionProgress.DeadlockExactly | src/probdata/probdata_server.cpp:300-362 | the stuck state is reachable if and only if the session is of memory kind, `do_udt_only > 0` and the search failed |
| SessionProgress.StuckIsDead | src/probdata/probdata_server.cpp:358-362 | once stuck, no move that has to come is possible |
| Programs.Program.Read | src/probdata/probdata_client.cpp:146-190 | the bytes that `read` yields, acted upon in place when the message is whole, change the fields as `Parties.Took` says |
| Programs.Network.Step | src/probdata/probdata_server.cpp:19-70 | any step of the two heap programs, their queues and the workers is the move of the session, and the objects stay where a run of it ends |
| Programs.Network.Play | src/probdata/probdata_server.cpp:19-70 | any possible schedule of moves, played on the objects, leads where `Sessions.Exec` leads |
| Programs.Network.Holds | src/probdata/probdata_control.cpp:245-350 | so framing, the order of work, the order of codes and the agreed values hold of the objects |
| Workers.UdtFastprofWorker | src/probdata/probdata_server.cpp:611-652 | the UDT worker leaves in the first round whose guard, success limit, error limit or failed reset says so, and at the latest when the status has left P_RUN_M2M_UDT; its second error test is never true |
| Workers.UdtLeftOnce | src/probdata/probdata_server.cpp:611-652 | reason and round of leaving are determined by what the loop sees |
| Workers.UdtBudget | src/probdata/probdata_server.cpp:620-648 | at most `max_prof_limit + 1` rounds succeed, and exactly that many when that limit ends the loop |
| Workers.UdtGivesUp | src/probdata/probdata_server.cpp:620-648 | the UDT worker leaves with too many errors if and only if it comes to a round, guard and success limit still holding, with exactly ten failures after the last success and all resets good; rounds that time out change nothing |
| Workers.UdtEnds | src/probdata/probdata_server.cpp:611-652 | by the rounds alone, counted as sets: it leaves for the end of the phase or for the success limit exactly at the first round that has left P_RUN_M2M_UDT, or that more than `max_prof_limit` successes precede |
| Workers.UdtBreaks | src/probdata/probdata_server.cpp:636-641 | a failed reset ends it right after the round that failed, and nothing before did |
| Workers.TcpFastprofWorker | src/probdata/probdata_server.cpp:495-527 | the TCP worker leaves exactly at the first pending cancellation, tenth failure in a row, or failed reset |
| Workers.GivesUp | src/probdata/probdata_server.cpp:506-517 | with successful resets it gives up if and only if its last ten rounds failed |
| Workers.TcpEnds | src/probdata/probdata_server.cpp:495-527 | by its rounds alone: the TCP worker leaves by cancellation exactly at the first round with one pending that it comes to, no ten rounds in a row having failed |
| Workers.TcpBreaks | src/probdata/probdata_server.cpp:506-520 | after a round it leaves when that and the nine before failed, reset or not, or else when the reset fails |
| Probes.Clamp | src/fastprof/fastprof_tcp.cpp:304-307 | clamping lands in [1, 25] and leaves values inside alone |
| Probes.AimReach | src/fastprof/fastprof_tcp.cpp:335-379 | each `ck_adjust` is the distance that the cut left of the step: min(ck, room) for positive ck |
| Probes.ExactSecant | src/fastprof/fastprof_tcp.cpp:510-511 | (ck_adjust_plus + ck_adjust_minus) * delta equals theta_plus - theta_minus, whatever was cut |
| Probes.SecantBounds | src/fastprof/fastprof_tcp.cpp:335-379 | for ck > 0 that sum lies in [min(ck, 24), min(2ck, 24)] |
| Probes.DenominatorDefined | src/fastprof/fastprof_udt.cpp:527-528 | the division for ghat is defined if and only if ck is not 0 |
| Probes.ProjectedStep | src/fastprof/fastprof_tcp.cpp:510-518 | for positive gains the clamped step never goes against delta*(y_plus - y_minus), never further than ak*&#124;ghat&#124;, and stays in the box |
| Tuning.PassCounts | src/fastprof/fastprof_tcp.cpp:310-580 | a completed pass makes three measurements |
| Tuning.Turn | src/fastprof/fastprof_tcp.cpp:231-582 | a turn that goes on started below the measurement limit and added exactly three measurements, so the loop terminates |
| Tuning.RunEnds | src/fastprof/fastprof_tcp.cpp:231-582 | the turn from the last loop head of a run is the one that stops, with the run's result |
| TuningSteps.ThetaEnds | src/fastprof/fastprof_tcp.cpp:95-98 | the ends of the box stand for the ends of the parameter range |
| TuningSteps.ThetaOrder | src/fastprof/fastprof_udt.cpp:111-114 | between them the mapping is strictly increasing |
| TuningSteps.RoundNearest | src/fastprof/fastprof.cpp:49-52 | rounding goes to the nearest whole number, up from the middle |
| TuningSteps.WindowHoldsBdp | src/fastprof/fastprof_tcp.cpp:281-302 | the buffer window holds the rounded delay product whenever the safeguards do and four times it fits an int |
| TuningSteps.ProbesAreClamped | src/fastprof/fastprof_tcp.cpp:335-379 | the two probes are theta + ck*delta and theta - ck*delta, clamped to the box |
| TuningSteps.SecantSlope | src/fastprof/fastprof_tcp.cpp:510-511 | ghat is the slope of the secant through the two probes, whatever was cut |
| TuningSteps.PassMeasures | src/fastprof/fastprof_tcp.cpp:310-580 | a completed pass adds to the list exactly the two probes and the projected step along their secant, with their values at one buffer window, markers and results, and goes on from the best point so far |
| TuningSteps.HeadsRestart | src/fastprof/fastprof_tcp.cpp:578-580 | every pass but the first of a run starts from the best point so far |
| TuningTrace.SummaryTracks | src/fastprof/fastprof_tcp.cpp:420-447 | max_perf, max_theta, no_imp_counter and the saved performance of any list of measurements belong to the first of the best positive ones; the counter is the entries after it, or all if none is positive |
| TuningTrace.MarkersCycle | src/fastprof/fastprof_tcp.cpp:420-556 | the markers cycle + - * |
| TuningTrace.ConsistentMeans | src/fastprof/fastprof_tcp.cpp:420-447 | the same about the loop's variables at any consistent state |
| TuningTrace.RunConsistent | src/fastprof/fastprof_tcp.cpp:231-582 | that holds at every loop head of every run, with 3k entries after k passes, and in the final state, whichever exit was taken |
| TuningTrace.ExitBudgets | src/fastprof/fastprof_tcp.cpp:237-252 | flag 1 leaves 3*ceil(N/3) measurements, flag 2 a counter in [L, L+2], no exit more than 3*ceil(N/3) |
| TuningTrace.PassLimit | src/fastprof/fastprof_udt.cpp:243-602 | at most ceil(N/3) passes |
| TuningTrace.GainAtStart | src/fastprof/fastprof_tcp.cpp:253-257 | before any measurement the gain test succeeds if and only if the bandwidth is not 0 and the ratio is 0 |
| TuningTrace.GainOnlyAfterImprovement | src/fastprof/fastprof_tcp.cpp:429-443 | if it does not succeed at the start it succeeds at no loop head, so flag 3 is only set right after an improvement |
| TuningTrace.NegativeBandwidth | src/fastprof/fastprof_tcp.cpp:253-257 | with an unknown bandwidth and a positive ratio flag 3 never occurs |
| TuningRange.SettingLegal | src/fastprof/fastprof_tcp.cpp:386-392 | any point of the box and any window inside the safeguards give a legal setting, TCP or UDT |
| TuningRange.RunRanged | src/fastprof/fastprof_udt.cpp:398-405 | every setting that any run ever writes is legal: streams in [1, 25], block in [mss-44, 25*(mss-44)], socket buffers from 8000 to half the cap min(host limit, 2*10^9), rounded up, the UDT buffer from 16000 to the cap; the window stays within the safeguards |
| TuningRange.StartOrdered | src/fastprof/fastprof_tcp.cpp:210-229 | the window starts in order if and only if the host allows 16000 bytes |
| TuningRange.WindowStaysOrdered | src/fastprof/fastprof_tcp.cpp:281-302 | in every run buf_min <= buf_max at every loop head and at the end, if the rounded 4*BDP fits an int at every loop head |
| TuningRange.WindowOrderedWhen | src/fastprof/fastprof_tcp.cpp:266-302 | which is so if the bandwidth times the longest ping does: a bound to check before the run |
| TuningRange.RttStaysBetween | src/fastprof/fastprof_tcp.cpp:266-279 | once known, the round-trip time stays in every interval that holds the start, if known, and the successful samples |
| TuningRange.RttAtHeads | src/fastprof/fastprof_udt.cpp:276-290 | so at every loop head of a run, whether or not the first ping failed |
| TuningRange.RttConverges | src/fastprof/fastprof_tcp.cpp:266-279 | against a constant sample the error after n updates is exactly (1/8)^n of the first |
| TuningRange.RunSmooths | src/fastprof/fastprof_udt.cpp:276-290 | at every loop head rtt_ms is that smoothing of all samples so far |
| TuningRange.RunRescales | src/fastprof/fastprof_tcp.cpp:242-247 | at every loop head both gains are their starts times the same power of their scales |
| TuningRange.GainsStayPositive | src/fastprof/fastprof_tcp.cpp:242-247 | so positive gains stay positive for the whole run |
| TuningRange.EveryStepFollows | src/fastprof/fastprof_tcp.cpp:510-518 | in every pass of such a run theta(*) is in the box, not against the measured rise, and at most ak*&#124;ghat&#124; away |
| PlainPass.RttPlain | src/fastprof/fastprof_tcp.cpp:266-279 | in whole weights: eight times the new round-trip time is the old one plus seven times the ping; a failed ping or an unknown bandwidth leaves it, a first ping sets it |
| PlainPass.WindowPlain | src/fastprof/fastprof_tcp.cpp:281-302 | for the B with rtt * bandwidth = 8000 B the ends of the window are the whole numbers nearest to 3B/4 and 4B, cut to 16000 and the smaller of the host limit and 2*10^9; what the C code makes of a double that fits no int is an input |
| PlainPass.WindowHolds | src/fastprof/fastprof_tcp.cpp:281-302 | so the window holds the whole number nearest to B whenever the safeguards do and 4B fits an int |
| PlainPass.SettingPlain | src/fastprof/fastprof_tcp.cpp:386-392 | TCP: the socket buffer is the whole number nearest to half of the buffer value, the streams that nearest to the other; UDT: the block is that nearest to the block value times mss - 44, the UDT buffer that nearest to the buffer value, the UDP buffer that nearest to half of it |
| PlainPass.RunSettings | src/fastprof/fastprof_udt.cpp:398-405 | in every run each entry of the list has the setting that belongs to its two values in this way |
| PlainPass.PointsPlain | src/fastprof/fastprof_tcp.cpp:335-379 | each probe is the point of [1, 25] nearest to theta +- ck*delta, the two differ, and theta(*) is the point of the box nearest to theta + ak*g for the g whose product with their distance is the rise |
| PlainPass.PassPlain | src/fastprof/fastprof_tcp.cpp:310-580 | all of this for one pass: it cuts theta to the box, sets the window, and enters the two probes and that step with markers, results, and values: 24 (b - low) = (theta - 1)(high - low) for the buffer, theta itself for streams or block, and the setting of each |
| PlainPass.EveryPassPlain | src/fastprof/fastprof_udt.cpp:310-602 | so in every pass of every run, from its loop head on, with the gains as the head leaves them |
| PlainPass.GainPlain | src/fastprof/fastprof_tcp.cpp:253-257 | the gain test is 10^9 max_perf >= ratio * bandwidth, turned around for an unknown bandwidth, and max_perf > 0 for bandwidth 0 |
| PlainPass.HeadPlain | src/fastprof/fastprof_tcp.cpp:190-257 | the exits in their order, with the limits and the ratio that stand for what is not given (30, twice the other limit, 0.75), and both gains rescaled from half of the impeded limit on, rounded down |
| PlainPass.MeasurePlain | src/fastprof/fastprof_tcp.cpp:386-447 | a failed run or record ends the search with the setting written and nothing else changed; otherwise one more entry, compared in Gb/s: a greater one is kept with its point and may end the run, any other adds one to the counter |
| PlainPass.StartPlain | src/fastprof/fastprof_tcp.cpp:204-229 | the variables before the loop; the window starts from 16000 to the smaller of the host limit and 2*10^9 |
| TuningReport.RunCounted | src/fastprof/fastprof_tcp.cpp:391-426 | in every run the i-th visited entry belongs to the i-th setting written |
| TuningReport.ReportMeans | src/fastprof/fastprof_tcp.cpp:595-599 | in every completed run that measured something positive, the best setting is that of the first of the greatest entries, and the printed one the last that was written |
| TuningReport.GainReportsBest | src/fastprof/fastprof_tcp.cpp:595-599 | after the gain exit the setting printed through prof_max is the best one, if and only if not (bandwidth other than 0 and ratio 0) |
| TuningReport.ReportCanBeWrong | src/fastprof/fastprof_tcp.cpp:435-435 | the setting printed after flag 1 can be wrong: with the powers of the first pass, a run with 20 Gb/s at 14 streams prints 20 streams |
| Climbs.GammaBelow | src/fastprof/fastprof_tcp.cpp:312-313 | the 1000th root of the 101st power of k + 2 is at most c if k + 2 is at most the ninth power of c >= 1 |
| WrongReports.ReportExactly | src/fastprof/fastprof_tcp.cpp:595-599 | for given powers, and gains that in the last pass move the streams or the block size by one or more: the setting printed is the best one in every completed run with these powers and rates from -1 on, if and only if the bandwidth is 0, the ratio is 0, or one of the two limits is 0 |
| WrongReports.SettledReports | src/fastprof/fastprof_tcp.cpp:595-599 | the "if" half holds for all gains and powers |
| WrongReports.ReportExactlyAsCoded | src/fastprof/fastprof_tcp.cpp:312-313 | with the exponents 0.602 and 0.101 of the code that condition on the gains is met if the last pass, plus 2, is at most the ninth power of c |
| WrongReports.ReportExactlyByDefault | src/probdata/probdata.h:52-64 | and so with the default c = 5.5, its default scale and any limit up to 60, whatever a is |
| WrongReports.SmallGainsReport | src/fastprof/fastprof_tcp.cpp:335-392 | without a condition on the gains it fails: a configuration with c = 0.4 and one pass whose every run prints the best setting |
| Budgets.MostReached | src/fastprof/fastprof_tcp.cpp:237-252 | the greatest number of measurements of a configuration is reached by some run, whatever the powers are |
| Budgets.AtMost | src/fastprof/fastprof_tcp.cpp:237-252 | and exceeded by none |
| Budgets.ServedExactly | src/probdata/probdata_server.cpp:620-648 | a worker that only meets successes at P_RUN_M2M_UDT serves the first n rounds if and only if n <= its limit + 1 |
| Budgets.BudgetCovers | src/probdata/probdata_server.cpp:620-623 | for given powers, the worker serves every measurement of every run if and only if that greatest number is within its budget |
| Budgets.BudgetCoversRuns | src/probdata/probdata_server.cpp:620-623 | for a bandwidth and ratio other than 0 that is: if and only if the limit N is given and N mod 3 is not 1 |
| Budgets.BudgetSuffices | src/probdata/probdata_server.cpp:620-623 | and such an N is enough for every other configuration, too |
| Profiler.Profile.CopyFrom | src/fastprof/fastprof_tcp.cpp:435-435 | the copy into prof_max shares the test object |
| Profiler.Search.constructor | src/fastprof/fastprof_tcp.cpp:130-229 | the variables start as `Tuning.Start` says |
| Profiler.Search.CheckExits | src/fastprof/fastprof_tcp.cpp:236-257 | exit tests and gain rescaling as in `Tuning.Head` |
| Profiler.Search.Prepare | src/fastprof/fastprof_tcp.cpp:259-310 | round-trip time, window and clamp as in `Tuning.Prepared` |
| Profiler.Search.Measure | src/fastprof/fastprof_tcp.cpp:386-447 | one measurement as in `Tuning.Tried`, on the one shared test object |
| Profiler.Search.Gradient | src/fastprof/fastprof_tcp.cpp:510-511 | ghat is the rise over the distance between the two probes that were measured, which is not 0 |
| Profiler.Search.Pass | src/fastprof/fastprof_tcp.cpp:310-580 | a whole pass as in `Tuning.Pass` |
| Profiler.Search.Run | src/fastprof/fastprof_udt.cpp:144-602 | the loop computes `Tuning.Run`; what is printed through prof_max is the best performance and the last setting written |
| Decimals.DigitsDenote | src/fastprof/fastprof.h:75-76 | the digits of a number denote it |
| Decimals.RoundedMonotone | src/fastprof/fastprof.h:75-76 | printing with six decimals keeps the order of performances |
| Decimals.RoundedOnce | src/fastprof/fastprof.h:75-76 | a number of millionths is printed exactly |
| Decimals.RoundedNear | src/fastprof/fastprof.h:75-76 | printing keeps the nearest millionth, the even one of two |
| Decimals.DenotedFront | src/fastprof/fastprof.h:75-76 | digits denote by their characters and their powers of ten |
| Scanf.ScanPrinted | src/fastprof/fastprof.h:75-77 | scanning what was printed field by field gives every field back, spaces and trailing newline included |
| Scanf.ScanYields | src/fastprof/fastprof.cpp:112-129 | whatever the text, each scanned value is of its conversion's kind, strings being words |
| Scanf.IntText | src/fastprof/fastprof.h:75-76 | an integer is printed as a minus sign if it is negative, and its digits without leading zeros |
| Scanf.FloatText | src/fastprof/fastprof.h:75-76 | a performance is printed as sign, whole number, point and six digits, together its millionths rounded half to even |
| Scanf.IntegerReads | src/fastprof/fastprof.cpp:112-129 | wherever it stands, an optional sign and digits are read as the number they denote, saturated to 64 bits, of which "%d" keeps the low 32 |
| Scanf.DecimalReads | src/fastprof/fastprof.cpp:112-129 | digits around a point, at least one, are read as the number they denote |
| Scanf.WholeDouble | src/fastprof/fastprof.cpp:112-129 | so are digits without a point |
| Scanf.NoNumber | src/fastprof/fastprof.cpp:112-129 | without a digit, or a point before one, no number is read |
| Scanf.BlanksSkipped | src/fastprof/fastprof.cpp:112-129 | each of the six white-space characters is skipped before a conversion |
| Scanf.WordTaken | src/fastprof/fastprof.cpp:112-129 | "%s" takes everything up to the next of them or the end |
| Records.WordsRead | src/fastprof/fastprof_tcp.cpp:750-768 | a printed record parses to itself, the performance to six decimals |
| Records.RoundTrip | src/fastprof/fastprof_tcp.cpp:750-768 | all 17 fields return if and only if every string field is a non-empty word |
| Records.ParsedWords | src/fastprof/fastprof.cpp:112-133 | every parsed record has words in its string fields |
| Records.LineFits | src/fastprof/fastprof.h:160-179 | a record that fits the C struct with &#124;perf&#124; <= 10^221 prints on at most 511 characters |
| Records.RecordText | src/fastprof/fastprof_tcp.cpp:750-768 | the printed line is 17 texts with one space between: the strings as they are and the numbers in decimal, in the order of the format |
| Records.LineReads | src/fastprof/fastprof.cpp:112-133 | any line of 17 such texts, with any signs, leading zeros and number sizes, is read as the record that has them in this order, integers as the C types keep them |
| TextFiles.TextFile.Gets | src/fastprof/fastprof.cpp:103-106 | one `fgets` takes the text to the next newline or to the buffer's end, and meets the end of the file exactly when it runs into it |
| TextFiles.LineTaken | src/fastprof/fastprof.cpp:103-106 | where it stops on a line with a newline: past it, or before it if the line fills the buffer |
| Histories.DbSearch | src/fastprof/fastprof.cpp:101-144 | the read loop terminates on every text and computes `Search` |
| Histories.SearchLine | src/fastprof/fastprof.cpp:103-136 | one line is read and counted once, whether or not it fills the 512-byte buffer |
| Histories.SearchEntries | src/fastprof/fastprof.cpp:101-137 | on a file of printed records, blank and # lines every record is read exactly once, in order |
| Histories.AfterAllMeaning | src/fastprof/fastprof.cpp:134-137 | the running maximum is the earliest record of greatest performance |
| Histories.SearchFindsBest | src/fastprof/fastprof.cpp:101-141 | the search succeeds if and only if some performance is >= 0, and then returns the earliest greatest one |
| Histories.RemarkIgnored | src/fastprof/fastprof.cpp:107-111 | an empty line and one that starts with #, a space or a tab change neither the best nor the rest of the search |
| Histories.SearchAll | src/fastprof/fastprof.cpp:101-141 | a last entry without its newline counts like the others |
| Histories.LongLine | src/fastprof/fastprof.cpp:103-106 | a line of more than 511 characters is cut after 511, and the rest is read as a further line, that of a comment, too |
| Histories.MalformedStops | src/fastprof/fastprof.cpp:130-133 | the first line that is neither ignored nor a record ends the search without success, whatever follows, and leaves the best of the records before it |
| Histories.ShortLine | src/fastprof/fastprof.cpp:130-133 | a line with fewer than 17 characters other than white space is such a line |
| Histories.RecordAdd | src/fastprof/fastprof_tcp.cpp:725-773 | appending a record turns the answer into a running maximum of the file before and that record |
| Advisor.ComposeAddresses | src/fastprof/fastprof_tcp.cpp:691-695 | `dst_ip` is the remote address, `src_ip` the local one cut at the length of the remote one |
| Advisor.SourceKept | src/fastprof/fastprof_tcp.cpp:691-695 | so the source is right if and only if the local address is not the longer one |
| Advisor.ComposedReadsBack | src/fastprof/fastprof_udt.cpp:664-706 | a composed TCP or UDT record prints on one line that parses back to it; the 17 fields that come back are the cut source, the destination, the time, TCP and iperf3 or UDT and tpg, the streams, mss, buffer and block it was measured with, duration, transfer size, the units, and the performance to six decimals |
| Advisor.Recommend | src/probdata/probdata_client.cpp:73-98 | exactly the strict winner of the three performances is printed, and nothing if and only if the greatest is there twice |
| Advisor.AfterAllPerf | src/fastprof/fastprof.cpp:134-137 | reading on makes the best performance the maximum of what it was and what is read |
| Advisor.AddedMaximum | src/fastprof/fastprof_tcp.cpp:402-412 | the records of one run read back with the maximum that prof_max holds |
| Advisor.AddedReadsBack | src/fastprof/fastprof_tcp.cpp:402-412 | the k-th record of a run reads back with the k-th performance and the k-th setting |
| Advisor.FreshSearchAgrees | src/probdata/probdata_client.cpp:73-98 | after both profilers measured something positive a fresh search of the extended file succeeds with the greatest of history, TCP and UDT, to six decimals |
| WholeSession.RunFits | src/fastprof/fastprof_tcp.cpp:402-426 | whatever is measured within some bound is in the list within it, for every run |
| WholeSession.BatchTops | src/fastprof/fastprof_tcp.cpp:402-412 | for profilers set up sanely, every record of a run can be stored and read back, and their greatest is the performance of prof_max |
| WholeSession.FileAnswers | src/fastprof/fastprof.cpp:101-144 | in every reachable state of a session the file goes on from what it was, and a search of it yields the greatest of what it yielded before and of the profilers that have run |
| WholeSession.DeskAtEnd | src/probdata/probdata_client.cpp:333-438 | a finished memory session has searched the file as it was, then profiled TCP unless -t was given and there was an answer, then UDT, each run appending its records |
| WholeSession.EndToEnd | src/probdata/probdata_client.cpp:73-98 | after a session with both profilers a fresh search succeeds with the greatest of the three values of the recommendation, to six decimals; the performance printed for a strict winner is the one the file answers with |
| WholeSession.FileNamesSetting | src/fastprof/fastprof.cpp:134-137 | when a profiler is the strict winner, the record the file answers with holds a setting that was measured with its best performance, unlike what prof_max prints |
| WholeSession.BuffersAgreed | src/probdata/probdata_control.cpp:283-350 | a profiler that the client is about to run with the limit it holds writes only settings with buffers within the starting limits of both sides |
| WholeSession.DeadlockByFile | src/probdata/probdata_server.cpp:300-362 | a memory session can get stuck if and only if -t was given and every record of the history file is negative |
| TailQueues.TailQueue.constructor | lib/iperf3/queue.h:348-351 | an empty queue |
| TailQueues.TailQueue.InsertHead | lib/iperf3/queue.h:353-361 | the element comes first, the rest unchanged, all links right |
| TailQueues.TailQueue.InsertTail | lib/iperf3/queue.h:363-368 | the element comes last |
| TailQueues.TailQueue.InsertAfter | lib/iperf3/queue.h:370-378 | the element comes right after the given one |
| TailQueues.TailQueue.InsertBefore | lib/iperf3/queue.h:380-385 | the element comes right before the given one |
| TailQueues.TailQueue.Remove | lib/iperf3/queue.h:387-396 | the element is gone, the order of the others kept |
| TailQueues.TailQueue.Replace | lib/iperf3/queue.h:398-407 | the new element stands where the old one stood |
| TailQueues.TailQueue.Last | lib/iperf3/queue.h:327-328 | the last element, or null when empty |
| TailQueues.TailQueue.Prev | lib/iperf3/queue.h:330-331 | the element before, or null for the first |
| TailQueues.TailQueue.Forward | lib/iperf3/queue.h:335-338 | the forward walk yields the sequence |
| TailQueues.TailQueue.Backward | lib/iperf3/queue.h:340-343 | the reverse walk yields it reversed |
| TailQueues.Reversed | lib/iperf3/queue.h:340-343 | reversal position by position |
| Streams.StreamList.InsertHead | lib/iperf3/queue.h:137-140 | the element comes first |
| Streams.StreamList.Remove | lib/iperf3/queue.h:150-162 | the element is gone, the order of the others kept |
| Streams.StreamList.MeasuredRate | src/fastprof/fastprof_tcp.cpp:655-679 | the byte sum over the list in 64-bit words is the true sum modulo 2^64, and the rate is that of the sum; no stream, no rate |
| Streams.WrapsOnce | src/fastprof/fastprof_tcp.cpp:668-671 | wrapping at every step or once at the end is the same |
| Streams.PayloadTotals | src/fastprof/fastprof_tcp.cpp:668-671 | the true sum is all bytes sent less all bytes omitted |

## Left out

- Sockets, name resolution, `select`, sleeping, ping, `popen` and the clock: arbitrary inputs, success results and byte queues stand for them.
- iperf3, TPG and UDT inside: a measurement is an arbitrary result.
- Rounding of doubles, NaN and negative zero: reals are used; a perturbation gain of 0, where the C code divides 0 by 0, is excluded by `c != 0` and `cScale != 0`.
- `pow`: an arbitrary positive value in every pass, or a given sequence; `Climbs.OfCode` says by whole powers which roots the code takes.
- A transfer that fails, a peer that closes early and a client that gives up: the sessions are error-free; only the byte loops of `Wire` model failures.
- The mode with a destination file only: the command line refuses it, so `Session.Valid` excludes it.
- The interleaving inside one handler between the history search and the poll loop: a handler's search is one input.
- The two poll loops as loops: a party's control flow is the list of steps that its handlers build, taken one at a time in any interleaving with the other's; the fields of `struct probdata` that no transfer or worker step touches are not there.
- A worker thread's effect on the profile it uses: only its life cycle and its loop are modelled.
- The cleanup handlers, `f_*_prof_reset`, the delete functions and the cancellation points inside the libraries.
- Disk-to-disk profiling: its steps have their place in the protocol and no content.
- The question whether to profile online: answered with yes, as in the debug build.
- Infinite and undefined rates in the tuning loop: `Streams.StreamList.MeasuredRate` says when a duration of 0 yields them, but a measurement is a real number.
- A history search when the profile folder is missing: it creates the folder and fails before it sets `average_perf` to -1, which then is whatever was there.
- Text that `sscanf` reads and the printer never writes (exponents, hexadecimal, `inf`, `nan`) and strings longer than their arrays.
- The performance in `prof_max` of a profiler that was not run or measured nothing positive: the recommendation reads it uninitialised; `WholeSession.EndToEnd` asks for a positive measurement of each.
- WrongReports.ReportExactly: gains too small to move the streams or the block size in the last pass, where the report may be right or, by the buffer, wrong; only its "if" half covers them.
- WholeSession.EndToEnd: the performances agree to the six decimals that the file keeps, not beyond.
- Logging, usage text, option parsing, unit suffixes, the visited-list file and the time strings.
- LIST, SIMPLEQ and CIRCLEQ macros, which nothing here uses.
