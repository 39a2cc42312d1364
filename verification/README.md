# Verified model of the kn connection layer

kn keeps WebSocket and Kafka connections to market-data sources alive. This project models the
decisions that kn makes itself, and proves what they add up to over whole runs.

- **WebSocket sessions** (`Conn<true>`, `Conn<false>`). `Session` is the session as a state
  machine, one step for the code between two points where the coroutine can be suspended. The
  environment (results of network operations, the clock, random draws, callbacks, what other
  strands do meanwhile) is an arbitrary function from which a run takes its choices, so a statement
  about `Run(setup, env, n)` is about every run, cut off at any step. `BackOff` is the reconnect
  pacing. The `Session...` modules prove one property each, by an invariant that every step keeps.
  The two connections are separate texts in the source, and here: `TlsConn` and `PlainConn` each
  hold a step function written statement by statement from its class, and an object with the
  methods, loops and jump of that class. Both are proved to follow the machine step for step, and
  `ConnsAgree` compares the two step functions with each other. What the source shares between
  them, the template `StreamEntry`, is in `StreamEntries`.
- **Fan-out** (`Fleet`): which resolver results become connections, and the rate limit over all of
  them in every interleaving.
- **Kafka start-up** (`Offsets`, `Topics`, `KafkaConn`): the shared offset table, the topic filter
  with its regular expression, and the decisions of `Init` and `Sub`.
- **Timestamps** (`Timestamps`): digit strings to time points, on a digit loop with overflow
  detection after section 20.19.3 of ISO C++20 ([charconv.from.chars]).

Facts taken from the libraries below kn, built into `Session.Step`: reading a WebSocket that is not
open fails with `operation_aborted`; a failed read and a close leave the stream not open; a
handshake opens the stream exactly when it succeeds (a `stream_truncated` that the code clears
leaves it not open); a read reports exactly the bytes that it left in the buffer, also when it
fails; the stream can be closed whenever the coroutine is suspended. The ping of a session, which
blocks in the source, is taken as a suspension too, so that a stop or a close may happen in it.
Theorems about time also assume a clock that does not go back and sleeps that last at least as long
as requested; they say so as `SteadyClock`. `ThrottleUnderAnyClock` says what is left without that,
and `BackwardClockIsNotThrottled` how little it can be.

What the proofs brought out:

- Any N attempts in a row take at least 2530 N - 20000 ms, unless they begin where the 32-bit counter
  wraps, where one or two more fit. All these bounds are reached, the first at N = 10. So attempts
  come at a rate of at most one per 2530 ms, with 25060 ms of slack in any window of time, and
  20000 ms counted from the start of a session. The quiet time that resets the counter is 20 s, as
  the code has it (kn/net/src/ws/conn.h:345); its comment (line 332) says one minute.
- The counter can wrap in a run of exactly f(2^32 - 1) ms, where f(n) is the least sleep of n
  calls, and in no shorter one: call number 2^32 finds it at 0 and does not sleep. Both this and the
  ten attempts are shown as runs of a session, since every genuine pacing history is one.
- A step of the clock to before the last call resets the counter, because the subtraction is
  unsigned. When the clock steps back before every call, none sleeps. In general each step back
  costs the throttle at most 20 s; `ThrottleUnderAnyClock` holds of all clock readings.
- The `Close` at the start of `ReConnect` is never taken.
- The order of a session's events can be told from its log alone: `SessionOrder.May` is a second
  account of the session, by what may follow what, and every run obeys it.
- When Kafka's `Init` sets a reset policy, `Sub` subscribes if and only if the session has
  subscriptions: with none it returns before deciding. An empty table gets the policy `smallest`.
- The policy lives in the shared configuration and outlasts the `Init` that set it, so a consumer
  can be assigned partitions under an older policy; `Start` says exactly when.
- A timestamp string needs one of the four lengths and a first digit, nothing more: what follows
  the leading digits is ignored, because only the error code of the parser is used. A 19-digit
  number from 2^63 on becomes a time before 1970; below, all resolutions cohere. A nanosecond time
  point of a shorter string overflows exactly from 2^63 ns on.

`dafny verify dfyconfig.toml` checks the project.

## Model

| member | source | states |
|---|---|---|
| BackOff.AnyStretch | kn/net/src/ws/conn.h:328-372 | any N attempts in a row under a steady clock take at least 2530 N - 20000 ms, from the first attempt to the last; one attempt more can fit if the counter is 0 after the first call, and two if it is 2^32 - 1; from the entry of the first call, only the former |
| BackOff.StretchIsTight | kn/net/src/ws/conn.h:349-353 | a steady history has eleven calls in a row from the wrap on, and twelve from the call before it, in exactly that time |
| BackOff.Throttle | kn/net/src/ws/conn.h:328-372 | the first N attempts of a connection take at least 2530 N - 20000 ms, through all resets and counter wraps |
| BackOff.ThrottleUnderAnyClock | kn/net/src/ws/conn.h:328-372 | the bound of AnyStretch under every clock, on sleep and quiet time in place of elapsed time: quiet time is the unsigned difference of the code, and counts up to 20 s before each attempt |
| BackOff.BacksCost | kn/net/src/ws/conn.h:345-345 | each step back of the clock passes for at most 20 s of quiet time |
| BackOff.ThrottleIsTight | kn/net/src/ws/conn.h:328-372 | a history of ten attempts reaches the bound of Throttle exactly |
| BackOff.CreditStep | kn/net/src/ws/conn.h:345-369 | one call costs 2530 ms and is paid for, for all clock readings, by its quiet time as the code measures it, up to 20 s, its sleep, and the change of a potential in the counter |
| BackOff.CounterRefinesHistory | kn/net/src/ws/conn.h:345-349 | the failure counter is the length of the longest run of last calls with all gaps below 20 s, modulo 2^32; the sleeps inside calls play no part |
| BackOff.ResetRule | kn/net/src/ws/conn.h:345-349 | for all readings the counter restarts at 1 exactly after a gap of 20 s or a step of the clock to before the last call (but for one within 20 s of 2^64), and else goes up by one modulo 2^32 |
| BackOff.StreakBounds | kn/net/src/ws/conn.h:350-369 | a streak of n calls asks for between f(n) and 11 f(n) of sleep |
| BackOff.DelayMonotone | kn/net/src/ws/conn.h:350-369 | for one draw, a higher failure count never sleeps less |
| BackOff.DrawsSpread | kn/net/src/ws/conn.h:350-369 | from the third call on the least sleep is 100, 1000, 5000 or 60000 ms; each ten of the draw adds it once more and each one of the rest a millisecond; the greatest draw sleeps eleven times the least |
| BackOff.DrawsDiffer | kn/net/src/ws/conn.h:350-369 | a greater draw always sleeps longer |
| BackOff.MinSleepClosed | kn/net/src/ws/conn.h:350-369 | f(n) in numbers |
| BackOff.SlowestStreak | kn/net/src/ws/conn.h:350-369 | for every length below 2^32 a steady streak sleeps exactly 11 f(n), so that bound is reached |
| BackOff.NoWrapBefore | kn/net/src/ws/conn.h:349-349 | within less than f(2^32 - 1) ms the counter is exactly the streak, with no wrap |
| BackOff.WrapIsReachable | kn/net/src/ws/conn.h:349-353 | a steady history of exactly f(2^32 - 1) ms wraps the counter, so that bound is exact |
| BackOff.BackwardClockIsNotThrottled | kn/net/src/ws/conn.h:345-353 | in every history, of any length, in which the clock steps back before every call (by at most 2^64 - 20000), no call sleeps |
| SessionPacing.RunPaces | kn/net/src/ws/conn.h:379-392 | the attempts of every run form one genuine pacing history, and the back-off fields are what it leaves |
| SessionPacing.SessionThrottle | kn/net/src/ws/conn.h:328-486 | in every run, the first N attempts over T ms satisfy 2530 N <= T + 20000 |
| SessionPacing.SessionAnyStretch | kn/net/src/ws/conn.h:328-486 | the bounds of AnyStretch for any attempts in a row, in every run |
| SessionPacing.SessionThrottleUnderAnyClock | kn/net/src/ws/conn.h:328-486 | the bounds of ThrottleUnderAnyClock and BacksCost for any attempts in a row, in every run |
| SessionPacing.SessionCounter | kn/net/src/ws/conn.h:338-371 | in every run the failure counter is the current streak of attempts, modulo 2^32 |
| SessionHistories.EveryGenuineHistoryIsARun | kn/net/src/ws/conn.h:379-425 | every genuine pacing history is that of a run, plain or TLS, in which every connection is refused; with RunPaces, the two are the same |
| SessionHistories.RunCanWrap | kn/net/src/ws/conn.h:349-353 | a run over exactly f(2^32 - 1) ms of steady clock wraps its counter |
| SessionHistories.RunCanBeTight | kn/net/src/ws/conn.h:328-425 | a run makes its first ten attempts in the least time that the throttle allows |
| SessionHistories.RunCanBeTightAtTheWrap | kn/net/src/ws/conn.h:328-425 | and a run whose counter wraps makes eleven in a row, and twelve, in the least time that AnyStretch allows there |
| SessionHistories.RunCanBeSlow | kn/net/src/ws/conn.h:328-425 | a run makes any number of attempts below 2^32 with exactly 11 f(n) of sleep |
| SessionRates.SessionRate | kn/net/src/ws/conn.h:328-486 | in every run with a steady clock, the attempts that begin within any window of T ms number at most (T + 25060) / 2530 |
| SessionRates.RateIsTight | kn/net/src/ws/conn.h:349-425 | a run reaches that limit: twelve attempts in a window of 5300 ms |
| SessionHistories.RunCanGoUnthrottled | kn/net/src/ws/conn.h:345-425 | under a clock that steps back, a run makes any number of attempts without a single sleep |
| SessionSpin.NoBusySpin | kn/net/src/ws/conn.h:421-446 | in every run, turns of the loops that deliver no message number at most 2 N + 1 for N reconnections |
| SessionSpin.FruitlessTurnsTakeTime | kn/net/src/ws/conn.h:328-486 | fruitless turns number at most 2 N + 1 for N paced attempts, and so are bounded linearly by elapsed time |
| SessionSpin.ReconnectFindsClosedStream | kn/net/src/ws/conn.h:379-384 | in every run, ReConnect finds the stream closed, so its own Close is never taken |
| SessionDelivery.ExactDelivery | kn/net/src/ws/conn.h:427-484 | what OnRead is handed is exactly the messages read and not cut off by a stop, whole, once, in order, across reconnections |
| SessionDelivery.BufferIsEmptyAtRead | kn/net/src/ws/conn.h:427-467 | the reused read buffer is empty at every read, on every path including the jump to START |
| Session.HandedIsConsumed | kn/net/src/ws/conn.h:449-457 | what is handed to OnRead and what is left make up the buffer |
| SessionSubs.SubscribedBeforeDelivered | kn/net/src/ws/conn.h:136-153 | an open stream that is read has had Init and then every non-empty subscription attempted in order on that stream, in one round plus one per CtrlReSub of a TLS session |
| SessionStop.StopSafety | kn/net/src/ws/conn.h:421-485 | after stop_ is found true no read, OnRead or new ReConnect starts |
| SessionStop.EndsThroughOneClose | kn/net/src/ws/conn.h:427-486 | a session ends only if stopped, and through exactly one final Close, which is its last act |
| SessionStop.StopTerminates | kn/net/src/ws/conn.h:421-486 | a stopped session ends whatever the environment does, with a decreasing measure |
| SessionStreams.OneLiveStream | kn/net/src/ws/conn.h:379-392 | every operation is on the one live stream, nothing is freed twice or used after it is freed, and there is one allocation per ReConnectRate plus the constructor's |
| SessionOrder.RunInOrder | kn/net/src/ws/conn.h:233-486 | in every run each event is one that may follow those before it, as told by the log alone: close, pacing, delete, new, connect, TLS and WebSocket handshakes, Init, subscriptions, reads, OnRead and its answers, reconnections, stop and final close |
| SessionOrder.AnswersAreObeyed | kn/net/src/ws/conn.h:449-481 | after CtrlReConnect, before the next read, the stream that delivered is closed and START reconnects; a TLS session asked to ping or to subscribe again does so before it reads on; after other answers it reads |
| SessionOrder.InitFollowsHandShake | kn/net/src/ws/conn.h:386-413 | Init comes right after a WebSocket handshake that ended in no error or stream_truncated, that after a connect that ended in no error or one of two, and in a TLS session only with a TLS handshake that succeeded; or it answers CtrlReSub |
| SessionOrder.EventsTell | kn/net/src/ws/conn.h:233-486 | every event carries the results that the environment chose; the stream is open just as the events say; a stop or a close during a suspension takes effect at once, and a ReConnectRate suspends just if it asks for sleep |
| TlsConn.RunIs | kn/net/src/ws/conn.h:210-498 | the runs of the TLS step function are the runs of the machine with TLS |
| PlainConn.RunIs | kn/net/src/ws/conn.h:501-746 | the runs of the plain step function are the runs of the machine without TLS, and none comes to a ping |
| ConnsAgree.PlainAndTlsAgree | kn/net/src/ws/conn.h:210-746 | the two step functions, each written from its own class, go through the same states exactly as long as every TLS handshake succeeds and OnRead answers neither CtrlReSub nor CtrlPing |
| ConnsAgree.ObjectsAgree | kn/net/src/ws/conn.h:210-746 | a plain and a TLS object that have gone equally far under the same harmless choices hold the same state |
| SessionPromises.RunKeepsPromises | kn/net/src/ws/conn.h:417-486 | every run keeps all of these at once: delivery, empty buffer, subscription before reads and deliveries, turns, one live stream with its allocation counts, closed stream at ReConnect, order of events, answers of OnRead, stop, ending, counter, and throttle of every stretch under any clock and under a steady one |
| StreamEntries.StreamEntry.constructor | kn/net/src/ws/conn.h:75-83 | a new connection is at step 0 of its run |
| StreamEntries.StreamEntry.Stop | kn/net/src/ws/conn.h:172-177 | stop_ is set and the stream is closed |
| StreamEntries.StreamEntry.Close | kn/net/src/ws/conn.h:112-122 | takes the next step of the run, and leaves the stream not open |
| StreamEntries.StreamEntry.Read | kn/net/src/ws/conn.h:107-110 | takes the reading step of the run |
| StreamEntries.StreamEntry.Subscribe | kn/net/src/ws/conn.h:136-153 | the loop over the subscriptions follows the run to the head of the loop that asked for it |
| TlsConn.Conn.Progress | kn/net/src/ws/conn.h:345-369 | the tiers of the code yield the counter and sleep of the pacing history |
| TlsConn.Conn.ReConnectRate | kn/net/src/ws/conn.h:328-372 | takes exactly the pacing step of the run |
| TlsConn.Conn.Connect | kn/net/src/ws/conn.h:233-262 | takes the connecting step of the run; goes on exactly if the code reports no error |
| TlsConn.Conn.HandShake | kn/net/src/ws/conn.h:264-299 | takes the handshake step of the run, TLS first; goes on exactly if the code reports no error |
| TlsConn.Conn.ReConnect | kn/net/src/ws/conn.h:379-415 | follows the run through close, pacing, rebuilding, connecting and subscribing |
| TlsConn.Conn.ReadTurn | kn/net/src/ws/conn.h:427-484 | one turn of the read loop follows the run, with every control code |
| TlsConn.Conn.HangUp | kn/net/src/ws/conn.h:462-466 | the do-while of CtrlReConnect ends, at START |
| TlsConn.Conn.DoSession | kn/net/src/ws/conn.h:417-486 | the loops and the jump follow the run for as many turns as asked, or to its end, and all promises of RunKeepsPromises are kept |
| PlainConn.Conn.Progress | kn/net/src/ws/conn.h:612-636 | the tiers of the code yield the counter and sleep of the pacing history |
| PlainConn.Conn.ReConnectRate | kn/net/src/ws/conn.h:596-639 | takes exactly the pacing step of the run |
| PlainConn.Conn.Connect | kn/net/src/ws/conn.h:517-541 | takes the connecting step of the run; goes on exactly if the code reports no error |
| PlainConn.Conn.HandShake | kn/net/src/ws/conn.h:543-567 | takes the handshake step of the run, without TLS; goes on exactly if the code reports no error |
| PlainConn.Conn.ReConnect | kn/net/src/ws/conn.h:646-680 | follows the run through close, pacing, rebuilding, connecting and subscribing |
| PlainConn.Conn.ReadTurn | kn/net/src/ws/conn.h:693-732 | one turn of the read loop follows the run, acting on CtrlReConnect only |
| PlainConn.Conn.HangUp | kn/net/src/ws/conn.h:725-729 | the do-while of CtrlReConnect ends, at START |
| PlainConn.Conn.DoSession | kn/net/src/ws/conn.h:682-734 | the loops and the jump follow the run for as many turns as asked, or to its end, and all promises of RunKeepsPromises are kept |
| Fleet.Parasitifer.ConnectWs | kn/net/src/ws/parasitifer.h:141-158 | the new connections are, in order, those delivered at exactly the indices below conn_count_ (or at all, if it is zero) whose entry is not IPv6 and for which one is delivered |
| Fleet.Parasitifer.ConnectKafka | kn/net/src/kafka/parasitifer.h:143-161 | exactly the first of those connections, if there is any |
| Fleet.FleetRate | kn/net/src/ws/parasitifer.h:141-158 | the attempts of all started sessions that begin within any window of T ms number at most conns (T + 25060) / 2530, in every interleaving, and a non-zero conn_count_ bounds conns |
| Fleet.FleetBound | kn/net/src/ws/parasitifer.h:141-158 | if no session has made an attempt outside a window of T ms, the attempts made number at most conns (T + 20000) / 2530 |
| Offsets.BaseConfig.ResetSubscribeTopics | kn/net/src/kafka/base_config.h:90-97 | exactly the given topics, at the default offset |
| Offsets.BaseConfig.ResetSubscribeInfos | kn/net/src/kafka/base_config.h:99-107 | for each topic its first entry |
| Offsets.BaseConfig.ExtendTopicsWithDefaultOffset | kn/net/src/kafka/base_config.h:109-119 | topics that were missing are added at -1, and what was there wins |
| Offsets.BaseConfig.UniversalUpdateOffset | kn/net/src/kafka/base_config.h:122-128 | every offset is set, in whatever order the table is walked, and nothing else changes |
| Offsets.BaseConfig.UpdateOffsets | kn/net/src/kafka/base_config.h:130-148 | each topic gets the last offset given for it; existing topics keep their partition; new ones only if asked for |
| Offsets.BaseConfig.GetOffsets | kn/net/src/kafka/base_config.h:150-158 | every topic with its offset read as unsigned |
| Offsets.BaseConfig.GetTopics | kn/net/src/kafka/base_config.h:160-166 | every topic once, in whatever order |
| Offsets.BaseConfig.GetTopicPartitions | kn/net/src/kafka/base_config.h:168-174 | as many entries as the table has, and exactly its entries |
| Offsets.ResetTopicsReports | kn/net/src/kafka/base_config.h:90-97 | after a reset exactly the given topics are reported, at 2^64 - 1, in partition 0 |
| Offsets.ResetInfosReports | kn/net/src/kafka/base_config.h:99-107 | after a reset the first entry for a topic is reported as given, for all 64-bit offsets |
| Offsets.ExtendReports | kn/net/src/kafka/base_config.h:109-119 | missing topics are reported at 2^64 - 1, in partition 0; the others are as before |
| Offsets.UniversalReports | kn/net/src/kafka/base_config.h:122-158 | after a universal update its offset is reported for every topic |
| Offsets.UpdateReports | kn/net/src/kafka/base_config.h:130-158 | after an update the last offset given for a topic is reported; partitions stay, new topics are in partition 0 and only there if asked for |
| Offsets.UpdateLeavesOthers | kn/net/src/kafka/base_config.h:130-148 | topics that are not named are as before |
| Offsets.CheckpointRoundTrip | kn/net/src/kafka/base_config.h:130-158 | reported offsets, fed in any order to an empty table, give a table that reports the same, for all 64-bit values |
| Offsets.CheckpointRestores | kn/net/src/kafka/base_config.h:130-158 | fed back to their own table they change nothing, not even a partition |
| Offsets.KeysAlwaysAgree | kn/net/src/kafka/base_config.h:90-148 | after any sequence of operations every key is the topic of its entry |
| Offsets.PartitionsAreKept | kn/net/src/kafka/base_config.h:109-148 | between resets no topic is lost and none changes its partition |
| Topics.MatcherIsExact | kn/net/src/kafka/conn.h:175-177 | a matcher without backtracking accepts exactly the language of the regular expression |
| Topics.ParseOfPrint | kn/net/src/kafka/conn.h:175-177 | parsing undoes printing, so a name has at most one decomposition |
| Topics.PrintOfParse | kn/net/src/kafka/conn.h:175-177 | printing undoes parsing |
| Topics.TradingFilterIsExact | kn/net/src/kafka/conn.h:170-180 | a name with the prefix anywhere in it is selected exactly if it contains the subscription and is, as a whole, prefix, word, dot, digits, underscore, digits |
| Topics.ExpandHas | kn/net/src/kafka/conn.h:168-187 | a name is selected exactly if it is in the metadata and some subscription selects it |
| Topics.ExpandPicks | kn/net/src/kafka/conn.h:168-187 | a name is selected exactly if it is in the metadata, has a subscription as a part, and, if it has the trading prefix as a part, is in full prefix, word, dot, digits, underscore, digits: on concatenations, without the filter |
| Topics.PatternIsTradingName | kn/net/src/kafka/conn.h:175-177 | the expression matches exactly those names |
| Topics.MatchingInOrder | kn/net/src/kafka/conn.h:182-186 | one subscription selects names in the order of the metadata, each as often as there |
| Topics.ExpandAppends | kn/net/src/kafka/conn.h:168-187 | the selections of the subscriptions are appended in their order |
| Topics.SelectionIsIdempotent | kn/net/src/kafka/conn.h:168-187 | the selected names, taken as subscriptions, select the same names |
| KafkaConn.StreamEntry.Init | kn/net/src/kafka/conn.h:67-111 | the shared reset policy becomes the one that the signed offsets mean, decided on unsigned ones, or stays as it was; the consumer is made with it |
| KafkaConn.PolicyOfReports | kn/net/src/kafka/conn.h:81-102 | smallest is set exactly if every reported offset is 0 or 2^64 - 2, largest exactly if there are offsets and every one is 2^64 - 1, and none with automatic commits |
| KafkaConn.StartAtTheEnd | kn/net/src/kafka/base_config.h:90-97 | a reset to a list of topics, followed by Init, sets largest |
| KafkaConn.StartAtTheBeginning | kn/net/src/kafka/base_config.h:90-128 | a universal update to 0 or -2, followed by Init, sets smallest |
| KafkaConn.StreamEntry.Sub | kn/net/src/kafka/conn.h:156-214 | the new subscriptions, by ExpandPicks, the new table and the decision to assign, to subscribe or to do nothing |
| KafkaConn.StartUpAgrees | kn/net/src/kafka/conn.h:81-214 | a policy set by this Init rules out assigning, and then Sub subscribes exactly if there are subscriptions; Sub assigns exactly if it has subscriptions, manual commit is off and an offset reported before Sub was from 1 to 2^63 - 1 |
| KafkaConn.SelectedIsConsumed | kn/net/src/kafka/conn.h:188-213 | every selected topic and every topic of the table is assigned, where the table has it or else at -1 of partition 0, or subscribed |
| KafkaConn.StreamEntry.Start | kn/net/src/kafka/conn.h:278-279 | Init then Sub: the consumer is assigned partitions under a policy exactly if an earlier Init had set one and Sub assigns |
| KafkaConn.PolicyWithoutSubs | kn/net/src/kafka/conn.h:88-162 | the failing input: with the empty table and no subscriptions Init sets smallest and Sub does nothing |
| KafkaConn.AssignsUnderOldPolicy | kn/net/src/kafka/conn.h:81-208 | a start at offset 0 and a later one at offset 5: the second assigns under the policy of the first |
| KafkaConn.SubIsIdempotent | kn/net/src/kafka/conn.h:168-189 | Sub run again on the same metadata selects the same topics and leaves the table alone |
| Timestamps.StrToNum | kn/tool/src/str_to_number.h:33-41 | the digit loop yields the value of the leading digits, or the error, and leaves its out-parameter alone on an error |
| Timestamps.StrUnixTsToTP | kn/tool/src/datetime.h:57-83 | the time point or the error of the string; on an error the out-parameter is left alone; where C++ leaves the count undefined, no signed 64-bit number is it |
| Timestamps.AcceptedExactly | kn/tool/src/datetime.h:57-83 | a string is taken as a time exactly if it has one of the four lengths and starts with a digit |
| Timestamps.OutOfRangeExactly | kn/tool/src/datetime.h:61-82 | out of range is reported exactly for leading digits from 2^64 on, which takes at least 20 characters |
| Timestamps.NoAcceptedLengthOverflows | kn/tool/src/datetime.h:64-77 | no string of an accepted length overflows the digit loop |
| Timestamps.PrefixRoundsDownExactly | kn/tool/src/datetime.h:51-83 | a prefix of an accepted length of a 19-digit string gives its time rounded down to the unit of that prefix exactly if the number is below 2^63 or the prefix is the whole string |
| Timestamps.NanosecondsAgreeExactly | kn/tool/src/datetime.h:51-77 | a 19-digit string and its 16-digit prefix agree exactly if the number is below 2^63 |
| Timestamps.NanosecondString | kn/tool/src/datetime.h:51-77 | the time of a 19-digit string outright, rounded towards 1970, also from 2^63 on |
| Timestamps.ValueOfDecimal | kn/tool/src/str_to_number.h:33-41 | reading a printed number gives the number |
| Timestamps.PrintedTimes | kn/tool/src/datetime.h:51-77 | a printed count of a unit, of the length that stands for it, is read as the time point of that count |
| Timestamps.ZerosChangeNothing | kn/tool/src/datetime.h:51-77 | up to microsecond time points, three more zeros are the same time in the next unit exactly if the longer number is below 2^63, as it is for 10 and 13 digits |
| Timestamps.ZerosInNanoseconds | kn/tool/src/datetime.h:51-77 | for nanosecond time points they are whenever the shorter string has a defined time |
| Timestamps.OverflowsExactly | kn/tool/src/datetime.h:51-77 | the signed count overflows exactly for a nanosecond time point of a string shorter than 19 characters whose number is from 2^63 ns on |

## Left out

- TlsConn.Conn.DoSession: C++ leaves it running without end; here it is cut off after any given number of turns of its loops, so every finite part of a session is covered.
- PlainConn.Conn.DoSession: the same.
- StreamEntries.StreamEntry.Stop: runs only while the coroutine is suspended; an unsynchronised call from another thread in between is a data race and not modelled.
- Sockets, TLS, Beast and cppkafka themselves: only their results, as choices of the environment under the facts above.
- Thrown exceptions, SNI set-up and the time limits of socket operations.
- User callbacks (`Init`, `OnRead`, `ApiRate`): arbitrary results; `Init` may change the subscriptions but is taken to leave the stream, the buffer and the back-off fields alone. Overrides of the virtual `ReConnectRate` are not covered.
- Destructors and who owns a connection after its session.
- `ParasitiferBase::Close`: a loop that calls `Stop` on every connection.
- `MustResolve`: an unbounded retry on the resolver.
- Kafka's `DoSession` poll loop: it forwards messages until stopped, and decides nothing else.
- `StrToTP` and `NowTS`: all their behaviour is in the date library and the clock.
- Relay connections, UDP, QUIC, the Kafka producer, logging and the other tools: forwarding calls.
