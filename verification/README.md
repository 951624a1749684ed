# CaenDAQ in Dafny: decoding, recording and running digitizers

CaenDAQ reads CAEN digitizers, writes their raw buffers to one file and decodes a copy online. This
project models its core and proves, for every input, every interleaving and runs of any length, what the
core is for.

* **Decode path** (`Words`, `Arithmetic`, `DataFrames`, `Clocks`, `Parsing`, `Stamping`, `Decoder`).
  `Parsing` says, without state, what a buffer of 32-bit words means; `Stamping` turns parsed events into
  delivered ones with one clock per board; `Decoder.AggregateDecoder` is the code's own index loops with
  its cached frames and shared trace buffer, proved to do exactly that, whatever the words.
  `DecodingLaws`, `CutCondition` and `EventRanges` are the laws of that meaning; `FormatWords`, `Encoding`,
  `ReservedWords` and `RoundTrip` write the format down from the field side and prove that decoding inverts
  it; `FamilyLimits` shows where the bit tables fall short of what is promised for all families.
* **Mock digitizer** (`Mock`, `MockRuns`, `MockDecoding`): the synthetic board that prints aggregates, and
  the proof that decoder and mock compose over whole runs although the 31-bit counter wraps.
* **Acquisition pipeline** (`BlockQueues`, `Pipelines`, `RawFileWriters`, `DataFileHeaders`, `Recording`):
  the bounded queue as a monitor with any number of threads, N readers, the writer and the stopping thread
  as one step system, size-based file rotation, the file header, and the theorem that what is decoded from
  the files later is what decoding the accepted buffers gives. `WholeChain` puts mock, pipeline, file and
  decoder together in one statement.
* **Run control** (`RunControl`, `ClockSync`): the start and stop protocol with all its failure points, and
  the clock-chain alignment against any environment driving the sticky PLL latch.
* **Online accounting** (`HistogramStores`, `HitTaps`, `DecodeStages`, `StatsCollectors`): spectra that
  agree with their event history, hits accounted for to the last one, rates that telescope.

A class in the model is a class of the source whose methods change its fields; its methods are proved
against functions of their inputs and old state, and the lemmas are about those functions. Threads are
modelled as step systems whose steps are the critical sections.

## What the proofs found

* The repository's README (line 129) says the counter is unwrapped per channel; the code keeps one clock
  per board (src/AggregateDecoder.cpp:62-65), as its header explains. The model follows the code.
* README.md:136-139 promises that events without time or energy keep their waveform. For the x724 family
  in DPP-PHA such a couple is kept if and only if the first and the last word of every event keep clear of
  the reserved bits (`FamilyLimits.PartialKeptIff`, for every layout `RoundTrip.KeptIff`); otherwise it is
  thrown away as uninitialised memory. Ordinary traces are lost alone, behind a time stamp and before an
  energy (`FamilyLimits.TraceOnlyLost`, `TimedTraceLost`, `TracedEnergyLost`).
* The flag field of the x730 DPP-PHA energy word is five bits wide, and the lost bit is its sixth: no such
  event is ever reported lost (`FamilyLimits.PhaX730NeverLost`).
* The mock prints traces of any length, but the sample count the decoder computes is 16 bits wide: a
  printed buffer is read back exactly when its traces have fewer than 65536 samples
  (`MockDecoding.ReadBackIffShort`).
* A stream may be split over two decode calls if and only if the first part ends between aggregates: for
  every other first part some continuation is decoded differently (`CutCondition.CutHarmlessIff`,
  `CutCondition.DecodeInPartsIff`).
* A time in ps names its tick if and only if ticks times ps per tick plus the fine part stays below 2^63,
  for the fine part is added in signed 64 bits too (`Clocks.TimePsNamesTick`). The product alone is not
  enough: `Clocks.FineTimeOverflows` is a 2 ns board after 107 days.
* A running object with a writing board records if and only if no prepared start has failed on it before
  and no run has been stopped: either closes the write queue and the file for good, while later starts
  still succeed (`RunControl.RecordsIff`, `RetryRecordsNothing`, `SecondRunRecordsNothing`).
* The wait for Board Ready ends whatever the board answers, without leaving the range of the int that
  counts the waiting time, if and only if no wait is allowed, or the poll period is positive and its first
  multiple at or above the timeout is an int (`ClockSync.WaitEndsIff`). Otherwise a board that never gets
  ready is polled for ever with a poll period of zero, and overflows that int with any other
  (`ClockSync.SilentBoard`, `ClockSync.PolledForEver`).

## Model

| member | source | states |
|---|---|---|
| Words.FieldTable | vendor/rureader/Utils.h:13-18 | shift and mask read exactly the digits of the word between the two bits, for every range the tables name |
| Words.FieldRead | vendor/rureader/Utils.h:13-18 | a field put at its place in a word is read back, whatever is below and above it |
| DataFrames.ResolveConsistent | vendor/rureader/DataFrame.cc:85-153 | for every family and format word the event is as long as the words its flags announce, and never both energy and charge |
| DataFrames.SetDataFormat | vendor/rureader/DataFrame.cc:74-83 | the cache is invisible: after the call the layout is that of the word just given |
| DataFrames.FamiliesByName | vendor/rureader/DataFrameBuilderPHA.cc:6-17 | a name is x730 exactly if 730 or 725 stands somewhere in it, x724 exactly for 724, 781 or 782, x720 exactly for 720, by position |
| DataFrames.SupportedByName | src/AggregateDecoder.cpp:79 | a board is decoded exactly if its name has one of the numbers of its firmware |
| DataFrames.NumberSelectsFamily | vendor/rureader/DataFrameBuilderPSD.cc:6-14 | such a number selects its family whatever stands before and behind it |
| Clocks.Unwrap | src/AggregateDecoder.cpp:43-60 | the search loop returns the specified time and leaves the specified clock, in 64-bit arithmetic; a counter of 64 bits is taken as it is and moves no epoch |
| Clocks.BestOfThree | src/AggregateDecoder.cpp:47-55 | the search takes the closest of previous, current and next epoch, the earlier on a tie |
| Clocks.UnwrapIsNearest | src/AggregateDecoder.cpp:43-60 | three candidates suffice: the time returned is the nearest to the reference of all non-negative times congruent to the counter value, ties to the earlier; the first event stays in epoch 0 |
| Clocks.TickKeepsInvariant | src/AggregateDecoder.cpp:54-58 | every placement keeps epoch = reference / range, and moves less than two wraps ahead |
| Clocks.UnwrapExactIff | src/AggregateDecoder.cpp:43-60 | a true time is recovered from its counter value if and only if it lies within half a wrap of the reference (or in the first wrap) |
| Clocks.RunUnwrapsExactlyIff | include/caendaq/AggregateDecoder.hpp:62-69 | over a run of any length, out of order and across any number of wraps, every time is returned exactly if and only if each lies within half a wrap of the running maximum |
| Clocks.ReferenceIsMaximum | include/caendaq/AggregateDecoder.hpp:70-74 | in every reachable state, whatever counter values arrive, the reference is the maximum of all times returned and the epoch is reference / range |
| Clocks.ClockAfterRun | include/caendaq/AggregateDecoder.hpp:70-74 | after a run that is tracked exactly the reference is the maximum of all true times |
| Clocks.FineBelowTick | src/AggregateDecoder.cpp:68-69 | the fine time never reaches one tick |
| Clocks.FinePartIsFloor | src/AggregateDecoder.cpp:68-69 | the fine part is the fine time's share of one tick, rounded down; none without fine bits |
| Clocks.TimePsExactIff | src/AggregateDecoder.cpp:67-70 | the ps time is product plus fine part if and only if that sum fits signed 64 bits, and is at least 2^64 less otherwise |
| Clocks.TimePsNamesTick | src/AggregateDecoder.cpp:66-70 | the ps time divided by the period is the tick, with or without fine time, if and only if product plus fine part fits signed 64 bits |
| Clocks.FineTimeOverflows | src/AggregateDecoder.cpp:67-69 | a counterexample: a product below 2^63 whose fine part carries it over, so the tick is lost |
| Parsing.AggLength | src/AggregateDecoder.cpp:97 | the length is the low 28 bits of the marker word |
| Parsing.CouplesAreMaskBits | src/AggregateDecoder.cpp:143-144 | the couples are exactly the set mask bits, each once, in order |
| Parsing.EightCouples | src/AggregateDecoder.cpp:143-144 | couple c is there exactly if bit c is set, eight at most |
| Parsing.CorruptIff | src/AggregateDecoder.cpp:149-156 | an aggregate is counted as corrupt, once, exactly when its couples cannot all be walked over |
| Stamping.AdvanceJoin | src/AggregateDecoder.cpp:84-113 | two parsed stretches one after the other give the same events, clocks and counters as their concatenation |
| Stamping.DeliveredEvents | src/AggregateDecoder.cpp:208-219 | the callback receives the parsed events in order, every field unchanged but the time |
| Stamping.AdvanceCounts | src/AggregateDecoder.cpp:84-113 | each of the five counters grows by what the buffer gives for it |
| Stamping.TimesAndClocks | src/AggregateDecoder.cpp:62-71 | an event without a time stamp gets no time and moves no clock; without a known period the clock goes on and no time is given; no event moves another board's clock |
| Decoder.AggregateDecoder.constructor | include/caendaq/AggregateDecoder.hpp:86-92 | a new decoder knows no board and has counted nothing |
| Decoder.AggregateDecoder.RegisterBoard | src/AggregateDecoder.cpp:73-82 | a board starts with a fresh clock and the families whose numbers stand in its model name, each exactly if, by position; no other board is touched |
| Decoder.AggregateDecoder.SetTime | src/AggregateDecoder.cpp:62-71 | only the board's clock moves; the time is computed in 64-bit arithmetic, product and fine part; no time without a known period |
| Decoder.AggregateDecoder.UnpackWave | src/AggregateDecoder.cpp:115-136 | the reused trace buffer holds exactly the samples of the event, whatever it held before; reads inside the couple |
| Decoder.AggregateDecoder.ReadPHA | src/AggregateDecoder.cpp:183-218 | reading one event by index, inside its couple only, gives the event that its own words spell |
| Decoder.AggregateDecoder.ReadPSD | src/AggregateDecoder.cpp:249-289 | the same for PSD |
| Decoder.AggregateDecoder.FindInvalid | src/AggregateDecoder.cpp:167-173 | the pre-scan, inside the couple, finds a reserved bit if and only if one of its complete events sets one |
| Decoder.AggregateDecoder.CoupleHeader | src/AggregateDecoder.cpp:152-156 | the two header words, read inside the aggregate, give size and layout, and fit exactly when the couple can be walked over |
| Decoder.AggregateDecoder.CouplePHA | src/AggregateDecoder.cpp:158-221 | one couple advances the decoder by exactly what its words mean, and is skipped and counted when condemned |
| Decoder.AggregateDecoder.CouplePSD | src/AggregateDecoder.cpp:245-292 | one PSD couple advances the decoder by exactly what its words mean |
| Decoder.AggregateDecoder.DecodePHA | src/AggregateDecoder.cpp:138-223 | a PHA aggregate advances the decoder by its meaning, including the corrupt exit |
| Decoder.AggregateDecoder.DecodePSD | src/AggregateDecoder.cpp:225-294 | a PSD aggregate likewise |
| Decoder.AggregateDecoder.Decode | src/AggregateDecoder.cpp:84-113 | for any words: terminates, returns the number of events, delivers them field by field, adds to each counter what the buffer gives for it, and leaves the whole state as delivering the buffer's meaning does; every read behind the marker goes through `WordAt`, whose precondition is the current couple (for headers the current aggregate) |
| Decoder.ChannelBelowMax | src/AggregateDecoder.cpp:193-195 | the skip of channels above 15 is never taken |
| EventRanges.EventsInRange | src/AggregateDecoder.cpp:208-218 | whatever the words: boards below 32, channels below 16, 15-bit energies, 16-bit charges, fewer than 65536 samples |
| EventRanges.DeliveredInRange | src/AggregateDecoder.cpp:208-219 | the same for the events delivered |
| DecodingLaws.CutAnywhere | src/AggregateDecoder.cpp:93-111 | parsing x ++ y is parsing x, then parsing what x left unread followed by y |
| DecodingLaws.GarbageIsSkipped | src/AggregateDecoder.cpp:95 | words without the marker change nothing |
| DecodingLaws.UnknownBoard | src/AggregateDecoder.cpp:104-110 | an aggregate of an unknown or unsupported board is stepped over and its fail bit still counted |
| DecodingLaws.DecodeInParts | src/AggregateDecoder.cpp:84-113 | decoding is a homomorphism on whole aggregates: one buffer or two, the same events, clocks and counters |
| CutCondition.CutHarmlessIff | src/AggregateDecoder.cpp:93-111 | for every first part: every continuation means the same alone as behind it if and only if the first part ends between aggregates |
| CutCondition.DecodeInPartsIff | src/AggregateDecoder.cpp:84-113 | two calls leave the decoder as one does, from every state and for every continuation, if and only if the first buffer ends between aggregates |
| DecodingLaws.CutAggregateIsLost | src/AggregateDecoder.cpp:99 | an instance: an aggregate cut in two is lost |
| DecodingLaws.CorruptionIsContained | src/AggregateDecoder.cpp:93-111 | replacing the contents of a length-valid aggregate leaves all earlier events and every field but the time of all later ones |
| DecodingLaws.OtherBoardsUnseen | src/AggregateDecoder.cpp:62-71 | events of other boards change neither the clock nor the events of a board |
| DecodingLaws.BoardsDoNotInterfere | src/AggregateDecoder.cpp:84-113 | in any interleaving of whole aggregates, the events of a board, times included, are those of decoding its aggregates alone |
| DecodingLaws.ConcatInOrder | src/AggregateDecoder.cpp:93-111 | the stream of a list of aggregates: each stands right behind those before it |
| DecodingLaws.CoupleAllOrNothing | src/AggregateDecoder.cpp:158-180 | a couple is emitted whole or not at all, and then counted event by event |
| DecodingLaws.EventsAreConserved | src/AggregateDecoder.cpp:158-221 | over any buffer, emitted events plus condemned events are the events that the accepted couples claim |
| DecodingLaws.CondemnedAsIfAbsent | src/AggregateDecoder.cpp:161-180 | a condemned couple leaves all other couples of its aggregate as if it had not been sent |
| DecodingLaws.CondemnedLeavesNoTrace | src/AggregateDecoder.cpp:161-180 | in any stream and from any decoder state, a condemned couple leaves all clocks, all delivered events with their times and all other counters as if the board had not sent it |
| FormatWords.FormatIsRead | vendor/rureader/DataFrame.cc:85-153 | the tables read from every family's format word the parts, trace length and event size that it announces |
| FormatWords.SizeIsRead | vendor/rureader/DataFrame.h:66-68 | the size of a channel aggregate is read from its 31, 22, 21 or 24 low bits, whatever is above them |
| FormatWords.StampIsWhole | src/AggregateDecoder.cpp:62-65 | the extension stands directly above the stamp: its shift is the width of the stamp, its width that of its field |
| Encoding.ResolvedLayout | vendor/rureader/DataFrame.cc:85-153 | every supported family has the bit fields its encoding assumes |
| Encoding.EventRead | src/AggregateDecoder.cpp:182-219 | an encoded event is read back with every field: channel, time and its extension, fine time, energy or charges, flags and samples |
| RoundTrip.EventsRead | src/AggregateDecoder.cpp:158-219 | any number of complete events is read back in order |
| ReservedWords.EventReserved | vendor/rureader/DataFrame.cc:116-135 | for every x724 layout, the first and last words of an encoded event pass the check exactly when their fields keep clear of the reserved bits |
| RoundTrip.KeptIff | src/AggregateDecoder.cpp:167-180 | for every x724 layout, a couple is kept if and only if every event keeps clear |
| RoundTrip.EventsAreClean | vendor/rureader/DataFrame.cc:116-135 | events with time stamp and energy always are |
| RoundTrip.CoupleRead | src/AggregateDecoder.cpp:149-222 | an encoded couple of any layout, reserved bits clear, fits and means its events |
| RoundTrip.AggregateRead | src/AggregateDecoder.cpp:97-110 | an encoded aggregate is whole and means its couples and fail bit |
| RoundTrip.DecodeInvertsEncode | src/AggregateDecoder.cpp:84-294 | of any well-formed stream, couples of any layout with reserved bits clear, garbage between aggregates and a cut-off one at the end, exactly the encoded events come out, in order, every field recovered |
| RoundTrip.StreamIsSound | src/AggregateDecoder.cpp:94-110 | such a stream counts no corruption and condemns nothing |
| FamilyLimits.PartialKeptIff | src/AggregateDecoder.cpp:167-190 | an x724 couple without time stamp or energy means its events if and only if every event keeps clear of the reserved bits; else all its events are lost and counted |
| FamilyLimits.TraceOnlyKeptIff | src/AggregateDecoder.cpp:167-180 | the same spelled out for events of the trace alone |
| FamilyLimits.TraceOnlyLost | src/AggregateDecoder.cpp:167-190 | a counterexample: an ordinary two-sample trace that is thrown away |
| FamilyLimits.TimedTraceLost | src/AggregateDecoder.cpp:167-190 | the same trace behind any time stamp is thrown away |
| FamilyLimits.TracedEnergyLost | src/AggregateDecoder.cpp:167-190 | a trace with a digital probe before any energy is thrown away |
| FamilyLimits.IncompleteIff | src/AggregateDecoder.cpp:186-190 | events count as incomplete exactly when the format announces no time stamp or no data word |
| FamilyLimits.PhaX730NeverLost | vendor/rureader/DataFrameBuilderPHA.cc:83-96 | no x730 PHA event is ever reported lost |
| Mock.MockModel | src/MockDigitizer.cpp:14-26 | the mock's model name selects the x730 tables |
| Mock.MockDigitizer.constructor | src/MockDigitizer.cpp:9-13 | a new mock is stopped |
| Mock.MockDigitizer.Start | src/MockDigitizer.cpp:74-81 | counter and time restart together |
| Mock.MockDigitizer.NextRand | src/MockDigitizer.cpp:38-44 | the generator never falls into its fixed point 0 |
| Mock.MockDigitizer.TraceWords | src/MockDigitizer.cpp:151-165 | the sample loop prints the synthetic pulse |
| Mock.MockDigitizer.DataWord | src/MockDigitizer.cpp:167-181 | the data word encodes an energy within its peak, or a long charge within its peak and half of it as short charge, with the reserved bits clear |
| Mock.MockDigitizer.EventOfPair | src/MockDigitizer.cpp:147-181 | one printed event is the encoding of a generated one at its tick |
| Mock.MockDigitizer.Body | src/MockDigitizer.cpp:147-182 | 8 to 31 events, alternating channels, at the ticks of the period |
| Mock.MockDigitizer.Read | src/MockDigitizer.cpp:83-188 | nothing while stopped or early, else one whole aggregate, word for word, and the next is due one period later |
| Mock.PeriodIsSecondOverRate | src/MockDigitizer.cpp:95-99 | the period is a second over the rate, rounded down; rate 0 counts as 1 |
| Mock.BaseFollowsClock | src/MockDigitizer.cpp:136-143 | an emission starts within a tick of the wall clock |
| Mock.PairsFillPeriod | src/MockDigitizer.cpp:139-142 | the pairs of events are spread over the period: as many steps as pairs fill it up to less than a tick each |
| Mock.TraceByOptions | src/MockDigitizer.cpp:107-131 | a trace exactly when waveforms and two samples or more are asked for; as many samples as asked for, rounded down to 16, announced in the format word |
| Mock.XorShiftBits | src/MockDigitizer.cpp:38-44 | two states and their successors show the three shifts of the generator |
| Mock.PulseShape | src/MockDigitizer.cpp:156-161 | the pulse: baseline, ten rising samples, linear decay to 300 |
| MockRuns.TimesRecovered | src/AggregateDecoder.cpp:62-71 | a trackable run of one board is delivered at its true times, fine time added, as long as these fit signed 64 bits |
| MockRuns.TimesRecoveredIff | src/AggregateDecoder.cpp:43-71 | every event of a run is delivered at its true time if and only if the run is trackable |
| MockRuns.ConsecutiveIsShort | src/MockDigitizer.cpp:131-150 | even at one buffer per second consecutive emissions span less than half a wrap |
| MockRuns.EmissionIsTrackable | src/MockDigitizer.cpp:131-150 | behind a short gap the events of an emission stay within half a wrap of the clock |
| MockRuns.EventsInTheirPeriod | src/MockDigitizer.cpp:132-150 | every event lies in the period its emission covers, give or take 52 ns |
| MockDecoding.FormatRead | src/MockDigitizer.cpp:127-131 | the decoder computes from the format word the layout the mock printed |
| MockDecoding.EmissionParsed | src/MockDigitizer.cpp:118-187 | of a printed buffer exactly the generated events and the fail bit are read |
| MockDecoding.EventByNumbers | src/MockDigitizer.cpp:147-182 | what is decoded of a printed event: channels in turn, the wrapped tick, energy or charges within the peak, the pulse as trace, no flag but pile-up |
| MockDecoding.TicksByNumbers | src/MockDigitizer.cpp:140-150 | channel 0 at even spacing from the start of the period, channel 1 behind it by at most half a step or by ten ticks |
| MockDecoding.KeptRunDecodes | src/MockDigitizer.cpp:83-188 | any run of up to 2^53 ns, buffers lost on the way included as long as the gaps stay short, decodes to exactly the generated events of the buffers that arrived, at their true times |
| MockDecoding.MockRunDecodes | src/MockDigitizer.cpp:83-188 | without losses, for every rate and random choice, exactly the generated events, each at 2000 ps times its unwrapped tick, with nothing counted but the fail bits |
| MockDecoding.FreshRunDecodes | src/MockDigitizer.cpp:74-188 | the same from the start, losses included, with a decoder that has seen nothing of the board |
| MockDecoding.ReadBackIffShort | vendor/rureader/DataFrame.cc:49-60 | a printed buffer is read back if and only if its traces have fewer than 65536 samples |
| BlockQueues.BlockQueue.constructor | include/caendaq/BlockQueue.hpp:29 | an empty open queue; capacity 0 means 1 |
| BlockQueues.BlockQueue.Push | include/caendaq/BlockQueue.hpp:34-50 | the critical sections of push, before and after its wait, each exactly when: refused by a close, enqueued at the end, dropped and counted with its bytes at a full open queue whose time is up, waiting at one whose time is not |
| BlockQueues.BlockQueue.Pop | include/caendaq/BlockQueue.hpp:53-73 | the critical sections of pop and popFor, each exactly when: the front block, drained, timed out or asleep |
| BlockQueues.BlockQueue.Close | include/caendaq/BlockQueue.hpp:76-83 | the flag is set and the contents stay |
| BlockQueues.NextKeepsInv | include/caendaq/BlockQueue.hpp:34-83 | every step of the monitor keeps conservation and coverage of sleepers |
| BlockQueues.AlwaysInv | include/caendaq/BlockQueue.hpp:34-83 | in every state of every run, any number of threads: accepted = popped ++ queued, size within capacity, drops counted, and no thread sleeps un-notified over work it could do or over a close |
| BlockQueues.DropsExactly | include/caendaq/BlockQueue.hpp:42-45 | a block is dropped exactly when a producer's time is up and the queue is open and full: the block in its hand, counted once with its bytes |
| BlockQueues.DropsOverRun | include/caendaq/BlockQueue.hpp:37-45 | the same in every run; a producer that wakes before its time is up and finds the queue full sleeps again, block in hand |
| BlockQueues.AcceptsExactly | include/caendaq/BlockQueue.hpp:46-49 | a block is accepted exactly when it is offered to an open queue with room, at the end |
| BlockQueues.SleepsExactly | include/caendaq/BlockQueue.hpp:37-41 | a producer sleeps exactly when the queue is open and full and its time is not up |
| BlockQueues.HandsKept | include/caendaq/BlockQueue.hpp:37-49 | a waiting producer's block changes only when that producer comes with a new one |
| BlockQueues.PopsExactly | include/caendaq/BlockQueue.hpp:53-73 | the oldest block is popped exactly when a consumer has the lock and there is one; it sleeps exactly at an empty open queue with time left |
| BlockQueues.NobodyVanishes | include/caendaq/BlockQueue.hpp:76-83 | nobody leaves a wait but by getting the lock, and the close wakes everybody |
| BlockQueues.LoneConsumerNeverOversleeps | include/caendaq/BlockQueue.hpp:65-70 | a single consumer never sleeps over a queued block, nor over a finished close |
| BlockQueues.DrainedIsFinal | include/caendaq/BlockQueue.hpp:51-57 | an empty answer that is no timeout means closed and drained for good |
| Pipelines.NextKeepsInv | src/BoardRunner.cpp:66-158 | every step of readers, writer and stopping thread keeps the books of every board, the flow to the file and the order of the stop |
| Pipelines.AlwaysInv | src/BoardRunner.cpp:88-158 | these hold in every state of every interleaving |
| Pipelines.DropsAgree | include/caendaq/BlockQueue.hpp:42-44 | the queue's drop counter is the sum of the drops the boards were told |
| Pipelines.DropsOverRun | src/BoardRunner.cpp:123-138 | in every run, a board is told of a drop exactly when its time at a full open queue is up |
| Pipelines.WaitsExactly | include/caendaq/BlockQueue.hpp:37-41 | a board at a full open queue whose time is not up keeps waiting with its block in hand |
| Pipelines.ReadersKeepGoing | src/BoardRunner.cpp:88-121 | a reader goes on reading as long as its board is running and nothing is thrown, and only the stop of that board ends its running |
| Pipelines.TakenIsDelivered | src/BoardRunner.cpp:88-158 | every buffer delivered to the reader or the drain is taken, none twice, in order |
| Pipelines.DrainIsBounded | src/BoardRunner.cpp:140-158 | the stop reads a board out in at most 1000 reads and gives up at the first without data |
| Pipelines.StoppedRunIsOnFile | src/Daq.cpp:222-283 | after the stop: the file is the accepted blocks in order; per board it is the reads in order less exactly the counted drops; the boards' bytes add up to the file's; no push was refused by the close |
| Pipelines.CanAlwaysFinish | src/Daq.cpp:222-235 | from every state of every interleaving the stop can still be carried through: no deadlock |
| RawFileWriters.PartsHoldItems | src/RawFileWriter.cpp:89-111 | the parts hold the written items in order, none split, and each part is within the limit or a single item |
| RawFileWriters.NoSplitUsesFewer | src/RawFileWriter.cpp:96-100 | no other in-order split into whole items that keeps to the same rule uses fewer files |
| RawFileWriters.RawFileWriter.constructor | include/caendaq/RawFileWriter.hpp:66-77 | a new writer is closed and has no file |
| RawFileWriters.RawFileWriter.Open | src/RawFileWriter.cpp:40-87 | the first part holds the header, if one is wanted, and nothing else |
| RawFileWriters.RawFileWriter.Write | src/RawFileWriter.cpp:89-111 | refuses after the close; otherwise places the block by the rotation rule and counts payload only |
| RawFileWriters.RawFileWriter.Close | src/RawFileWriter.cpp:119-128 | closing changes no file and may be repeated |
| RawFileWriters.WriteRun | src/Daq.cpp:242-283 | a run written block by block leaves the parts of header and blocks: read part after part they are the header, if there is one, and the blocks in order; the bytes of the blocks are counted |
| DataFileHeaders.BoardDefFrom | include/caendaq/DataFileHeader.hpp:55-63 | sampling period, time tag and firmware survive, channels and register id exactly up to eight bits, and the packed word of the result describes the board in full if and only if its four numbers fit |
| DataFileHeaders.BuildHeader | include/caendaq/DataFileHeader.hpp:74-89 | six words and one per board, in order |
| DataFileHeaders.HeaderByWords | include/caendaq/DataFileHeader.hpp:73-89 | the header word by word: size, key frame 0xFA0201A0, number of boards, two time words, start time, and the board words |
| DataFileHeaders.PackedWord | include/caendaq/DataFileHeader.hpp:65-71 | the bits at which each field of a board word stands |
| DataFileHeaders.UnpackInvertsPackIff | include/caendaq/DataFileHeader.hpp:65-71 | a board word is read back if and only if its fields fit 6, 6 and 4 bits |
| DataFileHeaders.PackInvertsUnpack | include/caendaq/DataFileHeader.hpp:65-71 | no bit is unused: every word is the packing of what it is read as |
| DataFileHeaders.DescribesIff | include/caendaq/DataFileHeader.hpp:55-71 | the word describes its board in full, firmware included, exactly when the four numbers fit |
| DataFileHeaders.HeaderIsReadBack | include/caendaq/DataFileHeader.hpp:10-27 | the header is self-delimiting: board table, start time and payload are recovered |
| Recording.RecordedRunReadsBack | src/Daq.cpp:105-138 | a stopped run's part files, read one after the other, give the board table, and decoding them gives what decoding the accepted buffers one by one gives, for every interleaving and every size limit |
| Recording.HeaderlessRunReadsBack | src/RawFileWriter.cpp:70-87 | the same without a header: the part files are the payload alone, and one that starts with a board aggregate is not taken for a header |
| Recording.ByteOrder | include/caendaq/DataFileHeader.hpp:73 | four bytes a word, the lowest first |
| Recording.BytesAreFlattened | src/RawFileWriter.cpp:89-111 | the size counted for blocks is the number of their bytes in the file |
| Recording.RecordedBoardReadsBack | src/BoardRunner.cpp:123-138 | board by board, the file decodes to the events of the buffers that board kept, times included |
| Recording.BoardAlone | src/BoardRunner.cpp:123-138 | among buffers of several boards, the events of one are those of its own buffers decoded alone, times included |
| WholeChain.PrintedIsWhole | src/MockDigitizer.cpp:99-113 | a printed buffer is one whole aggregate and carries no event of another board |
| WholeChain.RecordedKeptReadBack | src/Daq.cpp:222-283 | any number of mock boards, any interleaving: decoding the one shared file gives, for every board whose drops left short gaps only, exactly the events of the blocks it kept, in order, at their true times |
| WholeChain.RecordedMocksReadBack | src/Daq.cpp:222-283 | for a board without a drop these are all the events it generated, at every rate |
| WholeChain.KeptByNumber | src/BoardRunner.cpp:123-138 | the blocks kept are, in order, those offered whose push was accepted |
| ClockSync.ClockChainOrder | src/ClockSync.cpp:10-26 | master first, then in board order exactly the boards on CLK-IN; empty without one |
| ClockSync.ChainOrderIsUnique | include/caendaq/ClockSync.hpp:79-84 | that describes one order only, without repeats |
| ClockSync.AwaitReady | src/ClockSync.cpp:65-73 | the polls are bounded, end at the turn the loop says and not before, and the status counts as read exactly if one succeeded |
| ClockSync.CheckBoard | src/ClockSync.cpp:60-86 | the report of a board is exactly what its reads say |
| ClockSync.Realign | src/ClockSync.cpp:47-55 | one write per board, in chain order |
| ClockSync.SynchroniseClockChain | src/ClockSync.cpp:28-87 | against any environment: all writes precede all reads, with the pauses of the options between them, polls are bounded, and ok() holds if and only if the write was accepted and the last status after re-arming is good; then no unlock happened between the two, even if the re-arming read failed |
| ClockSync.ByTheirNumbers | include/caendaq/ClockSync.hpp:41-49 | registers and status bits by their numbers |
| ClockSync.LeftExactly | src/ClockSync.cpp:66-73 | the wait is left at the first ready answer, and by a board that never is exactly after the poll periods the timeout takes |
| ClockSync.JoinedInOrder | src/ClockSync.cpp:60-86 | the boards are checked one behind the other, in chain order |
| ClockSync.SettlesBehindEach | src/ClockSync.cpp:49-55 | the settling pause of a board comes right behind its write, before the next board is touched |
| ClockSync.WaitEndsIff | src/ClockSync.cpp:66-73 | the polling loop is left for every script of answers, its int counter in range, if and only if no wait is allowed or the first multiple of the positive poll period at or above the timeout is an int |
| ClockSync.SilentBoard | src/ClockSync.cpp:66-73 | otherwise a board that never gets ready keeps the loop going: for ever with a poll period of zero, into an int overflow with any other |
| ClockSync.PolledForEver | src/ClockSync.cpp:66-73 | with a poll period of zero and a wait allowed, the loop is left if and only if the board gets ready |
| RunControl.MasterIsRight | src/Daq.cpp:71-83 | a master exists exactly when a board is synchronised, is synchronised itself, and has register id 0 whenever one can |
| RunControl.Daq.constructor | src/Daq.cpp:16-17 | a new object has no boards and is not running |
| RunControl.Daq.AddBoard | src/Daq.cpp:50-69 | boards are appended before the run and refused afterwards |
| RunControl.Daq.MasterIndex | src/Daq.cpp:71-83 | the loop finds that master |
| RunControl.Daq.AlignClockChain | src/Daq.cpp:85-103 | the chain is aligned master first, then in board order, unless it is a single board |
| RunControl.ChainByNumbers | src/Daq.cpp:85-103 | by bit 6 of their registers: nobody is aligned unless a board takes its clock from outside, else those boards and the master, each once, master first, then in board order |
| RunControl.Daq.Prepare | src/Daq.cpp:105-138 | succeeds exactly when every board and the file can be opened; arms nothing |
| RunControl.Daq.StopRunner | src/BoardRunner.cpp:66-86 | stops, joins, drains and closes a running board, in this order; does nothing otherwise |
| RunControl.Daq.BeginBoards | src/Daq.cpp:176-194 | boards begin in order up to the first that cannot; roles are set |
| RunControl.Daq.Launch | src/Daq.cpp:176-210 | boards begun, trigger fired, readers up, or everything undone, and exactly when which |
| RunControl.Daq.Start | src/Daq.cpp:140-220 | exactly which calls are made, at every failure point; on success every board and reader is up with its role, on failure no thread is left and every begun board was stopped, in the order of a stop; a successful start records if and only if nothing was torn down before |
| RunControl.Daq.Stop | src/Daq.cpp:222-235 | by position in the log: every board stopped, its reader joined, drained and closed, one board after the other, then the queue closed, the writer joined, the file closed, all of them present; repeated stops do nothing |
| RunControl.Daq.TeardownWriter | src/Daq.cpp:278-283 | the queue is closed, then the writer joined and the file closed |
| RunControl.StartKeepsOrder | src/Daq.cpp:140-208 | the re-align precedes every arm and start, these the trigger, and no reader comes up before it, whether the start succeeds or fails |
| RunControl.StopKeepsOrder | src/Daq.cpp:222-283 | by position: BoardStopped, ReaderJoined, Drained, BoardClosed for each board, all before QueueClosed, WriterJoined, FileClosed, and nothing else |
| RunControl.FailedStartStops | src/Daq.cpp:176-206 | the undoing of a failed start is in that order too |
| RunControl.StartDoes | src/Daq.cpp:140-220 | which events a start has, by the boards' start modes: armed or started up to the first that cannot begin, the writer exactly if a board writes, the trigger to the master, the readers |
| RunControl.SucceedsIff | src/Daq.cpp:176-206 | a start succeeds exactly when every board can begin and the master, if any, can be triggered |
| RunControl.FailedStartUndoes | src/Daq.cpp:176-206 | on a failed start every armed or started board is stopped later, and no reader is ever started |
| RunControl.OneMaster | src/Daq.cpp:190-193 | exactly one board is Master if any is synchronised, none otherwise |
| RunControl.RecordsIff | src/Daq.cpp:278-283 | a running object with a writing board records if and only if no prepared start has failed and no run was stopped before |
| RunControl.RetryRecordsNothing | src/Daq.cpp:278-283 | an instance: a start after a failed start succeeds with queue and file closed |
| RunControl.SecondRunRecordsNothing | src/Daq.cpp:222-235 | a second run on the same object records nothing, whatever its boards |
| HistogramStores.KeyNamesChannel | include/caendaq/HistogramStore.hpp:86-88 | distinct channels have distinct keys |
| HistogramStores.BinsInBounds | src/HistogramStore.cpp:13-31 | every bin index of a decoder's event is within its array |
| HistogramStores.PsdRowExact | src/HistogramStore.cpp:26-30 | the row is 256 times the clamped ratio rounded down, in exact arithmetic |
| HistogramStores.FillTime | src/HistogramStore.cpp:34-46 | gaps and latest time follow the history; a straggler never moves time back |
| HistogramStores.FillWaves | src/HistogramStore.cpp:47-54 | the latest trace of every kind, a saturated pile-up event counting for both |
| HistogramStores.FillChannel | src/HistogramStore.cpp:7-59 | a channel that tells its history tells the longer one after the event |
| HistogramStores.HistogramStore.Fill | src/HistogramStore.cpp:7-59 | the store agrees with its event history, channel by channel, bin by bin |
| HistogramStores.HistogramStore.Snapshot | src/HistogramStore.cpp:66-88 | a spectrum holds in bin b the number of the channel's events with that energy or charge, zero excluded as the code does; a PSD column c the events with 32c <= qlong < 32c + 32; empty for an unseen channel |
| HistogramStores.SpectrumTells | src/HistogramStore.cpp:11-31 | every bin of every spectrum counted by the fields of the events, PSD rows by the clamped charge ratio |
| HistogramStores.HistogramStore.Interval | src/HistogramStore.cpp:90-94 | the interval histogram counts the gaps of the history |
| HistogramStores.HistogramStore.Waveform | src/HistogramStore.cpp:96-113 | the latest trace of the kind asked for |
| HistogramStores.HistogramStore.CountsOfChannel | src/HistogramStore.cpp:115-125 | the counters are those of the history |
| HistogramStores.CountsAreNumbers | src/HistogramStore.cpp:55-58 | the counters are the numbers of events, pile-ups, lost and saturated ones |
| HistogramStores.LatestWaves | src/HistogramStore.cpp:47-54 | each trace kept is that of the last event of its kind that has one |
| HistogramStores.IntervalBins | src/HistogramStore.cpp:39-43 | a gap counts in the bin its axis names, beyond either end in the last one there |
| HistogramStores.OfKeyNumber | src/HistogramStore.cpp:9 | the events of a channel are those with its board and channel number, no other |
| HistogramStores.HistogramStore.Channels | src/HistogramStore.cpp:127-135 | exactly the channels that have had an event |
| HistogramStores.HistogramStore.Reset | src/HistogramStore.cpp:137-140 | an empty history |
| HistogramStores.SpectrumSums | src/HistogramStore.cpp:11-31 | the bins of a spectrum add up to the events that concern it |
| HistogramStores.LastTimeIsMax | src/HistogramStore.cpp:45 | the latest time is the maximum of the positive times |
| HistogramStores.FirstTimeIsFirst | src/HistogramStore.cpp:37 | the first time is that of the first event with a positive time |
| HistogramStores.GapsTelescope | src/HistogramStore.cpp:37-45 | one gap fewer than running maxima, all positive, adding up to latest minus first time |
| HistogramStores.IntervalSums | src/HistogramStore.cpp:38-43 | whatever the axis, the interval bins add up to the number of gaps |
| HistogramStores.ChannelsAddUp | src/HistogramStore.cpp:55 | every event is counted in exactly one channel |
| HitTaps.HitTellsEvent | include/caendaq/HitTap.hpp:61-68 | the record keeps time, energy (the long charge where there is none), channel and the three flags apart |
| HitTaps.HitTap.constructor | include/caendaq/HitTap.hpp:71-75 | a new tap is off and empty |
| HitTaps.HitTap.SetEnabled | include/caendaq/HitTap.hpp:36 | switching off discards what is held |
| HitTaps.HitTap.SetCapacity | include/caendaq/HitTap.hpp:38 | capacity 0 means 1; nothing held is lost |
| HitTaps.HitTap.Append | include/caendaq/HitTap.hpp:41-49 | a prefix of the batch is kept, the rest counted, and only a full tap drops; taken ++ held stays an in-order subsequence of the offered, and offered = taken + held + dropped + discarded |
| HitTaps.HitTap.Take | include/caendaq/HitTap.hpp:52-57 | everything since the last take, in order, with the same accounting |
| HitTaps.SubsequenceJoin | include/caendaq/HitTap.hpp:41-49 | batches appended to subsequences stay subsequences |
| DecodeStages.DecodeStage.constructor | src/DecodeStage.cpp:9-13 | the stage knows its board and has seen nothing |
| DecodeStages.DecodeStage.Submit | src/DecodeStage.cpp:20-24 | never waits: a full queue drops the block and counts it |
| DecodeStages.DecodeStage.DecodeBlock | src/DecodeStage.cpp:34-46 | the spectra's history is what decoding all blocks so far delivers; with the tap on, the batch is the hits of exactly the events with a known time |
| DecodeStages.DecodeStage.HandOver | src/DecodeStage.cpp:47-48 | the batch is offered in one piece and the events are counted |
| DecodeStages.HitsAreTimedEvents | src/DecodeStage.cpp:39-45 | one hit for every event with a time, in order, and none for the others |
| DecodeStages.DecodeStage.Process | src/DecodeStage.cpp:34-49 | one turn of the loop decodes one block more |
| DecodeStages.DecodeStage.Stop | src/DecodeStage.cpp:26-30 | after the stop the queue is closed and empty, and every block it ever took has been decoded in order |
| DecodeStages.CountsAddUp | src/DecodeStage.cpp:34-48 | at block boundaries the channels' counts add up to eventsDecoded |
| DecodeStages.EveryHitAccounted | src/DecodeStage.cpp:34-48 | over a whole run the hits offered are the timed events of exactly the tapped blocks, and each of them is taken, held, dropped or discarded, in decode order |
| StatsCollectors.StatsCollector.constructor | src/StatsCollector.cpp:96-98 | the first sample, empty if the sampler throws |
| StatsCollectors.StatsCollector.Tick | src/StatsCollector.cpp:135-206 | the published rates are the differences to the previous sample over the time since it (1e-6 when the clock did not advance); a throwing sampler changes nothing |
| StatsCollectors.RateIsDifference | src/StatsCollector.cpp:166-178 | rate times time is what was counted since the last sample, 0 standing for an unseen channel |
| StatsCollectors.TickPublishes | src/StatsCollector.cpp:146-182 | entry by entry, board and channel looked up in the previous sample: rate times time is the difference of the two entries, the count for a new channel, 0 bytes for a new board |
| StatsCollectors.RatesTelescope | src/StatsCollector.cpp:93-207 | over any ticks on an advancing clock, failed samples included, rate times the real time between successful samples adds up to last count minus first |
| StatsCollectors.WriteRatesTelescope | src/StatsCollector.cpp:162-164 | the same for bytes, counted from a board's first sight |

## Left out

- Clocks.RunUnwrapsExactlyIff: assumes one counter width per board; with widths mixed on one board the shared epoch has no meaning.
- Decoder.AggregateDecoder.Decode: buffers are whole words, fewer than 2^31 of them, so 32-bit offsets do not wrap; up to three trailing bytes, which the code ignores, are not represented, and 64-bit counters do not overflow.
- Decoder.AggregateDecoder.SetTime: signed 64-bit overflow, undefined in C++, is read as two's complement.
- Decoder.AggregateDecoder.UnpackWave: an absent trace and an empty one are both the empty sequence; the callback borrows the buffer in the code and receives a copy here.
- RoundTrip.DecodeInvertsEncode: families are those a real model name selects (one family per name); the bits that an x724 energy word never sets are not part of the encoding.
- MockDecoding.KeptRunDecodes: buffers are decoded in order; the gap condition is sufficient, the exact one is MockRuns.TimesRecoveredIff. 2^53 ns is 104 days and keeps the ps time below 2^63.
- Mock.MockDigitizer.Read: traces of up to 2.7e8 samples, so that the 32-bit length by which the buffer is sized does not wrap; sleeping is not modelled; of the random energies and charges their ranges are stated, not their distribution.
- BlockQueues.BlockQueue.Push: the wait is the monitor's sleep and wake-up; how long 100 ms are is not modelled, a timeout may come at any time.
- Pipelines.StoppedRunIsOnFile: one run per object and no file failure, so the early exit of readers on a failed writer does not occur; the decode tap is not a consumer here; communication errors read as nothing pending; threads are steps over values, not shared objects.
- Pipelines.CanAlwaysFinish: states that the end stays reachable, not that a fair scheduler reaches it by a deadline.
- RawFileWriters.RawFileWriter.Open: models one opening and no I/O failure; file names, directories and flush timing are not part of this model.
- Recording.RecordedRunReadsBack: assumes that boards deliver whole aggregates in whole words, which is what the driver's block transfers return.
- WholeChain.RecordedKeptReadBack: all boards write to the file and have different register ids; a board whose drops left longer gaps is covered by Recording.RecordedBoardReadsBack only.
- RunControl.Daq.Start: boards are records in a sequence rather than separate objects; open and configure are one event, the statistics thread and the contents drained while undoing a start are not represented.
- ClockSync.SynchroniseClockChain: stated for the options with which the wait always ends in defined behaviour (ClockSync.WaitEndsIff); an int overflow ends the model; pauses are recorded with their length and place, but unlocks happen between accesses, whatever time passes.
- HistogramStores.HistogramStore.Fill: bins do not wrap at 2^32; the logarithmic interval axis is an arbitrary function that the store clamps, and the PSD ratio is exact instead of a double.
- DecodeStages.DecodeStage.DecodeBlock: events go to the spectra after the walk over the block instead of during it; nobody else writes the store.
- StatsCollectors.StatsCollector.Tick: exact arithmetic instead of doubles; the waiting between ticks, setInterval and Graphite are not part of this model.
- The CAEN driver and CaenDigitizer: foreign calls; boards are parameters that answer reads and accept or refuse calls.
- Python bindings, command line, logging, Graphite client and build files: glue without behaviour of its own.
- timeStampPs: the counter period of a model is a parameter of the registration.
- The x720 flags EP and EET and the probe bits of trace words: the decoder does not read them.
