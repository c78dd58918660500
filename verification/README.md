# gputop: models and proofs

gputop turns a stream of wrapping GPU hardware counters into statistics per time window and per GPU context. This
project models its five cores in Dafny and proves what they are for. `dafny verify dfyconfig.toml` checks everything.

| module | models |
|---|---|
| Common | optional values, unlinking, places in a ring, division |
| OaCounters | the accumulator of 32-bit and 40-bit counters and the 32-bit clock, as objects and as functions |
| ReadTokens | report offsets, generated reads and accumulator slots, in both report layouts |
| ClientState | the OA part of the client context as a value, and every function on it; a fault - a failing assertion, a NULL or freed pointer - is `None` |
| ClientInvariants, ClientSteps | the exact reference counts, lists, tables and times, kept by every step of every run |
| Segmentation | windows, segments, and the shares and lives of contexts, defined by the history of records alone |
| ClientHistory, ClientRuns | the client computes just that, after any run; what a reader may rely on |
| ClientShares | what contexts have of the windows, together |
| ContextTimes | when windows of contexts start and end with the times of their records |
| ClientContext | the client as an object, with the loops and updates of the C code, proved against ClientState |
| RecordIterator | iterating over the records of a sample |
| GtTimestamp | converting GPU stamps to times |
| Tracepoints | the merged, windowed list of tracepoints |
| HeaderRing | the flight recorder's ring of header offsets |
| FragmentedRead | forwarding a ring buffer piece by piece |
| CloseProtocol | closing streams while messages and handles are under way |
| CloseRequests | which stream a request closes, and which request an acknowledgement answers |
| RpnCompiler | equations to C, and what equations mean |
| RpnOperators | what the generated functions compute, in plain arithmetic |
| ReadHash | functions shared by hash |
| Availability | availability conditions to C and back |
| SortCounters | counters in order of their dependencies |

Three ways of stating things recur. The C and Python functions that work in place are methods with loops, proved
equal to functions on values; the properties are lemmas about those functions. Properties over runs quantify over all
sequences of events. And where the code does not do what one would expect of it, one lemma says exactly when it does
and another gives an input for which it does not:

- A segment stays open over a context switch whose reports have a zero stamp, and time is credited to the context
  before it (AttributionExact, ZeroStampMisleads).
- Without CPU timestamps the difference of two 32-bit stamps is taken in 64 bits, so the clock jumps ahead when the
  stamp wraps (OaStepsExact, WrapJumpsAhead).
- A context that appears in the middle of a window gets its start time by the same formula from a record in the past,
  with the wrong sign (ContextStartExact, OpenStartExact, ListedStartExact, LateContextStart).
- Without CPU timestamps a context's windows end by the clock of their accumulator, which starts from the scaled stamp
  and not from the time of the first record, and at 0 if the context got nothing (ListedEndExact, ThroughoutExact,
  EndsBeforeItStarts).
- The conversion of GPU stamps divides by zero where a segment starts and ends with the stamp (RunFaultsExact,
  EqualStampsFault), and finds nothing in a segment over which the counter wraps (RunFindsAllExact,
  WrappedSegmentIsLost).
- The product in the conversion of GPU stamps is taken in 64 bits (InterpolationExact, MonotoneExact,
  OverflowIsWrong).
- The ring of header offsets notices the first wrap only if a record crosses the end of the buffer, not if one ends
  there (AddRecordIntact, MissedWrap, ExactFitGoesStale). When it is noticed late, overwritten records are dropped a
  round late from then on, as a rule for good (LagEnds, LagsForever, LateWrapLags). The tail runs past the head when
  two neighbouring records do not fit the buffer together, or the first one wraps (AddRecordEnds, TooLargeRunsOff,
  FirstRecordRunsOff).
- A ring buffer that is exactly full looks empty to the reader (TakenAll, FullRingIsEmpty), and positions cut
  to 32 bits are enough only for sizes that divide 2^32 (TruncationExact, OddSizeMissesOne).
- Addition, subtraction and multiplication for doubles are done in 64-bit integers when both operands are counters
  (OperatorExact, CompiledPairMeans, FloatArithWraps).
- The hash by which functions are shared leaves out the type that is returned (SharingExact, TypeIsNotInTheHash).
- The converter takes offsets of the high-byte table for A counters (RawOffsetNamesFedSlot, HighByteNamesB0), and
  ignores the second offset of a 40-bit token (Rd40Exact).
- A condition that is just a variable is printed untranslated (LoneVariableStays, LoneSliceMask).

## Model

| member | source | states |
|---|---|---|
| OaCounters.U32Clock.Init | lib/gputop-oa-counters.c:58-67 | The clock starts at the scaled first stamp with no ticks counted. |
| OaCounters.U32Clock.Progress | lib/gputop-oa-counters.c:75-85 | One step of the clock: the time grows by the scaled 32-bit difference to the last stamp, the count by the ticks between the two reports. |
| OaCounters.OaAccumulator.AccumulateUint32 | lib/gputop-oa-counters.c:87-93 | A 32-bit counter adds its wrapped growth to its slot and to no other. |
| OaCounters.OaAccumulator.AccumulateUint40 | lib/gputop-oa-counters.c:95-115 | The comparison form of the 40-bit wrap adds the growth modulo 2^40 of the split counter. |
| OaCounters.HighBytesOfWord | lib/gputop-oa-counters.c:101-106 | The eight words from word 40 on are the 32 high bytes, four to a word with the lowest first. |
| OaCounters.RawParts | lib/gputop-oa-counters.c:101-106 | What is compared of a counter is its word and, for the 32 counters that have one, its high byte above it. |
| OaCounters.OaAccumulator.AccumulateA32u40 | lib/gputop-oa-counters.c:144-162 | The loops of the newer layout add to every slot the growth of the report word that belongs to it. |
| OaCounters.OaAccumulator.AccumulateA45 | lib/gputop-oa-counters.c:164-170 | The same for the Haswell layout. |
| OaCounters.OaAccumulator.AccumulateReports | lib/gputop-oa-counters.c:117-182 | A pair with a zero stamp changes nothing; otherwise totals, clock, first and last timestamp move as the specification says, and which of the two happened is returned. |
| OaCounters.ZeroStampSkipped | lib/gputop-oa-counters.c:132-146 | A pair of which one report has a zero stamp leaves everything as it is; any other adds to every slot. |
| OaCounters.DeltaIsTrueStep | lib/gputop-oa-counters.c:87-115 | The difference taken from two narrow registers is the true growth of the counter between the reports. |
| OaCounters.TotalsAreTrueGrowth | lib/gputop-oa-counters.c:117-182 | For any sequence of reports sampled from unbounded counters that grow less than a register width per step, each total is the true growth modulo 2^64. |
| OaCounters.ClockCountIsTimestampSlot | lib/gputop-oa-counters.c:75-85 | The clock count always equals slot 0, the accumulated timestamp. |
| OaCounters.ClockAccuracy | lib/gputop-oa-counters.c:75-85 | After n steps of D ticks in all, the time is between floor(D*10^9/f) - (n-1) and floor(D*10^9/f); it never goes back and no product overflows. |
| ReadTokens.RawOffsetNamesFedSlot | scripts/mdapi-xml-convert.py:176-208 | A raw report offset is turned into a read of the slot that word feeds, if and only if it is not in the table of high bytes of the newer layout. |
| ReadTokens.HighByteNamesB0 | scripts/mdapi-xml-convert.py:176-208 | An offset into that table: it is taken for A 36, whose slot is that of B 0. |
| ReadTokens.RawOffsetIsRead | scripts/mdapi-xml-convert.py:176-208 | Which raw offsets are reads, which are the two registers, and that all others fail. |
| ReadTokens.OffsetShows | scripts/mdapi-xml-convert.py:176-208 | The slot of a raw offset shows the word at the offset and, for the 40-bit counters, the byte 160 + i of the report above it. |
| ReadTokens.Rd40Exact | scripts/mdapi-xml-convert.py:176-201 | Of a token with two offsets the second is not looked at; what is read is the counter made of both if and only if the second is that of the first in the table. |
| ReadTokens.EverySlotIsNamed | scripts/mdapi-xml-convert.py:187-208 | Every slot can be named, by the offset of the word that feeds it. |
| ReadTokens.TotalOffsetNamesSlot | scripts/mdapi-xml-convert.py:209-241 | Offsets into accumulated totals name the slot at that place, in both layouts; beyond the last slot there is no read. |
| ReadTokens.ReadIsTrueGrowth | scripts/gputop-oa-codegen.py:167-170 | Converter, generator and accumulator agree: the generated read returns the true growth of the counter whose low 32 bits are the word at the offset and - if it is a 40-bit one - whose next 8 bits are the byte of the table of high bytes that belongs to it. |
| ClientContext.Context.constructor | lib/gputop-client-context.c:1658-1711 | A client that has been initialised and then reset, as happens before any data can come, is where a run without events leaves it. |
| ClientContext.Context.Renumber | lib/gputop-client-context.c:704-707 | Rows become places in the list. |
| ClientContext.Context.TrimGraphs | lib/gputop-client-context.c:908-914 | The loop that drops the oldest windows. |
| ClientContext.Context.TrimContextGraphs | lib/gputop-client-context.c:744-751 | The loop that drops a context's oldest windows. |
| ClientContext.Context.TrimTimelines | lib/gputop-client-context.c:934-945 | The loop that drops segments that start too long ago. |
| ClientContext.Context.AccumulateRecords | lib/gputop-client-context.c:953-1062 | The loop over the records of a chunk, which stops at a lost buffer or an unknown record. |
| ClientContext.Context.HandleData | lib/gputop-client-context.c:1437-1448 | From any state that a run can reach, data is handled without a fault, and the object is where the longer run leads. |
| ClientContext.Context.EmptySamples | lib/gputop-client-context.c:1588-1627 | From any such state emptying succeeds and leaves no sample, context or chunk. |
| ClientSteps.EveryRunIsGood | lib/gputop-client-context.c:953-1062 | For all data and restarts: no assertion fails, nothing freed or NULL is followed, and afterwards every reference count, list, table entry, row, sample count and time is exact. |
| ClientSteps.StepGood | lib/gputop-client-context.c:978-1054 | One sample record keeps all of that. |
| ClientSteps.HandleDataGood | lib/gputop-client-context.c:1437-1448 | A message of data keeps it, also when the loop stops early. |
| ClientSteps.EmptySamplesGood | lib/gputop-client-context.c:1588-1627 | Emptying keeps it and leaves nothing behind; both of its assertions hold. |
| ClientSteps.RecordForTimeInv | lib/gputop-client-context.c:892-918 | Ending the global window keeps counts and lists; the list has its exact new length and differs by the dropped front and the new end. |
| ClientSteps.RecordForHwIdInv | lib/gputop-client-context.c:920-951 | Ending a segment keeps them; exactly the overdue segments are dropped. |
| ClientSteps.ContextsRecordForTimeInv | lib/gputop-client-context.c:1037-1042 | Ending the windows of all contexts never meets a context without one. |
| ClientSteps.OpenContextWindowsInv | lib/gputop-client-context.c:989-993 | Opening windows never meets a context that has one. |
| ClientSteps.TrimTimelinesInv | lib/gputop-client-context.c:934-945 | Dropping segments may free contexts, never the one whose segment is about to be appended. |
| ClientSteps.PutHandlerChunk | lib/gputop-client-context.c:1441-1444 | The handler's own reference is the last one exactly if no sample and no last record refers to the chunk. |
| ClientInvariants.PutContextSampleInv | lib/gputop-client-context.c:684-708 | Giving back a timeline sample keeps all counts, also when it frees its context. |
| ClientInvariants.TrimGraphsInv | lib/gputop-client-context.c:908-914 | Cutting the list of windows succeeds and leaves as many as configured. |
| Segmentation.WindowsTile | lib/gputop-client-context.c:1026-1043 | Windows cover the records without gap or overlap, each with two records or more. |
| Segmentation.EachPairInOneWindow | lib/gputop-client-context.c:1026-1043 | Every pair of records is in exactly one global window. |
| Segmentation.SegmentsOrdered | lib/gputop-client-context.c:995-1017 | Segments follow one another and share at most an end point. |
| Segmentation.AttributionExact | lib/gputop-client-context.c:995-1024 | Every pair is credited to the context its earlier record names, and to no other, if and only if the stamps at context switches are usable. |
| Segmentation.WindowCount | lib/gputop-client-context.c:1026-1030 | A window's clock count is the sum of the ticks of its pairs. |
| Segmentation.ContextCount | lib/gputop-client-context.c:1019-1024 | A context's clock count is the sum over the pairs credited to it. |
| Segmentation.ContextsWithinWindow | lib/gputop-client-context.c:1019-1030 | Within any window the ticks of all contexts together are at most the ticks of the window. |
| Segmentation.ClosedTicksFit | lib/gputop-client-context.c:1026-1043 | While stamps are not zero a window that has been closed has less than 2^64 ticks, because none before its last pair took it beyond the aggregation period. |
| Segmentation.TimelineIsSuffix | lib/gputop-client-context.c:931-948 | What is kept of the segments are the latest ones. |
| Segmentation.TimelineInOrder | lib/gputop-client-context.c:931-948 | For times that never go back the kept segments are ordered and do not overlap. |
| Segmentation.TimelineInSight | lib/gputop-client-context.c:931-948 | When a segment is appended, all older ones kept start within the visible period of its end. |
| Segmentation.VisibleExact | lib/gputop-client-context.c:934-945 | What is dropped are the segments from the front that start longer ago than can be seen, up to the first that does not. |
| ClientHistory.StepHist | lib/gputop-client-context.c:978-1054 | One record more: the client holds exactly the windows, context windows and segments, with their totals and times, that the longer history calls for, and the contexts exist since when it says. |
| ClientHistory.BirthIsRight | lib/gputop-client-context.c:646-708 | A context exists since the pair with which a segment of it was first opened, for as long as one is kept or under way; those that were there keep the pair they appeared with. |
| ClientHistory.TimelineHist | lib/gputop-client-context.c:1005-1024 | The part of that which concerns segment and context window. |
| ClientHistory.WindowHist | lib/gputop-client-context.c:1026-1043 | The part which concerns the global window and the end of all windows. |
| ClientHistory.SegmentMoves | lib/gputop-client-context.c:920-951 | The list of segments after an append is the one the history defines, entry by entry. |
| ClientHistory.WindowMoves | lib/gputop-client-context.c:892-918 | The same for the list of global windows. |
| ClientHistory.ContextMoves | lib/gputop-client-context.c:718-755 | The same for a context's list, with the share of each window, its start time and its end. |
| ClientRuns.EveryRunKeepsToHistory | lib/gputop-client-context.c:953-1062 | After any run the lists, open samples, totals and lives of contexts are those defined by the history of its events alone. |
| ClientRuns.StampIsTimestamp | lib/gputop-client-context.c:214-236 | The time the client gives a record follows from the history. |
| ClientRuns.ChunkHistoryExact | lib/gputop-client-context.c:953-1062 | A chunk adds its sample records in order and once each, up to the first lost buffer or unknown record; lost reports are passed over. |
| ClientRuns.CtxIdExact | lib/gputop-oa-counters.h:97-123 | A report names the context of its third word if bit 25 of the status word is set on gen 8, or bit 16 later; otherwise, and before gen 8, it names none. |
| ClientRuns.RunNamesContexts | lib/gputop-oa-counters.h:97-123 | So does every record in the history of every run. |
| ClientRuns.TimelineIsReadable | lib/gputop-client-context.c:920-951 | While record times never go back, a reader finds segments in order, disjoint, and in sight of the newest end. |
| ClientRuns.OaTimesGrow | lib/gputop-client-context.c:224-233 | Without CPU timestamps times never go back if and only if all steps together fit 64 bits, also when stamps wrap. |
| ClientRuns.OaStepsExact | lib/gputop-client-context.c:224-233 | Without CPU timestamps a step of the clock is the scaled growth of the 32-bit counter if and only if the counter has not wrapped. |
| ClientRuns.WrapJumpsAhead | lib/gputop-client-context.c:224-233 | A run of two records between which the counter wraps: 160 nanoseconds are taken for almost 19 minutes. |
| ClientRuns.ZeroStampMisleads | lib/gputop-client-context.c:995-1024 | A run of three records in which a zero stamp credits time to the wrong context. |
| ContextTimes.ContextStartExact | lib/gputop-client-context.c:661-680 | The start time that a context gets for a global window in the middle of which it appears is that of the window's first record if and only if the GPU clock has stood still from there to the record before it appeared, whether stamps wrap or not. |
| ContextTimes.OpenStartExact | lib/gputop-client-context.c:661-680 | So in the state after any run: the window that a live context has under way starts when the global one does if and only if the context was there before it, or the clock has stood still. |
| ContextTimes.ListedStartExact | lib/gputop-client-context.c:661-680 | And so for every listed window of every live context, against the record it starts with. |
| ContextTimes.LateContextStart | lib/gputop-client-context.c:661-680 | A run of three records that ends with a live context, which appeared in the middle of the window under way: its window starts almost 25 minutes after the global one. |
| ContextTimes.ContextEndExact | lib/gputop-client-context.c:731-736 | Without CPU timestamps the last stamp of a context's accumulator is the time of the window's last record if and only if the context has got nothing of the window and that time is 0, or what its clock was brought by and what it started from add up to that time. |
| ContextTimes.ListedEndExact | lib/gputop-client-context.c:731-736 | So after any run for the end time of every listed window of every live context, which with CPU timestamps is always right. |
| ContextTimes.ThroughoutExact | lib/gputop-client-context.c:731-736 | For a context that runs through the whole window, without a stamp that goes back, it is right if and only if the scaled stamp of the first record is its time. |
| ContextTimes.EndsBeforeItStarts | lib/gputop-client-context.c:731-736 | A run of three records after which the only window of a context that ran all the time ends 24 microseconds after zero, before its own start. |
| ClientShares.SharesWithinOpenWindow | lib/gputop-client-context.c:1019-1030 | In the window under way the clock counts of all live contexts together are at most the global one. |
| ClientShares.SharesWithinListedWindow | lib/gputop-client-context.c:1019-1043 | For a listed window the clock counts of all listed context windows over the same records are together at most its own. |
| ClientShares.EveryRunShares | lib/gputop-client-context.c:984-1052 | After any run without zero stamps both are so, for the window under way and for every listed one. |
| RecordIterator.Iterator.constructor | lib/gputop-client-context.h:362-370 | A new iterator has yielded nothing. |
| RecordIterator.Iterator.Next | lib/gputop-client-context.h:372-405 | Each call yields the first of what remains and leaves the rest; it returns false exactly when nothing remains. |
| RecordIterator.Collect | lib/gputop-client-context.h:362-405 | Iterating until the end terminates and yields all that the walk from the start gives. |
| RecordIterator.IterationExact | lib/gputop-client-context.h:372-405 | For a finished sample that is the records from start to end, once each and in order, if and only if start and end differ or the chunk ends there. |
| RecordIterator.ListIsWalkable | lib/gputop-client-context.c:191-205 | Between messages every listed chunk holds records, and every report a sample refers to is listed. |
| RecordIterator.SegmentIterates | lib/gputop-client-context.h:362-405 | After any run, iterating over a listed segment yields exactly its records, which are two or more. |
| RecordIterator.WindowIterates | lib/gputop-client-context.h:362-405 | After any run, the same for every listed global window. |
| RecordIterator.ContextWindowIterates | lib/gputop-client-context.h:362-405 | After any run, the same for every listed window of every context. |
| GtTimestamp.Convert | lib/gputop-client-context.c:595-620 | The first segment that covers the stamp decides; without one the result is 0. |
| GtTimestamp.FaultsExact | lib/gputop-client-context.c:613-615 | The conversion divides by zero if and only if the segment that decides starts and ends with the stamp. |
| GtTimestamp.RunFaultsExact | lib/gputop-client-context.c:613-615 | After any run it does for a stamp if and only if one of the segments that the history defines starts and ends with that stamp, and all kept before it end with earlier ones. |
| GtTimestamp.EqualStampsFault | lib/gputop-client-context.c:613-615 | A run of two records with one stamp, after which converting that stamp divides by zero. |
| GtTimestamp.InterpolationInSegment | lib/gputop-client-context.c:613-617 | Over a segment in which neither clock goes back the result is a time of the segment, whatever wraps. |
| GtTimestamp.InterpolationExact | lib/gputop-client-context.c:613-617 | It is the true interpolation rounded down if and only if the product of the two differences is less than 2^64. |
| GtTimestamp.ExactBounds | lib/gputop-client-context.c:613-617 | The true interpolation stays within the segment, meets its times at its ends, and is rounded down once. |
| GtTimestamp.ConversionMonotone | lib/gputop-client-context.c:599-617 | Over all stamps found in segments that advance the conversion is monotone, as long as products fit where both stamps are in one segment. |
| GtTimestamp.MonotoneExact | lib/gputop-client-context.c:613-617 | Within a segment it is monotone if and only if all products fit. |
| GtTimestamp.CoveredIsFound | lib/gputop-client-context.c:607-610 | On an orderly timeline every covered stamp is found, in the segment itself or in an earlier one that ends with it where this one starts. |
| GtTimestamp.OverflowIsWrong | lib/gputop-client-context.c:613-615 | Two segments for which the product overflows: the last stamp is converted to the start, and to a third of the way. |
| GtTimestamp.RunFindsAllExact | lib/gputop-client-context.c:599-610 | After any run whose listed segments take less than 2^32 ticks: every stamp that a listed segment passes is found if and only if the first listed stamp is not later than the last. |
| GtTimestamp.WrappedSegmentIsLost | lib/gputop-client-context.c:607-610 | A run whose one listed segment wraps, and a stamp before and one after the wrap that are both converted to 0. |
| GtTimestamp.RunIsOrderly | lib/gputop-client-context.c:599-606 | If times do not go back, the listed segments of less than 2^32 ticks are an orderly timeline under the same condition. |
| GtTimestamp.RunConverts | lib/gputop-client-context.c:595-620 | Under these conditions every stamp of a listed segment is converted to a time within that segment or the one that ends with it there, or divides by zero if the segment found does not advance. |
| Tracepoints.FindPlace | lib/gputop-client-context.c:471-474 | The walk from the end finds the place behind everything that is not later. |
| Tracepoints.TracepointLog.Add | lib/gputop-client-context.c:453-500 | After any arrival the list is what has been received, stably sorted by time and cut to the window before the newest, and every tracepoint has exactly its part of it. |
| Tracepoints.TracepointLog.Clear | lib/gputop-client-context.c:1638-1647 | Clearing empties all lists. |
| Tracepoints.SortedIsUnique | lib/gputop-client-context.c:465-476 | There is only one list with these properties. |
| Tracepoints.InsertCommutes | lib/gputop-client-context.c:465-484 | Inserting into the tracepoint's own list agrees with inserting into the common one. |
| HeaderRing.HeaderBuffer.constructor | server/gputop-perf.c:653-659 | A new ring keeps nothing. |
| HeaderRing.HeaderBuffer.EatTail | server/gputop-perf.c:1371-1386 | The inner loop does what the specification says. |
| HeaderRing.HeaderBuffer.AddRecord | server/gputop-perf.c:1358-1390 | So does the step for one record. |
| HeaderRing.HeaderBuffer.Update | server/gputop-perf.c:1293-1400 | And the whole update, whatever the headers say, if its first record fits: which is, together with the last one before, or, if there is none, without wrapping. |
| HeaderRing.EatTailStops | server/gputop-perf.c:1371-1386 | Eating the tail never passes the head. |
| HeaderRing.EatTailExact | server/gputop-perf.c:1371-1386 | It drops exactly the records that the new one runs into or up to. |
| HeaderRing.AddRecordEnds | server/gputop-perf.c:1358-1390 | From an intact ring the step for one record ends with the tail before the head if and only if no wrap has been seen, or the record fits the buffer together with the one before it, or is the first one and does not wrap. |
| HeaderRing.TooLargeRunsOff | server/gputop-perf.c:1371-1386 | Two records that do not fit together, for which the tail runs past the head. |
| HeaderRing.FirstRecordRunsOff | server/gputop-perf.c:1361-1386 | A first record that wraps, because what came before it was not taken, for which it does too. |
| HeaderRing.AddRecordValid | server/gputop-perf.c:1358-1390 | Every kept offset is where its record starts, the latest record is kept, and at most as many as there are places. |
| HeaderRing.AddRecordIntact | server/gputop-perf.c:1358-1390 | While the first wrap is watched for nothing kept is overwritten; dropped is exactly what is touched, and the oldest record if all places are taken; the wrap is seen with the first record that crosses the end of the buffer, and missed if and only if one ends just there. |
| HeaderRing.MissedWrap | server/gputop-perf.c:1361-1362 | While it is missed the ring stays intact if and only if all it keeps, with the new record, is no more than the buffer holds. |
| HeaderRing.LagEnds | server/gputop-perf.c:1358-1390 | Once the wrap has been seen late, the next record makes the ring intact again if and only if it reaches as far as the start of the last overwritten one, a round later; else the ring still lags. |
| HeaderRing.LagsForever | server/gputop-perf.c:1358-1390 | If any two records fit the buffer together and the ring has places for all records of two buffers, no number of further records makes it intact again. |
| HeaderRing.LateWrapLags | server/gputop-perf.c:1358-1390 | Six records after which a ring lags so. |
| HeaderRing.ExactFitGoesStale | server/gputop-perf.c:1361-1362 | A concrete exact fit after which an overwritten record stays in the ring. |
| HeaderRing.FoundExact | server/gputop-perf.c:1335-1359 | The records found follow one another from the old position, each with a size and none beyond the head, until there is no more such record. |
| HeaderRing.UpdateKeeps | server/gputop-perf.c:1293-1400 | An update whose first record fits takes exactly the records found and leaves all in place; if they fill the space and none ends just where the buffer does, no kept record has been overwritten. |
| FragmentedRead.Reader.Begin | server/gputop-server.c:283-310 | A new message is to deliver the header and the ring bytes from tail to head as 32 bits show them: with sizes that divide 2^32, all between what has been given back and the true head. |
| FragmentedRead.HeaderBytes | server/gputop-server.c:221-235 | The header is eight bytes: type 1, three zeroes, and the id with its lowest byte first. |
| FragmentedRead.Reader.Read | server/gputop-server.c:197-281 | Each callback delivers as much of what remains as fits, in order; eof comes exactly at the end, and only then is data_tail moved. |
| FragmentedRead.Reader.ReadRing | server/gputop-server.c:237-263 | The two copies, up to the end of the buffer and from its start. |
| FragmentedRead.Deliver | server/gputop-server.c:197-281 | For any sequence of buffer lengths the pieces make up the message, each byte once. |
| FragmentedRead.Forward | server/gputop-server.c:177-310 | A flush and the reads that follow: the message is the header and all bytes of the stream between what has been given back and the true head, however far the stream has gone; with eof they are given back. |
| FragmentedRead.TakenByPlace | server/gputop-server.c:153-153 | How much is taken depends on the places of head and tail only, wrapped or not. |
| FragmentedRead.TakenAll | server/gputop-server.c:153-156 | Of true positions all between them is seen if and only if the ring is not quite full. |
| FragmentedRead.TakenOfWords | server/gputop-server.c:177-195 | The same amount is seen from the low 32 bits of both, for sizes that divide 2^32. |
| FragmentedRead.TruncationExact | server/gputop-server.c:177-195 | It is for all positions less than a buffer apart, if and only if the size of the buffer divides 2^32. |
| FragmentedRead.OddSizeMissesOne | server/gputop-server.c:177-195 | A buffer of three bytes, for which one of two bytes around 2^32 is missed. |
| FragmentedRead.FullRingIsEmpty | server/gputop-server.c:153-156 | A full page, of which nothing is forwarded. |
| CloseProtocol.Server.Open | server/gputop-server.c:586-626 | A new stream is listed at the end, as it was asked for, and nothing else changes. |
| CloseProtocol.Server.Update | server/gputop-server.c:454-514 | A listed stream begins a message exactly if it forwards live, none is under way and data is pending, and CPU statistics are sent at once; other streams do not change; its assertions hold. |
| CloseProtocol.Server.OnRead | server/gputop-server.c:269-278 | With its last piece a message ends, and a close that waited for it goes ahead. |
| CloseProtocol.Server.OnCloseStream | server/gputop-server.c:819-866 | A close request does what the specification says, and the state stays consistent. |
| CloseRequests.CloseRequestExact | server/gputop-server.c:819-866 | If no listed stream has the requested id nothing changes. Otherwise the first that has it leaves the list and alone gets the uuid; it is closed at once or with its handle, unless a message is still being read. |
| CloseRequests.LastPieceExact | server/gputop-server.c:269-278 | The last piece of a message closes a stream that has been asked for in the same way, and else changes nothing but the end of the message. |
| CloseRequests.LastHandleExact | server/gputop-perf.c:396-403 | With its last handle a stream ends: it is closed, acknowledged with its uuid, notified and freed, and no other stream changes. |
| CloseRequests.AckHasCause | server/gputop-server.c:115-147 | In every run each acknowledgement carries the uuid of a request that asked for the stream by its id after it had been opened. |
| CloseRequests.RequestHasCause | server/gputop-server.c:849-866 | In every run each stream that is asked to close is, at that moment, asked for by its id. |
| CloseProtocol.Server.OnHandleClosed | server/gputop-perf.c:396-403 | The last handle to close finishes the stream. |
| CloseProtocol.Server.PerfStreamClose | server/gputop-perf.c:405-440 | Handles are closed first; a stream without any is finished at once. |
| CloseProtocol.Server.FinishStreamClose | server/gputop-perf.c:343-394 | Closed, acknowledged, notified, released, in this order. |
| CloseProtocol.Server.Unref | server/gputop-perf.c:442-459 | The last reference frees the stream, which must be closed. |
| CloseProtocol.EveryRunIsOrderly | server/gputop-server.c:819-866 | In every interleaving of updates, pieces, close requests and closing handles no assertion fails, no freed stream is touched, and each stream lives its life in order. |
| CloseProtocol.OrderlyMeans | server/gputop-server.c:115-147 | So of each stream there is at most one close, acknowledgement and notification, in this order, with nothing of it forwarded after closing has begun and nothing at all after it is freed. |
| CloseProtocol.NotifyHasCause | server/gputop-perf.c:391-394 | Each of these steps has been preceded by the one before it. |
| CloseProtocol.BegunIsRead | server/gputop-server.c:829-834 | A message that was begun is read to its end before its stream is closed. |
| CloseProtocol.NothingIsStuck | server/gputop-server.c:819-834 | A stream that is being closed waits for a message or for a handle, and not for both. |
| CloseProtocol.CloseStreamValid | server/gputop-perf.c:405-440 | Closing keeps lists, counts and phases consistent, with or without handles. |
| RpnCompiler.OutputRpnEquation | scripts/gputop-oa-codegen.py:294-336 | The loop over the tokens gives the code and the operand to return, or fails, as the specification says. |
| RpnCompiler.PushToken | scripts/gputop-oa-codegen.py:300-322 | Operands are resolved when an operator takes them, device fields before counters. |
| RpnCompiler.CompiledComputes | scripts/gputop-oa-codegen.py:294-336 | Running the generated function gives the value of the RPN equation, and has none exactly when the equation has none. |
| RpnCompiler.CompilerSimulates | scripts/gputop-oa-codegen.py:294-322 | The same for every prefix of the equation, stack for stack. |
| RpnCompiler.EmitComputes | scripts/gputop-oa-codegen.py:142-209 | The statements emitted for an operator compute what it means for the two values, division by zero included. |
| RpnCompiler.EquationIsSingle | scripts/gputop-oa-codegen.py:294-336 | Each temporary is assigned once and before its use. |
| RpnOperators.CompiledTree | scripts/gputop-oa-codegen.py:294-336 | Whatever expression an equation spells, the generated function computes it: every operator gets the values of its own two sides, the left one first. |
| RpnOperators.SumsOfCounters | scripts/gputop-oa-codegen.py:176-193 | UADD, USUB and UMUL of two counters are exact up to multiples of 2^64. |
| RpnOperators.QuotientOfCounters | scripts/gputop-oa-codegen.py:181-197 | UDIV rounds down and gives 0 for a division by zero; UMIN gives the smaller counter. |
| RpnOperators.ShiftsOfCounters | scripts/gputop-oa-codegen.py:199-205 | Shifts multiply by a power of two, up to multiples of 2^64, or divide by it and round down; shifting by 64 and more is undefined. |
| RpnOperators.PowersOfTwo | scripts/gputop-oa-codegen.py:199-205 | These powers are 1 and then twice the one before. |
| RpnOperators.AndOfCounters | scripts/gputop-oa-codegen.py:207-209 | AND has a bit exactly where both operands have it. |
| RpnOperators.FloatsOfCounters | scripts/gputop-oa-codegen.py:142-165 | On two counters FADD, FSUB and FMUL give the double of such a result; FDIV divides the doubles, with 0 for a division by zero, and FMAX gives the larger. |
| RpnOperators.FloatsWithDouble | scripts/gputop-oa-codegen.py:142-165 | With a double, both operands are taken as doubles. |
| RpnOperators.IntegersWithDouble | scripts/gputop-oa-codegen.py:176-197 | Then UADD, USUB, UMUL and UMIN cut the double result to 64 bits. |
| RpnOperators.DivisionWithDouble | scripts/gputop-oa-codegen.py:180-185 | UDIV cuts its operands first, whatever they are. |
| RpnOperators.BitsWithDouble | scripts/gputop-oa-codegen.py:199-209 | There are no shifts and no AND of doubles. |
| RpnOperators.LoneVariable | scripts/gputop-oa-codegen.py:300-336 | A variable is a field of the device before it is a counter, and nothing if it is neither. |
| RpnOperators.LoneLiteral | scripts/gputop-oa-codegen.py:300-336 | A literal is its value. |
| RpnOperators.ReadsEntry | scripts/gputop-oa-codegen.py:167-170 | READ gives the entry of the accumulator that lies so far into the named part. |
| RpnOperators.RegisterIsZero | scripts/gputop-oa-codegen.py:172-174 | READ_REG gives zero. |
| RpnCompiler.OperatorExact | scripts/gputop-oa-codegen.py:142-160 | An operator computes what it is meant to; floating-point addition, subtraction and multiplication of two counters do if and only if the sum is less than 2^64, the difference is not negative, or the product is less than 2^64. |
| RpnCompiler.FloatArithWraps | scripts/gputop-oa-codegen.py:142-160 | Two counters for each of the three that wrap before the result becomes a double. |
| RpnCompiler.CompiledMeans | scripts/gputop-oa-codegen.py:294-336 | While results on counters stay in range, the generated function gives the value that the equation is meant to have. |
| RpnCompiler.CompiledPairMeans | scripts/gputop-oa-codegen.py:294-336 | For one floating-point operator on two counters, the generated function does if and only if its result is in range. |
| ReadHash.Generator.ComputeHashes | scripts/gputop-oa-codegen.py:576-593 | The memoised recursion gives every counter its fully expanded equation, as long as references have no circles. |
| ReadHash.Generator.OutputReads | scripts/gputop-oa-codegen.py:378-407 | A counter gets the function of the first counter with its hash. |
| ReadHash.ReferenceExact | scripts/gputop-oa-codegen.py:583-586 | A variable stands for a counter if and only if some counter of the set has its name, and then for the last such counter. |
| ReadHash.HashIsWrittenOut | scripts/gputop-oa-codegen.py:576-593 | No variable in a hash names a counter of the set: it is written out to the end. |
| ReadHash.HashKeeps | scripts/gputop-oa-codegen.py:576-593 | Evaluating an equation and evaluating its hash is the same, for any device, metric set and accumulator and any references without circles. |
| ReadHash.SharingExact | scripts/gputop-oa-codegen.py:378-407 | Sharing does not change what a counter returns if and only if the function that serves it has the type it is declared with, or it has no value. |
| ReadHash.SharingKeeps | scripts/gputop-oa-codegen.py:378-407 | Sharing changes nothing of any counter if and only if that is so for all of them. |
| ReadHash.TypeIsNotInTheHash | scripts/gputop-oa-codegen.py:382-386 | Two counters with one equation and different types for which it does change the value. |
| Availability.SpliceRpnExpression | scripts/gputop-oa-codegen.py:338-366 | The printed text is that of the expression, and reading it as C gives the expression back; it fails exactly when an operand is missing, left over or not known. |
| Availability.SpliceExact | scripts/gputop-oa-codegen.py:338-366 | There is an expression if and only if operators always find two operands, one entry is left, and all variables are known or the variable stands alone. It is the one that the tokens spell, with the field for every variable, unless the variable stands alone. |
| Availability.TextMeansTree | scripts/gputop-oa-codegen.py:229-245 | Parsing any printed expression with the precedence of C gives the same expression. |
| Availability.TextIsUnambiguous | scripts/gputop-oa-codegen.py:229-245 | No two expressions have the same text. |
| Availability.Grouping | scripts/gputop-oa-codegen.py:229-245 | How C groups two operators without brackets, for all pairs: to the left, unless the second binds tighter. |
| Availability.BracketsAreNeeded | scripts/gputop-oa-codegen.py:229-233 | An expression that would be read differently without brackets. |
| Availability.LoneVariableStays | scripts/gputop-oa-codegen.py:346-366 | Variables are translated everywhere, if and only if the expression is more than one variable. |
| Availability.LoneSliceMask | scripts/gputop-oa-codegen.py:346-366 | One that is a single variable, and is printed with its dollar sign. |
| SortCounters.Sorter.AppendDepsAndCounter | scripts/mdapi-xml-convert.py:316-330 | The counter is appended behind all it depends on; what was there stays in front. |
| SortCounters.Sort | scripts/mdapi-xml-convert.py:332-339 | For any order of visiting, the result is a permutation in which known dependencies come first. |
| SortCounters.OrderGivesRank | scripts/mdapi-xml-convert.py:316-339 | If such an order exists at all, then dependencies have no circle. |

## Left out

- Pointers are keys into maps of live objects, so an object's address is never reused while it is live; list_del is
  folded into the operation that calls it, and hash tables are maps without reserved keys.
- Chunks are sequences of whole records; header sizes inside a chunk, and chunks cut in the middle of a record, are not
  modelled.
- Floating-point settings (visible period, aggregation period, number of windows) are natural numbers; usage
  percentages, pretty printing, process names, logging and the accumulate callback are left out.
- ClientShares.EveryRunShares: for clocks of at most one tick per nanosecond and aggregation periods of less than 2^62
  nanoseconds, with which no count wraps; SharesWithinOpenWindow and SharesWithinListedWindow are for any window of
  less than 2^64 ticks, and the sum in Segmentation.ContextsWithinWindow has no limit.
- ClientRuns.OaStepsExact: for frequencies of at most 2^32 * (2^32 - 10^9), far beyond any GPU.
- ContextTimes.ContextStartExact: for such frequencies, and fewer records from the start of the window to the birth of
  the context than ticks per second; with more, jumps of the clock could add up to 2^64 and meet the right time by
  chance. OpenStartExact assumes so of the window under way, ListedStartExact of the whole history.
- ContextTimes.ContextEndExact: what a context's clock was brought by is a sum over its pairs, each rounded down; only
  ThroughoutExact, for a context that runs all the time, reduces the condition to the window's first record.
- GtTimestamp.MonotoneExact: for segments of at most 2^64 - 2^32 nanoseconds.
- GtTimestamp.RunFindsAllExact: for listed segments of less than 2^32 ticks in all, about 5 minutes at 12.5 MHz, where
  the visible period is 7 seconds; over more of them a stamp does not tell which segment is meant. RunIsOrderly and
  RunConverts assume so too, and times that do not go back.
- Tracepoints: reading fields out of tracepoint data and correlating them with processes is left out, and so is
  removing a tracepoint while its data is listed.
- HeaderRing.UpdateKeeps: for a first record that fits the buffer together with the one before it, or does not wrap if
  there is none - what happens otherwise is in AddRecordEnds - at least two places in the ring, less than a buffer of
  new data, and indices that have not wrapped at 2^32, as the code assumes.
- HeaderRing.LagEnds: for a ring with a free place; LagsForever is for rings with places for two buffers of the
  smallest records. With fewer places overwritten records are also dropped for want of a place.
- FragmentedRead: buffer sizes are any positive number, where the code needs a power of two; Forward, and what Begin
  says of true positions, are for sizes that divide 2^32 and a ring that is not full. The byte order is little-endian.
- CloseProtocol: closing all streams when the connection goes, which may close streams twice, is left out; so are
  what the messages contain and the i915 read that feeds them. Pieces are read one event at a time, also when the
  library reads right after a message has been queued.
- RpnCompiler: tokens are already told apart; literals count as 64-bit, where C would give small ones the type int.
- RpnCompiler.CompiledMeans: one direction, since a result out of range may be masked by later operators.
- ReadHash.SharingKeeps: for counters of which others refer only to those whose equations have the type they are
  declared with, and for functions that are generated after those they call, as C needs it; maxima are shared in the
  same way and not modelled again.
- Availability: lexemes instead of characters; splitting the condition over lines is left out.
- The textual replacement of `$Counter` in the converter, MathML output, register configurations and the topology.
- gputop_time_to_oa_exponent: a search over a table, which would only add an easy member.
- CPU statistics, sockets, websockets, libuv, protocol buffers, sysfs and all drawing.
