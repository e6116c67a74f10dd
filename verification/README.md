# A model of ndash's buffering core

ndash plays DASH presentations. Between the manifest and the decoder it buffers: a chunk source
decides which segment comes next, a chunk sample source loads chunks and feeds their samples to a
queue, a load control decides whose turn it is to load, and the player takes frames out piece by
piece. This project models that core in Dafny and proves what its parts rely on and promise.

The model follows the form of the code. State that the code updates in place is a class whose methods
keep the loops, the fields and the order of updates of the original; each method is proved to take the
step that a specification function describes, and the properties are proved about those functions,
most of them over every run of arbitrary length. What the code cannot control (the network, the clock,
the format evaluator, the decryption module, the bytes an extractor commits) is part of the event or
the call, so that a theorem holds whatever they answer.

| files | what they model |
|---|---|
| `Samples`, `SampleQueue`, `InfoQueue` | the ring buffer of sample metadata, as a sequence with an absolute base index and as nine parallel arrays |
| `TrackOutput` | the track output on top of it, which starts delivery at keyframes |
| `ChunkBuffer`, `BufferedSource`, `SourceSafety`, `ChunkStore`, `ChunkSampleSource` | the chunk deque and the chunk sample source: buffer laws, state machine, invariant, and the classes, which own a track output and its ring buffer |
| `SourceUpdates`, `SourceReads`, `Runs` | what an update of the source does, and what a reader gets from it over whole runs |
| `LoadScheduling`, `LoadControl`, `Watermarks`, `LoadBalance` | the load control: specification, class, what it does by the reports alone, and what it is for |
| `BufferingSystem`, `SourceBalance` | any number of sources sharing one load control, and how far apart they get |
| `SegmentIndex`, `RepresentationHolder`, `WindowRuns` | segment lookups, a refresh of one representation, and its numbers over any run of refreshes |
| `DashPeriods`, `PeriodTable`, `LiveNumbers`, `LiveTimelines`, `LiveRanges` | periods, seeks, the table of held periods, and over live runs what a queued chunk's key and number mean and where positions are found |
| `ChunkSchedule`, `ChunkPlayback`, `PlaybackSessions`, `QueueCuts`, `DashChunkSource` | which chunk comes next: the operation, whole playbacks, sessions with seeks, cuts of the queue, the class |
| `DrmSessions`, `DrmOutcomes`, `DrmSessionManager` | the licence protocol as a step machine over all interleavings, what becomes of a request by the events alone, and the class that takes those steps |
| `FormatSelection`, `FormatHandover` | adaptive and demo format choice against a declarative optimum, and when the choice can be used |
| `FrameReading`, `FrameChoice`, `FrameReader` | frames handed out in fragments, and which ones |

## Where the code does not do what it is meant to do

The model follows the code. In these places the property one would expect is false. The first member
named states exactly when it holds, the others show an input for which it does not.

- Discarding no samples reports zero bytes while nothing has been read yet (`SampleQueue.EmptyDiscardExactIff`, `SampleQueue.EmptyDiscardForgetsBytes`).
- Offsets are narrowed to 32 bits when a sample is peeked (`InfoQueues.NarrowToInt32`, `InfoQueues.PeekCanMisplace`).
- Registering a loader twice counts its contribution twice (`LoadScheduling.RegisterKeepsTotalIff`, `LoadScheduling.RegisteringTwiceCountsTwice`).
- Restarting from the sentinel position makes the source look at the last chunk of an empty deque (`SourceSafety.SentinelPositionIsDead`).
- A refresh whose window reaches back before the previous one renumbers segments (`RepresentationHolders.RefreshKeepsNumbersIff`, `RepresentationHolders.ReachingBackRenumbers`), and a window that ends earlier lets a later one do so (`WindowRuns.AllAgreeIffOneTimeline`, `WindowRuns.ShrinkingRenumbers`, `WindowRuns.WindowsCanDiverge`).
- A source whose retry is due starts a load whatever the load control answered (`BufferingSystem.StartsAtLeastPositionIffGranted`, `BufferingSystem.RetryNeedsNoGrant`).
- A chunk index with equal start times does not give the last chunk at or before a time (`SegmentIndexes.ChunkIndexIsLastIff`, `SegmentIndexes.ChunkIndexCanMissLast`).
- A seek into a period whose segments have equal duration can go past the period's last segment, because the end of the media is passed where the period's duration is expected (`DashPeriods.AdjustedSeekIsSoundIff`, `DashPeriods.SeekCanGoPast`, `DashPeriods.PastSeekCanMoveAgain`).
- A manifest that begins before the held periods is taken over without matching them up (`PeriodTables.ProcessMatchesIff`, `PeriodTables.EarlierManifestIsMismatched`).
- A held period that never had the track makes every refresh fail while it is the first or the last one (`PeriodTables.CompletesIff`, `PeriodTables.TracklessPeriodCannotBeRefreshed`).
- A format kept from the previous period need not exist in the next one, where it is used without a check (`FormatHandover.AdaptiveAskIsDefinedIff`, `FormatHandover.KeptFormatCanBeMissing`). The same goes for a seek between an initialization and its first media chunk, when the evaluator is not asked at all (`PlaybackSessions.SeekAnswersIff`, `PlaybackSessions.SessionAnswersIff`, `PlaybackSessions.RememberedFormatCanBeMissing`).
- When the evaluator cuts the queue, the chunk handed out with the cut is the one after the whole queue, so that the segments cut are passed over if it is a media chunk (`QueueCuts.CutPassesOverIff`, `QueueCuts.CutKeepsInvIff`, `QueueCuts.CutCanLoseSegment`).
- A refused licence does not drop the frame, as the comment beside it says; the next call hands it out (`FrameReading.PlayIsSoundIff`, `FrameReading.RefusedFrameIsHandedOut`).

Three readings of the intent were chosen. Moving to the next period tests for the end before it looks at
the period (the code looks first, `ndash/src/dash/dash_chunk_source.cc:974-986`). The budget for choosing
a format is the raw bandwidth estimate, as the code passes it
(`ndash/src/chunk/adaptive_evaluator.cc:98-99`). A session id that is empty counts as no session, as it
does in the code (`ndash/src/drm/drm_session_manager.cc:77-82`).

## What is assumed of the surroundings

- A load that was canceled, and no other, reports that it was canceled, and counts as loading until then.
- The first sample of every media chunk is a keyframe, and commits carry non-negative offsets.
- A chunk source that is shown a non-empty queue keeps at least one chunk of it; `FormatSelection.Evaluate` shows that the adaptive evaluator does.
- Explicit segment indexes are contiguous windows with strictly increasing start times.
- The decryption module answers every call; the manager outlives its callers.

## Model

| member | source | states |
|---|---|---|
| `SampleQueue.SkipTargetIsLastReachableKeyframe` | ndash/src/extractor/info_queue.cc:125-175 | a keyframe skip succeeds exactly when the time lies between the first and last queued times and some keyframe is reached without passing a later sample; it lands on the last such keyframe, the last one at or before the time overall if times are sorted |
| `SampleQueue.ApplyKeepsLayout` | ndash/src/extractor/info_queue.cc:57-77 | every operation keeps queued samples byte-contiguous, and the position it returns is the byte boundary of what is left |
| `SampleQueue.ByteBoundariesAreExact` | ndash/src/extractor/info_queue.cc:112-123 | over every run with back-to-back commits, all positions returned by moves, successful skips and non-empty discards are exact boundaries |
| `SampleQueue.EmptyDiscardExactIff` | ndash/src/extractor/info_queue.cc:62-70 | discarding nothing from a non-empty queue reports the right position if and only if something has been read before or the bytes end at zero |
| `SampleQueue.EmptyDiscardForgetsBytes` | ndash/src/extractor/info_queue.cc:62-67 | a concrete queue for which it reports zero |
| `InfoQueues.NarrowToInt32` | ndash/src/extractor/info_queue.cc:330-332 | the narrowed offset is congruent modulo 2^32, and equal exactly when it fits |
| `InfoQueues.PeekCanMisplace` | ndash/src/extractor/info_queue.cc:330-332 | a sample at offset 2^31 is peeked at -2^31, and so is one 2^32 bytes later |
| `InfoQueues.CopyRange` | ndash/src/extractor/info_queue.cc:297-315 | copies one range of one array and leaves the rest |
| `InfoQueues.Unrolled` | ndash/src/extractor/info_queue.cc:232-268 | a wrapped array is laid out in order from slot zero of a longer one |
| `InfoQueues.RingUnroll` | ndash/src/extractor/info_queue.cc:216-282 | unrolling a full ring keeps its contents |
| `InfoQueues.RingWrite` | ndash/src/extractor/info_queue.cc:187-215 | writing the slot after the last one appends to the contents |
| `InfoQueues.RingDrop` | ndash/src/extractor/info_queue.cc:112-123 | advancing the read slot, with wrap-around, drops from the front of the contents |
| `InfoQueues.RingTake` | ndash/src/extractor/info_queue.cc:72-76 | a shorter size keeps a prefix of the contents |
| `InfoQueues.InfoQueue.constructor` | ndash/src/extractor/info_queue.cc:22-40 | a new queue is the empty sequence at index zero |
| `InfoQueues.InfoQueue.Clear` | ndash/src/extractor/info_queue.cc:44-50 | the queue becomes the empty sequence at index zero |
| `InfoQueues.InfoQueue.GetReadIndex` | ndash/src/extractor/info_queue.cc:79-82 | the absolute index of the head |
| `InfoQueues.InfoQueue.GetWriteIndex` | ndash/src/extractor/info_queue.cc:52-55 | the absolute index after the tail |
| `InfoQueues.InfoQueue.DiscardUpstreamSamples` | ndash/src/extractor/info_queue.cc:57-77 | truncates the sequence at an absolute index in range, and the position it returns |
| `InfoQueues.InfoQueue.PeekSample` | ndash/src/extractor/info_queue.cc:84-110 | every field of the head, with extras only if encrypted; none if empty |
| `InfoQueues.InfoQueue.MoveToNextSample` | ndash/src/extractor/info_queue.cc:112-123 | drops the head, and returns the first byte still needed |
| `InfoQueues.InfoQueue.FindKeyframe` | ndash/src/extractor/info_queue.cc:146-162 | the circular search finds the specified target |
| `InfoQueues.InfoQueue.SkipToKeyframeBefore` | ndash/src/extractor/info_queue.cc:125-175 | drops up to the target and returns its offset, or changes nothing and returns -1 |
| `InfoQueues.InfoQueue.CommitSample` | ndash/src/extractor/info_queue.cc:177-290 | appends the sample with all nine fields, growing if the ring is full |
| `InfoQueues.InfoQueue.Grow` | ndash/src/extractor/info_queue.cc:216-282 | growth of a wrapped ring preserves every queued sample |
| `TrackOutputs.SettleIsIdempotent` | ndash/src/extractor/default_track_output.cc:189-205 | skipping to an eligible sample twice is skipping once |
| `TrackOutputs.ApplyKeepsInv` | ndash/src/extractor/default_track_output.cc:76-109 | every operation keeps the queue the tail of what was committed and the next delivery decodable |
| `TrackOutputs.DeliveryIsDecodable` | ndash/src/extractor/default_track_output.cc:38-109 | in every run each sample delivered is a keyframe or the direct successor, in commit order, of the one before; deliveries never go back |
| `TrackOutputs.ReadsGoOn` | ndash/src/extractor/default_track_output.cc:80-94 | while samples are queued after one was delivered, the next read delivers the sample committed right after it |
| `TrackOutputs.TrackOutput.AdvanceToEligibleSample` | ndash/src/extractor/default_track_output.cc:189-205 | drops exactly the leading samples that need a keyframe first, and says whether one is left |
| `TrackOutputs.TrackOutput.IsEmpty` | ndash/src/extractor/default_track_output.cc:76-78 | the emptiness test and the skipping it does |
| `TrackOutputs.TrackOutput.GetSample` | ndash/src/extractor/default_track_output.cc:80-94 | delivers the head of the settled queue and clears the keyframe requirement, or delivers nothing |
| `TrackOutputs.TrackOutput.DiscardUntil` | ndash/src/extractor/default_track_output.cc:96-105 | drops exactly the leading samples before a time; any drop requires a keyframe next |
| `TrackOutputs.TrackOutput.SkipToKeyframeBefore` | ndash/src/extractor/default_track_output.cc:107-109 | the queue's skip, and success as the caller sees it |
| `TrackOutputs.TrackOutput.Clear` | ndash/src/extractor/default_track_output.cc:38-44 | the track is empty and requires a keyframe |
| `TrackOutputs.TrackOutput.DiscardUpstreamSamples` | ndash/src/extractor/default_track_output.cc:50-56 | truncates the queue |
| `TrackOutputs.TrackOutput.WriteSampleMetadata` | ndash/src/extractor/default_track_output.cc:169-185 | appends one sample, whose position is the write position less its size and offset |
| `ChunkBuffers.SettledKeepsInv` | ndash/src/chunk/chunk_sample_source.cc:190-199 | skipping undeliverable samples never passes the start of the second chunk |
| `ChunkBuffers.PopPassedKeepsInv` | ndash/src/chunk/chunk_sample_source.cc:194-199 | dropping passed chunks keeps chunk starts ordered, samples attributed and at least one chunk, and leaves the read index before the second chunk's start |
| `ChunkBuffers.HeadIsFromFirstChunk` | ndash/src/chunk/chunk_sample_source.cc:190-199 | the head sample then came from the first chunk |
| `ChunkBuffers.TakenKeepsInv` | ndash/src/chunk/chunk_sample_source.cc:245-254 | taking the head keeps the buffer's laws |
| `ChunkBuffers.SkippedKeepsInv` | ndash/src/chunk/chunk_sample_source.cc:270-281 | a seek inside the queue, after dropping passed chunks, keeps them |
| `ChunkBuffers.TruncatedKeepsInv` | ndash/src/chunk/chunk_sample_source.cc:573-593 | any remembered chunk start but the first lies between read and write index, and cutting there keeps the laws |
| `ChunkBuffers.PushedKeepsInv` | ndash/src/chunk/chunk_sample_source.cc:535-547 | starting a chunk at the write index keeps them |
| `ChunkBuffers.CommittedKeepsInv` | ndash/src/extractor/info_queue.cc:177-215 | committing a sample of the last chunk keeps them |
| `SourceSafety.UpdateDefined` | ndash/src/chunk/chunk_sample_source.cc:418-463 | under the invariant all unguarded accesses of the update are defined and its discard is in range |
| `SourceSafety.UpdateKeepsInv` | ndash/src/chunk/chunk_sample_source.cc:418-463 | the update keeps the invariant and changes nothing while a load runs |
| `SourceSafety.ResumeInitKeepsInv` | ndash/src/chunk/chunk_sample_source.cc:474-491 | resuming after a failed initialization chunk keeps the invariant |
| `SourceSafety.ResumeLastKeepsInv` | ndash/src/chunk/chunk_sample_source.cc:502-525 | resuming after a failed last chunk keeps it, whether the chunk source keeps or replaces the chunk |
| `SourceSafety.ReplacedChunkIsGone` | ndash/src/chunk/chunk_sample_source.cc:502-525 | a replaced back-off chunk leaves the deque |
| `SourceSafety.RestartKeepsInv` | ndash/src/chunk/chunk_sample_source.cc:395-406 | a restart keeps the invariant, at once or by cancelling the load in flight |
| `SourceSafety.StepKeepsInv` | ndash/src/chunk/chunk_sample_source.cc:110-593 | every event of player, loading thread and loader keeps the invariant |
| `SourceSafety.ReadComesFromCurrentChunk` | ndash/src/chunk/chunk_sample_source.cc:179-257 | a sample that is read lies in, and was committed for, the chunk the read calls current |
| `SourceSafety.RunReadsFromCurrentChunk` | ndash/src/chunk/chunk_sample_source.cc:179-257 | the same for every read of every run |
| `SourceSafety.InitialInv` | ndash/src/chunk/chunk_sample_source.cc:45-79 | a new source satisfies the invariant |
| `SourceSafety.SourceStaysSafe` | ndash/src/chunk/chunk_sample_source.cc:179-593 | in every reachable state an enabled source without pending reset has a chunk, a backed-off media chunk is the last one, chunk starts are ordered, the read index does not pass the second chunk's start, and every discard index is in range |
| `SourceSafety.CallbacksRunOnce` | ndash/src/chunk/chunk_sample_source.cc:126-160 | over every run the track count is 0 or 1 and done callbacks run once each, in order, none outstanding once disabling is over |
| `SourceSafety.SentinelPositionIsDead` | ndash/src/chunk/chunk_sample_source.cc:395-406 | after a restart the load control is updated, at once or when the canceled load has ended, and the unguarded access to the last chunk is defined there if and only if the position was not the sentinel |
| `SourceUpdates.UpdateDoes` | ndash/src/chunk/chunk_sample_source.cc:418-593 | everything an update changes: when the chunk source is asked, what of its answer is held, the end of the stream, the chunks given up and the chunk queued, the pending reset, the load started and the error count |
| `SourceUpdates.UpdateReports` | ndash/src/chunk/chunk_sample_source.cc:418-471 | what is reported: busy while loading or backed off; the position of the reset, the end of the last chunk kept, or none at the end or if the chunk source had nothing |
| `SourceUpdates.DoneLeaves` | ndash/src/chunk/chunk_sample_source.cc:346-388 | a load that completed leaves nothing held, one that failed is held and counted, one that was canceled leaves nothing at all |
| `SourceReads.PositionsFollowEvents` | ndash/src/chunk/chunk_sample_source.cc:110-288 | in every run the last seek position, the downstream position and the position of a pending reset are those that the events last gave |
| `SourceReads.LifeFollowsEvents` | ndash/src/chunk/chunk_sample_source.cc:83-160 | in every run the phase is the one that the events lead to, disabling always has a task or a cancellation under way that ends it, and afterwards all callbacks asked for have run |
| `SourceReads.ReadsDeliverCommits` | ndash/src/chunk/chunk_sample_source.cc:179-257 | in every run each sample read is one that was committed, with all its fields; it is marked for decoding only if and only if it was committed so or lies before the last seek or enable position playing forward, after it playing backward; commits are read in order, none twice, and after a restart none from before it |
| `SourceReads.ReadsSkipNothing` | ndash/src/chunk/chunk_sample_source.cc:179-257 | in every run, once a sample has been read and until a seek or a disable, every read takes the first queued sample, and nothing else drops one at the front |
| `SourceReads.ReadAnswers` | ndash/src/chunk/chunk_sample_source.cc:179-257 | when a read gives nothing, a format, a sample or the end |
| `SourceReads.SamplesFollowTheirFormat` | ndash/src/chunk/chunk_sample_source.cc:217-234 | in every run a sample of a chunk with a format is read only when that format is the one given last since the source was enabled, and a format is given only when it is new |
| `SourceReads.SeekDoes` | ndash/src/chunk/chunk_sample_source.cc:259-288 | a seek to where the source is going does nothing; else a discontinuity is due, and the queue starts at the last keyframe that can be reached, or everything is given up to load from the position, at once or after the load in flight was canceled |
| `SourceReads.DiscontinuityComesFirst` | ndash/src/chunk/chunk_sample_source.cc:171-188 | in every run a discontinuity is pending exactly if a seek elsewhere has not been followed by reading it or by an enable, and until then no read gives anything |
| `ChunkSampleSources.ChunkSampleSource.DoChunkOperation` | ndash/src/chunk/chunk_sample_source.cc:561-571 | the holder keeps, drops or replaces its chunk as the chunk source answers, and the end of stream is noted |
| `ChunkSampleSources.ChunkSampleSource.DiscardUpstreamMediaChunks` | ndash/src/chunk/chunk_sample_source.cc:573-593 | keeps exactly the first chunks and cuts the sample queue where the first removed one started |
| `ChunkSampleSources.ChunkSampleSource.MaybeStartLoading` | ndash/src/chunk/chunk_sample_source.cc:528-559 | a media chunk moves to the deque at the write index and ends a pending reset |
| `ChunkSampleSources.ChunkSampleSource.ResumeFromBackOff` | ndash/src/chunk/chunk_sample_source.cc:473-526 | an initialization chunk or a last chunk is retried or replaced as the chunk source answers; a first chunk is always retried |
| `ChunkSampleSources.ChunkSampleSource.UpdateLoadControl` | ndash/src/chunk/chunk_sample_source.cc:418-463 | an idle source that is due asks the chunk source and discards what it is told to; then a backed-off one may resume, and an idle one starts exactly if granted |
| `ChunkSampleSources.ChunkSampleSource.RestartFrom` | ndash/src/chunk/chunk_sample_source.cc:395-406 | everything dropped, or a cancel requested |
| `ChunkSampleSources.ChunkSampleSource.Enable` | ndash/src/chunk/chunk_sample_source.cc:110-124 | the phase, the track count, the positions and a restart from the position; no discontinuity and no format |
| `ChunkSampleSources.ChunkSampleSource.Disable` | ndash/src/chunk/chunk_sample_source.cc:126-141 | a cancel or a posted clear, and the callback kept |
| `ChunkSampleSources.ChunkSampleSource.DisableAndClear` | ndash/src/chunk/chunk_sample_source.cc:143-160 | everything cleared and the callback run |
| `ChunkSampleSources.ChunkSampleSource.ContinueBuffering` | ndash/src/chunk/chunk_sample_source.cc:162-169 | the update, and readiness as returned |
| `ChunkStores.ChunkStore.PopPassedChunks` | ndash/src/chunk/chunk_sample_source.cc:194-199 | the pop loop removes exactly the passed chunks |
| `ChunkStores.ChunkStore.Truncate` | ndash/src/chunk/chunk_sample_source.cc:573-593 | pops chunks from the back and cuts the track output where the last one removed started |
| `ChunkStores.ChunkStore.Push` | ndash/src/chunk/chunk_sample_source.cc:541-544 | a chunk remembers the write index at which it starts |
| `ChunkStores.ChunkStore.TestForSample` | ndash/src/chunk/chunk_sample_source.cc:190-190 | the emptiness test of the track output, and the skipping it does |
| `ChunkStores.ChunkStore.TakeSample` | ndash/src/chunk/chunk_sample_source.cc:245-254 | the head sample of the track output and its index |
| `ChunkStores.ChunkStore.SkipInside` | ndash/src/chunk/chunk_sample_source.cc:270-281 | succeeds exactly when the track output has a keyframe to skip to, and then drops the chunks it passed |
| `ChunkSampleSources.ChunkSampleSource.ReadData` | ndash/src/chunk/chunk_sample_source.cc:179-257 | new state and result of a read: nothing, a format, the end, or the head sample with its decode-only mark |
| `ChunkSampleSources.ChunkSampleSource.SeekToUs` | ndash/src/chunk/chunk_sample_source.cc:259-288 | no change of data for the current position, a skip inside the queue, or a restart; defined for every position that does not restart from the sentinel |
| `ChunkSampleSources.ChunkSampleSource.LoadComplete` | ndash/src/chunk/chunk_sample_source.cc:326-388 | completion clears the chunk, an error backs off and counts, a cancel restarts from the pending position or finishes the disable |
| `LoadScheduling.LevelsFallAsBuffersFill` | ndash/src/load_control.cc:154-175 | more media ahead or more bytes in use is never more urgent, for any ordered watermarks, and a loader without a position is not urgent |
| `LoadScheduling.RecomputeSettles` | ndash/src/load_control.cc:177-218 | recomputing the control state is idempotent |
| `LoadScheduling.RegisterIsNeutral` | ndash/src/load_control.cc:78-84 | registering a new loader leaves a control that recomputing would not change |
| `LoadScheduling.RunsAgree` | ndash/src/load_control.cc:104-152 | two controls that agree, with and without change detection, agree on all answers and notifications of any run |
| `LoadScheduling.ChangeDetectionIsUnobservable` | ndash/src/load_control.cc:104-152 | from the start, detecting changes gives the same grants and notifications as always recomputing |
| `LoadScheduling.NotificationsAlternate` | ndash/src/load_control.cc:193-199 | notifications alternate over every run, starting with loading |
| `LoadScheduling.GrantIffLeast` | ndash/src/load_control.cc:104-152 | for non-negative positions a loader is granted if and only if the control is filling, space is free and no loader with a position is behind it |
| `Watermarks.FillingFollowsWatermarks` | ndash/src/load_control.cc:155-218 | after every call of every run the control fills exactly as the reports say: it does if a loader with a position leads playback by less than the low watermark; it does not if all lead by more than the high one and the buffer is over its limit; and with nothing low and not all high it goes on as it was while some loader loads or has a position. Loading is announced from then until filling has ended and no loader loads |
| `Watermarks.GrantsFollowReports` | ndash/src/load_control.cc:104-152 | in every run a report is granted if and only if the control fills, fewer bytes are in use than the sum of contributions, and no loader is behind |
| `LoadScheduling.RegisterKeepsTotalIff` | ndash/src/load_control.cc:78-84 | the target stays the sum of contributions if and only if the loader is new or contributed nothing before |
| `LoadScheduling.RegisteringTwiceCountsTwice` | ndash/src/load_control.cc:78-84 | a loader registered twice, for which the target is twice the sum |
| `LoadScheduling.UnregisterKeepsTotal` | ndash/src/load_control.cc:86-94 | leaving keeps the target equal to the sum |
| `LoadScheduling.UpdateKeepsTotal` | ndash/src/load_control.cc:104-152 | so does an update |
| `LoadControls.LoadControl.Register` | ndash/src/load_control.cc:78-84 | the new loader's state and the larger target |
| `LoadControls.LoadControl.Unregister` | ndash/src/load_control.cc:86-94 | the loader removed, the smaller target and the recomputed state |
| `LoadControls.LoadControl.Update` | ndash/src/load_control.cc:104-152 | the whole new control, recomputed only on a change, and the answer that the grant theorem is about |
| `LoadControls.LoadControl.Survey` | ndash/src/load_control.cc:178-186 | the scan finds whether any loader loads or has a position, and the highest level |
| `LoadControls.LoadControl.FindLeast` | ndash/src/load_control.cc:205-217 | the scan finds the least position |
| `LoadControls.LoadControl.UpdateControlState` | ndash/src/load_control.cc:177-218 | the control becomes the recomputed one |
| `LoadBalance.GrantedIsLast` | ndash/src/load_control.cc:149-152 | a loader that is granted is at the least true position, though other reports may be stale |
| `LoadBalance.LoadersStayTogether` | ndash/src/load_control.h:60-69 | if every loader has reported, positions start within D, loaders join within D of the others, and a loader advances by at most D only on a grant, then in every reachable state all true positions are within D |
| `BufferingSystem.StepKeepsInv` | ndash/src/chunk/chunk_sample_source.cc:110-160 | every action of any source keeps sources, registrations and control consistent |
| `BufferingSystem.StartInv` | ndash/src/load_control.cc:58-74 | new sources and a new control satisfy the invariant |
| `BufferingSystem.SystemStaysConsistent` | ndash/src/load_control.cc:78-94 | in every run a loader is registered exactly while its source is enabled or disabling, the target is the sum of registered contributions, and every source is safe |
| `BufferingSystem.StartsLoadIff` | ndash/src/chunk/chunk_sample_source.cc:448-559 | an update starts a load if and only if there is a chunk and the load was granted, or, while backed off, the retry is due and there is a chunk, whatever was granted |
| `BufferingSystem.OnlyUpdatesStart` | ndash/src/chunk/chunk_sample_source.cc:110-559 | no event starts a load except by an update of the load control |
| `BufferingSystem.StartsAtLeastPositionIffGranted` | ndash/src/chunk/chunk_sample_source.cc:448-526 | a source that starts a load does so at the least reported position, while the control is filling with space free, if and only if the load was granted; unless it was backed off it was granted, and if it was backed off its retry was due |
| `BufferingSystem.RetryNeedsNoGrant` | ndash/src/chunk/chunk_sample_source.cc:453-491 | in any consistent system with all buffer space in use, a source whose failed initialization is due to be retried starts to load a new media chunk |
| `BufferingSystem.SomeSourceAwaitsRetry` | ndash/src/chunk/chunk_sample_source.cc:453-491 | there is such a system |
| `SourceBalance.UpdateMoves` | ndash/src/chunk/chunk_sample_source.cc:418-471 | a source that is not backed off, loses no chunks and has something to load reports exactly where it will load next, and moves from there by at most one chunk, only on a grant |
| `SourceBalance.QuietStays` | ndash/src/chunk/chunk_sample_source.cc:179-288 | reads, commits, seeks inside the buffer and a disable do not move it |
| `SourceBalance.StepKeepsBalanced` | ndash/src/chunk/chunk_sample_source.cc:418-471 | every action of such sources is a step that the theorem on balanced loaders allows |
| `SourceBalance.SourcesStayTogether` | ndash/src/load_control.h:60-69 | from the start, in every run in which sources are enabled within D of each other, chunks are at most D long, no load fails and no seek leaves the buffer, the next load positions of all enabled sources are within D of each other |
| `SegmentIndexes.LowerBoundIn` | ndash/src/extractor/chunk_index.cc:53-78 | the first index whose time is not before the given one |
| `SegmentIndexes.GetChunkIndex` | ndash/src/extractor/chunk_index.cc:53-78 | a chunk that starts at or before the time, none later does; the first chunk before all |
| `SegmentIndexes.ChunkIndexIsLastIff` | ndash/src/extractor/chunk_index.cc:53-78 | it is the last such chunk if and only if the time is not the start of two chunks |
| `SegmentIndexes.ChunkIndexCanMissLast` | ndash/src/extractor/chunk_index.cc:53-78 | three start times, two of them equal, for which it is not the last |
| `SegmentIndexes.ChunkIndexIsMonotone` | ndash/src/extractor/chunk_index.cc:53-78 | later times give no earlier chunk |
| `SegmentIndexes.ChunkIndexInvertsStarts` | ndash/src/extractor/chunk_index.cc:53-78 | the start of a chunk gives that chunk |
| `SegmentIndexes.SegmentAtContains` | ndash/src/mpd/multi_segment_base.cc:69-84 | a time inside a segment gives that segment |
| `SegmentIndexes.SegmentAtClamps` | ndash/src/mpd/multi_segment_base.cc:69-84 | times outside a window give its first or last segment |
| `SegmentIndexes.FindSegment` | ndash/src/mpd/multi_segment_base.cc:69-84 | the binary search over a timeline finds the specified segment |
| `SegmentIndexes.ChunkIndexIsSegmentAt` | ndash/src/extractor/chunk_index.cc:53-78 | the stream's chunk index and the manifest's search agree |
| `RepresentationHolders.RefreshKeepsNumbersIff` | ndash/src/dash/representation_holder.cc:50-106 | a refresh succeeds if and only if there is no gap, and then keeps every number if and only if the new window does not reach back |
| `RepresentationHolders.ReachingBackRenumbers` | ndash/src/dash/representation_holder.cc:99-105 | a window that reaches back, and the segment whose number changes |
| `RepresentationHolders.NumberMeansTimelineSegment` | ndash/src/dash/representation_holder.cc:108-152 | a number that is shown has the timeline's times, starts where the one before ends, is found at every position inside it; exactly the other numbers are before the first or beyond the last |
| `WindowRuns.ConsecutiveStatesAgree` | ndash/src/dash/representation_holder.cc:84-105 | after a refresh with any window that overlaps and aligns with the one before or adjoins it, wherever it ends, every number that both states show has the same times in both |
| `WindowRuns.NumbersAreStable` | ndash/src/dash/representation_holder.cc:50-106 | windows that advance on one timeline are numbered by place on it plus one constant, in every state of a run of any length |
| `WindowRuns.AllAgreeIffOneTimeline` | ndash/src/dash/representation_holder.cc:50-106 | over any run of such windows, all pairs of states agree on the times of every number both show if and only if some timeline shows all the windows, moving forward |
| `WindowRuns.ChainHasTimeline` | ndash/src/dash/representation_holder.cc:84-105 | windows none of which ends before the one before it show one timeline |
| `WindowRuns.QueuedNumbersStayValid` | ndash/src/dash/representation_holder.cc:50-156 | so over any run of those, a number has the same times in all states that show it |
| `WindowRuns.ShrinkingRenumbers` | ndash/src/dash/representation_holder.cc:50-106 | a window that ends earlier, followed by one that divides what was dropped differently, is a run in which the states disagree |
| `WindowRuns.WindowsCanDiverge` | ndash/src/dash/representation_holder.cc:50-106 | three such windows |
| `RepresentationHolders.RepresentationHolder.UpdateRepresentation` | ndash/src/dash/representation_holder.cc:50-106 | the new holder and whether it kept up with the live window |
| `RepresentationHolders.RepresentationHolder.GiveSegmentIndex` | ndash/src/dash/representation_holder.cc:44-48 | the index in use is replaced, nothing else |
| `DashPeriods.FirstEndingAfter` | ndash/src/dash/dash_chunk_source.cc:830-841 | the first period with representations that ends after a position |
| `DashPeriods.SnapIsNearestIff` | ndash/src/dash/dash_chunk_source.cc:135-181 | a position inside a period is snapped to a nearest segment start, the lower one on a tie, if and only if it does not go past the last segment; for listed segments and for segments of equal duration |
| `DashPeriods.AdjustedSeekIsNearestIff` | ndash/src/dash/dash_chunk_source.cc:107-181 | for periods without overlap, whatever the kinds of their indexes, a seek goes to a nearest segment start of the period it falls in if and only if it does not go past that period |
| `DashPeriods.AdjustedSeekIsIdempotent` | ndash/src/dash/dash_chunk_source.cc:107-181 | adjusting the result of any seek that does not go past its period changes nothing |
| `DashPeriods.AdjustedSeekIsSoundIff` | ndash/src/dash/dash_chunk_source.cc:107-181 | nearest and idempotent together, if and only if the seek does not go past its period |
| `DashPeriods.PastSeekChangesPeriod` | ndash/src/dash/dash_chunk_source.cc:107-181 | a seek that goes past its period ends at or after the end of it, and is no longer found in it |
| `DashPeriods.SeekCanGoPast` | ndash/src/dash/dash_chunk_source.cc:135-181 | one period from 100 to 130 ms with segments of 10 ms: a seek to 128 goes to 130, where there is no period |
| `DashPeriods.PastSeekCanMoveAgain` | ndash/src/dash/dash_chunk_source.cc:135-181 | two periods for which adjusting again moves the position again |
| `PeriodTables.ProcessKeepsContiguous` | ndash/src/dash/dash_chunk_source.cc:844-915 | processing a manifest keeps the keys a contiguous range ending below the next key |
| `PeriodTables.ProcessKeepsMeaning` | ndash/src/dash/dash_chunk_source.cc:844-915 | and gives no held key to another period |
| `PeriodTables.ProcessMatchesIff` | ndash/src/dash/dash_chunk_source.cc:844-915 | a completed refresh makes the table the manifest's periods if and only if nothing is held or what is held begins no later |
| `PeriodTables.EarlierManifestIsMismatched` | ndash/src/dash/dash_chunk_source.cc:844-915 | a manifest that begins before the held period, is taken over, and leaves two periods with the same start |
| `PeriodTables.KeysStayContiguousAndUnique` | ndash/src/dash/dash_chunk_source.cc:547-561 | over every run of refreshes and disables keys are contiguous and no key is ever reused |
| `PeriodTables.TableFollowsManifests` | ndash/src/dash/dash_chunk_source.cc:844-915 | for manifests that drop at the front and append at the back, after each completed refresh of a run the i-th held period has the start of the i-th manifest period |
| `PeriodTables.UpdateIsFineIff` | ndash/src/dash/period_holder.cc:258-287 | a held period is updated if and only if it has representations, no more than the manifest lists, and those that it looks at are held by the same id and leave no gap |
| `PeriodTables.CompletesIff` | ndash/src/dash/dash_chunk_source.cc:844-915 | a refresh completes if and only if the manifest has no fewer periods than are kept, and the first and the last kept one can be updated |
| `PeriodTables.TracklessPeriodCannotBeRefreshed` | ndash/src/dash/period_holder.cc:267-284 | a held period without the track, for which the refresh fails whether or not the manifest has the track now |
| `PeriodTables.FailuresLast` | ndash/src/dash/dash_chunk_source.cc:233-242 | in every run the error is set exactly if a refresh has failed since everything was last forgotten, and until then refreshes change nothing |
| `LiveRanges.RefreshedAreAvailable` | ndash/src/dash/period_holder.cc:281-329 | after a completed refresh the first and the last kept period and all new ones are available exactly from the first to the last bound that the first representation lists, counted from the start of the period, or for the whole period if segments have equal duration |
| `LiveRanges.ShownPositionsAreFound` | ndash/src/dash/dash_chunk_source.cc:816-842 | over every run of manifests that move forward, a position inside any segment still shown is found in the period of that segment |
| `LiveRanges.RefreshedFindsSegments` | ndash/src/dash/representation_holder.cc:50-152 | after a refresh the holder finds, at every position that the new index covers, the segment that contains it, by the new index and the new duration; with equal durations the shift stays |
| `LiveNumbers.UpdateKeepsNames` | ndash/src/dash/period_holder.cc:258-287 | updating a period from a window that moved forward keeps the numbers of every representation |
| `LiveNumbers.ProcessKeepsNames` | ndash/src/dash/dash_chunk_source.cc:844-915 | a manifest that is taken over or discarded keeps the numbers of every period that stays held |
| `LiveNumbers.RunKeepsNumbers` | ndash/src/dash/dash_chunk_source.cc:547-561 | over any run of refreshes and disables, between any two tables that have not failed, every period held in both keeps its numbers |
| `LiveNumbers.QueuedChunksKeepTheirTimes` | ndash/src/dash/dash_chunk_source.cc:844-915 | over any run of manifests that move forward on given timelines, the key, the representation and the segment number that a queued chunk remembers name the same period, the same id and the same interval of time for as long as both are held |
| `LiveTimelines.QueuedChunksStayValid` | ndash/src/dash/dash_chunk_source.cc:844-915 | the same with no timeline given, over any run of manifests whose windows, representation by representation, each overlap and align with or adjoin the one before and do not end earlier |
| `ChunkSchedules.LocateIsNext` | ndash/src/dash/dash_chunk_source.cc:275-403 | the period and number located for the next chunk are those of the next expected segment, and the end is reached exactly when none remains |
| `ChunkSchedules.NextPeriodIsNextInTail` | ndash/src/dash/dash_chunk_source.cc:963-988 | moving on skips periods without representations and no others |
| `ChunkSchedules.NumberIsInRange` | ndash/src/mpd/multi_segment_base.cc:47-85 | a lookup by position stays in a bounded index |
| `ChunkSchedules.OperationHandsOut` | ndash/src/dash/dash_chunk_source.cc:405-486 | what an operation hands out: at the end nothing but that; no chunk without a format; the chunk at hand exactly if its format is in force and all of the queue is kept; else a chunk of that format and period, an initialization exactly if one is needed and not there yet |
| `ChunkSchedules.DroppedPeriodStartsOver` | ndash/src/dash/dash_chunk_source.cc:367-382 | after a chunk whose period is no longer held comes the first available segment of the first period that is |
| `ChunkPlayback.AskIsDefinedIff` | ndash/src/dash/dash_chunk_source.cc:343-438 | in every reachable state all representations that the operation dereferences exist if and only if nothing remains, no format was decided on, or the next period has the decided format |
| `ChunkPlayback.AskKeepsInv` | ndash/src/dash/dash_chunk_source.cc:260-486 | asking, whenever it is defined, gives a chunk exactly when a segment remains and a format was decided on, and the end of the stream exactly when none remains; a format that is used again after an initialization is then one of the next period |
| `ChunkPlayback.LoadKeepsInv` | ndash/src/dash/dash_chunk_source.cc:488-535 | each load, of media or initialization, leaves exactly one less to load |
| `ChunkPlayback.PlaybackFetchesExpected` | ndash/src/dash/dash_chunk_source.cc:260-486 | whatever formats are picked and however asking, loading and dropping interleave, the loaded segments are a prefix of the expected ones, and all of them when the end is announced |
| `ChunkPlayback.PlaybackIsBounded` | ndash/src/dash/dash_chunk_source.cc:260-486 | no run loads more than the expected segments and the initializations |
| `ChunkPlayback.PlaybackReachesEnd` | ndash/src/dash/dash_chunk_source.cc:260-486 | asking and loading in turn reaches the end of the stream, with everything loaded, in a bounded number of steps, whatever offered formats a policy picks |
| `ChunkPlayback.ExpectedIsAllInOrder` | ndash/src/dash/dash_chunk_source.cc:963-988 | the expected segments are exactly those from the position to the end of its period and all of the later periods that have representations, in order and each once |
| `ChunkPlayback.ExampleExpects` | ndash/src/dash/dash_chunk_source.cc:260-486 | a concrete presentation of three periods, one without the track, meets the assumptions, and its expected segments are spelled out |
| `PlaybackSessions.PickIsDefinedIff` | ndash/src/dash/dash_chunk_source.cc:405-438 | whichever format of the next period the evaluator picks, the operation is defined if and only if a format to be used again after an initialization is one that the next period has |
| `PlaybackSessions.SeekAnswersIff` | ndash/src/dash/dash_chunk_source.cc:405-486 | a seek keeps the invariant of playback from the new position; the next operation is then defined for every format on offer if and only if no format waits to be used again, nothing is left to play, or the period at the new position has it, and for no format at all otherwise |
| `PlaybackSessions.SessionFetchesExpected` | ndash/src/dash/dash_chunk_source.cc:260-486 | in every state of a session with any seeks, what was loaded since the last seek is a prefix of what is expected from there, and all of it when the end is announced |
| `PlaybackSessions.SessionAnswersIff` | ndash/src/dash/dash_chunk_source.cc:405-486 | in a whole session the next operation is defined in every state, for every format on offer, if and only if every seek carries the format to be used again |
| `PlaybackSessions.InitializationsLoadOnce` | ndash/src/dash/dash_chunk_source.cc:443-466 | however often a session seeks, every initialization loaded leaves one less to load, so that none is loaded twice |
| `PlaybackSessions.RememberedFormatCanBeMissing` | ndash/src/dash/dash_chunk_source.cc:405-438 | a new player that asks once and seeks into a period without that format: the operation is not defined whatever the evaluator would decide |
| `QueueCuts.OperationKeepsAsDecided` | ndash/src/dash/dash_chunk_source.cc:405-418 | the queue size handed out is the one that the evaluator gave if it was asked, the length of the queue if a format is used again, and untouched at the end |
| `QueueCuts.CutReachesDeque` | ndash/src/dash/dash_chunk_source.cc:405-418 | from the evaluator through the chunk source to the deque: it is cut before the first chunk after the head worth discarding, when switching up and there is one, and else kept whole |
| `QueueCuts.CutKeepsInvIff` | ndash/src/dash/dash_chunk_source.cc:405-486 | asking and cutting keeps the invariant of playback if and only if nothing is cut, or no chunk is handed out with the cut but an initialization for a format that the period of the first segment cut has |
| `QueueCuts.CutPassesOverIff` | ndash/src/dash/dash_chunk_source.cc:405-486 | a media chunk handed out is loaded in step with what is expected if and only if the evaluator gave up nothing; else all segments cut come before it |
| `QueueCuts.HarmlessCutsFetchExpected` | ndash/src/dash/dash_chunk_source.cc:260-486 | in every run without such cuts, what is loaded is at all times a prefix of what is expected, and all of it at the end |
| `QueueCuts.SecondIsGivenUp` | ndash/src/chunk/adaptive_evaluator.cc:106-131 | a queue of two chunks of which the evaluator gives up the second |
| `QueueCuts.CutCanLoseSegment` | ndash/src/dash/dash_chunk_source.cc:405-486 | a presentation and a player for which that cut makes the second segment be passed over |
| `DashChunkSources.DashChunkSource.ProcessManifest` | ndash/src/dash/dash_chunk_source.cc:844-915 | the map of holders, read in key order, becomes the table that the theorems on period tables and live numbers are about, with the same outcome |
| `DashChunkSources.DashChunkSource.DropOldPeriods` | ndash/src/dash/dash_chunk_source.cc:848-853 | erases exactly the leading periods that start before the manifest |
| `DashChunkSources.UpdateHolder` | ndash/src/dash/period_holder.cc:258-329 | every representation is refreshed in turn until one falls behind; the available range is computed from the index that the manifest lists first |
| `DashChunkSources.DashChunkSource.UpdatePeriods` | ndash/src/dash/dash_chunk_source.cc:866-891 | only the first and the last period are updated, the last one only if the first did not fall behind |
| `DashChunkSources.DashChunkSource.AddPeriods` | ndash/src/dash/dash_chunk_source.cc:893-905 | appends the manifest's remaining periods under consecutive keys |
| `DashChunkSources.DashChunkSource.Disable` | ndash/src/dash/dash_chunk_source.cc:547-561 | forgets holders, format and error, not the next key |
| `DashChunkSources.DashChunkSource.FindPeriodHolder` | ndash/src/dash/dash_chunk_source.cc:816-842 | the first period if the position precedes it and it has representations, else the first period with representations that ends after the position, else none |
| `DashChunkSources.DashChunkSource.GetAdjustedSeek` | ndash/src/dash/dash_chunk_source.cc:107-181 | the position that the theorems on nearest and idempotent seeks are about, and the target itself where no period, start or index applies |
| `DashChunkSources.DashChunkSource.MoveToNextPeriod` | ndash/src/dash/dash_chunk_source.cc:963-988 | the scan finds the next period with representations, or none |
| `DashChunkSources.DashChunkSource.LocateNext` | ndash/src/dash/dash_chunk_source.cc:275-403 | the period of the next chunk and whether it starts it: after the last segment the next period with representations, after a dropped period the first one, and nothing exactly at the end; not defined exactly if the last chunk's period does not know its format |
| `DashChunkSources.DashChunkSource.GetChunkOperation` | ndash/src/dash/dash_chunk_source.cc:260-486 | the operation handed out: the end with no chunk, an initialization before its media, the chunk at hand if nothing changed, else the next segment; no chunk after a fatal error; no operation at all exactly where the code would use a representation that it did not find |
| `DashChunkSources.DashChunkSource.OnChunkLoadCompleted` | ndash/src/dash/dash_chunk_source.cc:488-510 | a format is given only to a period still held |
| `DrmSessions.StepKeepsInv` | ndash/src/drm/drm_session_manager.cc:53-188 | every atomic step of request, worker, join and teardown keeps the protocol's invariant |
| `DrmSessions.StepConserves` | ndash/src/drm/drm_session_manager.cc:35-51 | every session opened is closed, with the worker, or held |
| `DrmSessions.OneFetchPerRequest` | ndash/src/drm/drm_session_manager.cc:53-103 | in every interleaving each PSSH opens at most one session and fetches at most one licence |
| `DrmOutcomes.RequestsAreServed` | ndash/src/drm/drm_session_manager.cc:53-103 | in every run a PSSH has a context if and only if the manager is configured and it was requested; once the worker has no work left each was opened exactly once, and fetched exactly once if it could be opened; nothing else ever was |
| `DrmOutcomes.JoinTellsAnswers` | ndash/src/drm/drm_session_manager.cc:105-188 | in every run requests are served in the order they were first made, and a join that returned said yes if and only if the answers to its request were a session with an id and a licence |
| `DrmOutcomes.OpenedAreAnswered` | ndash/src/drm/drm_session_manager.cc:147-188 | the sessions opened are those that the decryption module gave |
| `DrmOutcomes.JoinIsPossibleIff` | ndash/src/drm/drm_session_manager.cc:105-125 | a caller can join a request if and only if the manager is configured and the request was made |
| `DrmOutcomes.JoinsFollowEvents` | ndash/src/drm/drm_session_manager.cc:105-145 | in every run a caller has a join exactly if it entered one, for the request it gave, and has its verdict once it was woken |
| `DrmSessions.JoinTellsOutcome` | ndash/src/drm/drm_session_manager.cc:105-145 | a join that returned said true exactly when open and fetch succeeded with a non-empty id; all joins on a PSSH agree |
| `DrmSessions.VerdictIsFinal` | ndash/src/drm/drm_session_manager.cc:147-188 | no step changes a decided request |
| `DrmSessions.VerdictNeverChanges` | ndash/src/drm/drm_session_manager.cc:147-188 | nor does any run |
| `DrmSessions.EverySessionIsClosed` | ndash/src/drm/drm_session_manager.cc:35-51 | after teardown every non-empty session id has been closed as often as it was opened |
| `DrmSessions.WaitersAreServed` | ndash/src/drm/drm_session_manager.cc:127-130 | while a join waits, it can wake or the worker can step |
| `DrmSessions.WorkShrinks` | ndash/src/drm/drm_session_manager.cc:147-188 | every worker step leaves less to do, and only requests add work |
| `DrmSessions.WaiterCanWakeWithinWorkLeft` | ndash/src/drm/drm_session_manager.cc:127-130 | in any run without new requests the worker takes at most the steps it had left, and whoever still waits when it is done can wake |
| `DrmSessionManagers.DrmSessionManager.Request` | ndash/src/drm/drm_session_manager.cc:53-103 | one protocol step: nothing unless configured and new, else a fresh context and one posted task |
| `DrmSessionManagers.DrmSessionManager.Run` | ndash/src/drm/drm_session_manager.cc:147-188 | a worker run is open, fetch, close on failure, and publish |
| `DrmSessionManagers.DrmSessionManager.EnterJoin` | ndash/src/drm/drm_session_manager.cc:105-125 | true at once exactly when the context already has a session, else the caller waits |
| `DrmSessionManagers.DrmSessionManager.FinishJoin` | ndash/src/drm/drm_session_manager.cc:132-145 | after the signal, true exactly when the context has a session; the verdict that the protocol records |
| `DrmSessionManagers.DrmSessionManager.CloseAll` | ndash/src/drm/drm_session_manager.cc:35-51 | the destructor's loop is a run of the protocol that leaves nothing unclosed, and what it closed |
| `FormatSelection.IdealIsUnique` | ndash/src/chunk/adaptive_evaluator.cc:171-266 | the optimum is unique in rate and bitrate |
| `FormatSelection.FilterByRate` | ndash/src/chunk/adaptive_evaluator.cc:187-233 | the one-pass filter keeps exactly the formats of the best playout rate: the least at or above the playback rate, else the greatest |
| `FormatSelection.DetermineIdealFormat` | ndash/src/chunk/adaptive_evaluator.cc:171-266 | the result has the best rate and then the highest bitrate within the budget, else the lowest |
| `FormatSelection.Evaluate` | ndash/src/chunk/adaptive_evaluator.cc:82-163 | the optimum, or the current format while the buffer justifies waiting; the queue is cut only when switching up, at the first chunk worth it, and never to nothing |
| `FormatSelection.WaitsByLastEnd` | ndash/src/chunk/adaptive_evaluator.cc:91-140 | the evaluator stays with another format if and only if the end of the last chunk is less than one threshold ahead when going up, or at least another when going down |
| `FormatSelection.CutIsJustified` | ndash/src/chunk/adaptive_evaluator.cc:106-131 | the first chunk given up starts after the duration to retain and is of lower bitrate and height than the new format and below high definition; no chunk kept after the head is; and the duration to retain stays buffered |
| `FormatSelection.CutNeedsBuffer` | ndash/src/chunk/adaptive_evaluator.cc:100-131 | the queue is cut if and only if the bitrate goes up, enough is buffered for that and to retain, and a chunk after the head is worth it; never to nothing |
| `FormatSelection.ChoiceIsStable` | ndash/src/chunk/adaptive_evaluator.cc:100-144 | evaluating again with nothing changed chooses the same format |
| `FormatHandover.AdaptiveFormatOkIff` | ndash/src/dash/dash_chunk_source.cc:405-438 | the holder of the format decided on is there to be used if and only if the chunk at hand is kept, or the period has the current format, or the current format is not stayed with: neither used again after an initialization nor waited with by the evaluator |
| `FormatHandover.AdaptiveAskIsDefinedIff` | ndash/src/dash/dash_chunk_source.cc:405-438 | in every reachable state of playback with the adaptive evaluator, also between an initialization and its media, the next operation is defined if and only if nothing remains, the current format is not stayed with, or the next period has it |
| `FormatHandover.KeptFormatCanBeMissing` | ndash/src/dash/dash_chunk_source.cc:405-438 | a state that satisfies the invariant of playback, at the boundary of two periods without a common format, in which the evaluator waits and the operation is not defined |
| `FormatSelection.ChoiceIsMonotone` | ndash/src/chunk/adaptive_evaluator.cc:100-144 | more buffer never lowers the bitrate chosen |
| `FormatSelection.WorseIsTransitive` | ndash/src/chunk/demo_evaluator.cc:38-55 | the comparator is transitive |
| `FormatSelection.MaxElement` | ndash/src/chunk/demo_evaluator.cc:80-95 | no format is greater than the result |
| `FormatSelection.SelectFormat` | ndash/src/chunk/demo_evaluator.cc:63-96 | the best rate, then the highest bitrate, then the least id; nothing only for no formats |
| `FormatSelection.EvaluatorsAgreeIff` | ndash/src/chunk/demo_evaluator.cc:63-96 | both evaluators choose the same rate, and the same bitrate if and only if the demo choice is within the budget or there is only one bitrate |
| `FrameReading.NextTrackIsDue` | ndash/src/dash_thread.cc:926-1031 | a track is chosen exactly when one is eligible, and it is the first with the best time |
| `FrameReading.FillAccepts` | ndash/src/dash_thread.cc:822-924 | filling a track reads up to its next accepted frame, accepting nothing else |
| `FrameChoices.FillTakes` | ndash/src/dash_thread.cc:845-918 | which reads a filling takes: up to the first that is neither a format, a failure, an empty sample nor an unwanted keyframe, at most so many of the first three; what it then holds, and when it is at the end or has a new format. Unwanted are frames for decoding only, except video at normal rate |
| `FrameChoices.FillsTracks` | ndash/src/dash_thread.cc:822-924 | every active track without a frame is filled with five attempts, and no other |
| `FrameChoices.DueGoesFirst` | ndash/src/dash_thread.cc:926-1000 | the track chosen has the earliest frame playing forward, the latest playing backward, the first among equals, of those that may go: captions only once the media time is known, and none too far ahead of it |
| `FrameChoices.BeginsFrameThatGoesFirst` | ndash/src/dash_thread.cc:1110-1184 | a call between frames ends exactly if every track is at its end or inactive, begins the frame that goes first exactly if one may go, and asks for a licence exactly if that is encrypted and the format is new |
| `FrameChoices.MediaTimeTrackIs` | ndash/src/dash_thread.cc:943-958 | the media time follows the last audio track with a frame, else the first video track with one |
| `FrameReading.DrainKeepsInv` | ndash/src/dash_thread.cc:1145-1177 | each fragment keeps player and reader in step |
| `FrameReading.CallKeepsInvIff` | ndash/src/dash_thread.cc:1110-1184 | each call, with any room and any licence, keeps player and reader in step and every track's frames accounted for if and only if it does not refuse a frame; a refusal keeps the account and leaves the reader with the frame |
| `FrameReading.PlayIsSoundIff` | ndash/src/dash_thread.cc:1110-1184 | over any sequence of calls, with any room and any licences, first and last flags enclose exactly one accepted frame each if and only if no call comes after one that refused a frame; until then, per track, delivered and held frames are the accepted ones, in order, none twice |
| `FrameReading.PlayDeliversAccepted` | ndash/src/dash_thread.cc:1110-1184 | with every licence there, player and reader stay in step over any sequence of calls |
| `FrameReading.RefusesIff` | ndash/src/dash_thread.cc:1131-1139 | a call refuses a frame exactly when the due frame is encrypted, its licence has to be checked, and it is not there |
| `FrameReading.StartIsInv` | ndash/src/dash_thread.cc:95-105 | a new reader and a new player are in step |
| `FrameReading.EndDeliversEverything` | ndash/src/dash_thread.cc:1120-1129 | when playback ends every accepted frame of every active track has been delivered |
| `FrameReading.NoRoomConsumesNothing` | ndash/src/dash_thread.cc:1147-1154 | a call without room copies and consumes nothing: in the middle of a frame it changes nothing, and where a frame is due it begins it, so that the first flag goes out without a byte |
| `FrameReading.RefusedFrameIsHandedOut` | ndash/src/dash_thread.cc:1136-1139 | the failing case of the theorem above: after a refused licence the next call hands out the frame, without the first flag |
| `FrameReaders.FrameReader.ReadSample` | ndash/src/dash_thread.cc:845-918 | at most five attempts that count, thrown-away frames not among them, end with the track the filling theorems are about |
| `FrameReaders.FrameReader.FillTrackSampleHolders` | ndash/src/dash_thread.cc:822-924 | fills every track, and false exactly when all have ended or are inactive |
| `FrameReaders.FrameReader.GetNextSampleTrack` | ndash/src/dash_thread.cc:926-1031 | the scan chooses the track that is due, and the reader's position moves to its time only if it is the media time track: the last audio track with a frame, else the first video track |
| `FrameReaders.FrameReader.CopyFrame` | ndash/src/dash_thread.cc:1110-1184 | a call is exactly the step that the delivery theorems are about, on every path: not buffering, ended, nothing due, refused, fragment |
| `FrameReaders.FrameReader.DrainFrame` | ndash/src/dash_thread.cc:1145-1177 | copies what fits, and lets go of the frame once it is all copied |

## Left out

- The network, curl, MPD parsing, MP4 and rawcc extraction, loader threads and the allocator: load outcomes, commits and bytes in use are events and parameters.
- The bytes of samples in the rolling sample buffer: only the byte positions that the metadata queue returns are modelled.
- Splicing of track outputs, the last read time, and the largest parsed timestamp, which is known to be wrong after an upstream discard.
- Release of a source, event listeners and load notifications, downstream format notifications, logging and quality reports.
- Integer widths, except the narrowing of offsets; times are unbounded integers and the buffer load is an exact quotient.
- InfoQueues.InfoQueue.DiscardUpstreamSamples: what an empty discard from an empty queue returns is the end of whatever the slot before the write slot holds, and nothing is claimed about it.
- TrackOutputs.TrackOutput.AdvanceToEligibleSample: the splice time is left out; nothing in the player ever sets it.
- TrackOutputs.TrackOutput.DiscardUpstreamSamples: the largest parsed timestamp is left out.
- ChunkSampleSources.ChunkSampleSource.ReadData: the notification of a new downstream format is left out.
- SourceSafety.StepKeepsInv: an enable or a seek that restarts from the sentinel position is excluded; `SentinelPositionIsDead` says what it does.
- BufferingSystem.SystemStaysConsistent: sources are named by loader, and a chunk is identified by a number instead of its address.
- SourceBalance.SourcesStayTogether: sources that are backed off, discard chunks, restart elsewhere or find nothing to load are excluded; the load control does not hold those back, or does not wait for them.
- BufferingSystem.StartsAtLeastPositionIffGranted: positions are not negative, since -1 stands for having none.
- DashPeriods.AdjustedSeekIsNearestIff: a period with equal-duration segments starts at zero or later; segment durations are whole microseconds, so rounding by the timescale is not modelled.
- DashChunkSources.DashChunkSource.GetAdjustedSeek: an index without an end is not modelled; the search for the period expects every period to have one.
- DashChunkSources.DashChunkSource.MoveToNextPeriod: tests for the end before it looks at the period.
- DashChunkSources.DashChunkSource.LocateNext: live edges and reverse play are not modelled.
- DashChunkSources.DashChunkSource.OnChunkLoadCompleted: a segment index or initialization data found in the stream is not modelled.
- ChunkPlayback.PlaybackFetchesExpected: static manifests, forward at normal rate, known indexes, no cuts of the queue, which `QueueCuts` adds, representations of a period numbered alike, and every loaded initialization brings a format; live edges, reverse play and unbounded indexes are not modelled; which representations know their media format is a set of keys and ids.
- PeriodTables.ProcessKeepsContiguous: adaptation set selection is not modelled; a period lists the representations of the set selected; the end of an index without one is left as it was.
- PeriodTables.CompletesIff: a manifest lists no id twice in one period.
- LiveNumbers.QueuedChunksKeepTheirTimes: for listed segments; with equal durations a number's start follows from the number alone, and the end of the last one from the period's.
- DrmSessions.JoinTellsOutcome: a join without an earlier request, which the code only checks in debug builds, is not modelled.
- FrameReading.PlayIsSoundIff: seeks and rate changes, which drop held frames, delimit the runs.
- FrameReaders.FrameReader.GetNextSampleTrack: how far ahead frames may go is a parameter, so its product with the playback rate is not rounded.
- FormatSelection.Evaluate: the effective bitrate, which the code never asks for, is not modelled.
- The sdl player, stream generator, C API, media formats, crypto info, track criteria and initialization data containers, which hold data and have only easy properties.
