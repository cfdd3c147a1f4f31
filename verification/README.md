# BreezeDesk in Dafny

BreezeDesk turns hours of audio into a transcript: it normalises the audio, cuts it into chunks that can be
resumed, has a separate worker process transcribe each chunk, and stitches the results together. This project
models the parts of it whose correctness is hardest to see from one function, and proves what they promise.

- **Chunk plans.** `StreamingVadSegmenter` turns speech probabilities into regions, `LongFormChunkPlanner` turns
  regions into overlapping chunks, and `ChunkPlan` holds the two validators of a plan. `ChunkPipeline` (desktop),
  `CliTranscription` (command line) and `Jobs` (the repository they share) follow a job through planning,
  transcription, crashes, lost leases and resumption, and `JobRuns` through runs of any number of both processes, up
  to the claim that a completed job leaves no millisecond untranscribed.
- **Terminal checkpoints.** `WorkerProcessManager` and `TerminalCheckpoint` are the protocol that keeps a job from
  being failed, cancelled, interrupted or handed off while the worker may still be running its request.
- **Overlap stitching.** `OverlapDeduplicator` and `OverlapReconciliation`: tokenising mixed CJK and Latin text,
  finding the longest run that two neighbouring chunks share, and removing it from the segment list. `OverlapTokens`
  says what a token of a text is, by the categories of its characters alone.
- **Waveforms.** `WaveformPyramid` and `WaveformFile`: the peak pyramid, its file format and its strict reader.
- **Byte formats.** `FrameCodec` (frames on a byte stream), `RiffWave` (two WAV chunk walkers), `Checksum` and
  `StoredZip` (CRC-32 and stored ZIP archives), over the integer encodings of `Bytes`.
- **Search.** `DatabaseSearch`: escaping for LIKE and for FTS5 phrases.

`Outcomes` holds shared result shapes. Classes mirror the source's objects with mutable fields; a method is tied to
a specification function or predicate, and the lemmas are about that. Signals, timers, processes, sockets, SQLite and
the clock are an environment: their outcomes are parameters that range over everything, or separate events.

Seven promises of the source do not hold in full. Each is stated with an input or a run that breaks it and with the
condition under which it holds.

- `TerminalCheckpoint.Coordinator.InterruptRetryFires`: when the durable write of an interruption is refused, the
  one-second retry does not ask again whether a request may be running. If the job has meanwhile sent a request to
  the restarted worker (its polling timer or a finished model download continues it), the retry lets the job go under
  that request; `TerminalCheckpoint.OvertakenRetry` is such a run. It lets a job go too early if and only if a request
  was sent since the refusal and has neither been answered nor lost its process. The guard that the retries of
  failures and cancellations use would be enough.
- `TerminalCheckpoint.Coordinator.Run`: a terminal envelope for the current request that names another job, or that is
  the reply to another kind of request, ends the request in the manager and is ignored by the coordinator. An active job
  is stranded, with no request running and no timer due, if and only if that happens while it waits only for the reply
  (`TerminalCheckpoint.OnlyStraysStrand`, and the clause of `Coordinator.ReceiveEnvelope` about stray envelopes);
  `TerminalCheckpoint.StrandedJob` is such a run.
- `OverlapDeduplicator.KeptUnitsAreTheRest`: an underscore is a word character to the tokeniser and punctuation to
  the cut. The kept text has exactly the remaining units if and only if no underscore stands in the skipped run;
  `OverlapDeduplicator.UnderscoreIsLost` is an input that loses one.
- `LongFormChunkPlanner.CutsWithoutOverlapSplitNoSpeech`: with a configured hard-cut overlap of zero, a hard cut
  splits speech without overlapping (`LongFormChunkPlanner.ZeroOverlapSplitsSpeech`, for every such configuration);
  with a positive one, never.
- `StreamingVadSegmenter.Segmenter.Finish`: only the last region is clipped to the duration. The regions are the
  clipped spans if and only if the last one, before clipping, starts before the audio ends; with a padding or a minimum
  length that is if and only if no stretch of speech begins at or after the end, which is so whenever every frame
  starts before it. `StreamingVadSegmenter.RegionPastTheEnd` is an input for which they are not.
- `CliTranscription.CliTranscriptionPersistence.ResetNext`: a command-line resumption works on a copy of the chunks that
  it took before it held the lease. It keeps the completed chunks if and only if that copy shows them completed when
  the claim succeeds. In `JobRuns.CompletionIsUndone` a job of the desktop's queue is resumed from the command line,
  the desktop takes it up again first, and the resumption turns the chunk that it completed back into a pending one.
- `CliTranscription.CliTranscriptionPersistence.Complete`: the length of the audio is compared with that copy too, not
  with the plan. A completed job has the measured audio transcribed if and only if its plan reaches the measured end,
  as it does whenever it still is the plan that was copied. All that precedes every length ever measured of its audio
  is transcribed in any case (`JobRuns.Run`), and so all of it if the audio always measures the same
  (`JobRuns.RunNewJob`). But two decodings of the same bytes may differ in length: in `JobRuns.TailIsLost` a job whose
  audio measures 100, 50 and 100 ms completes with its first 50 ms transcribed.

## Model

| member | source | states |
|---|---|---|
| `DatabaseSearch.LikePatternIsSubstringSearch` | src/database/DatabaseSearchService.cpp:29-35 | For every token and column text, under LIKE with ESCAPE backslash and any character folding, the pattern matches exactly when the token occurs as a contiguous substring. |
| `DatabaseSearch.PassesEqualOneEscape` | src/database/DatabaseSearchService.cpp:31-33 | The three successive replacements equal one pass that puts a backslash before each special character: no pass escapes another's output. |
| `DatabaseSearch.MatchExpressionParses` | src/database/DatabaseSearchService.cpp:182-185 | Whatever quotes the tokens contain, the joined MATCH expression is read by FTS5 string rules as exactly those tokens in that order. |
| `FrameCodec.Encode` | src/ipc/FrameCodec.cpp:20-41 | A body becomes a frame exactly when it is neither empty nor over the limit, and a pass of any decoder over that frame yields exactly this body and leaves nothing. |
| `FrameCodec.Drain` | src/ipc/FrameCodec.cpp:45-99 | A pass that meets no error leaves fewer bytes than a prefix and a maximal message. |
| `FrameCodec.FrameDecoder.Append` | src/ipc/FrameCodec.cpp:45-99 | Envelopes, first error, buffer and fatal flag are those of one uninterrupted pass over the old buffer and the new bytes; a fatal decoder yields nothing and changes nothing. |
| `FrameCodec.SplittingIsInvisible` | src/ipc/FrameCodec.cpp:45-99 | Reading a then b gives the envelopes and error of reading a followed by b, and the same leftover bytes unless fatal. |
| `FrameCodec.AnySplitIsInvisible` | src/ipc/FrameCodec.cpp:45-99 | The same for any number of pieces. |
| `FrameCodec.LeftoverIsIdle` | src/ipc/FrameCodec.cpp:58-96 | The bytes a pass leaves behind yield nothing when read again on their own. |
| `FrameCodec.EncodedFramesDecode` | src/ipc/FrameCodec.cpp:20-99 | Decoding the concatenation of encoded envelopes yields them in order and leaves nothing, for any codec that undoes itself and any decoder limit of at least the maximum message size. |
| `FrameCodec.BadPrefixStops` | src/ipc/FrameCodec.cpp:62-74 | Behind any number of encoded envelopes, a zero prefix is an invalid length and an oversized one a frame too large: the pass delivers the envelopes before it, reports that error and reads no further. |
| `ChunkPlan.ValidateDurableChunkGeometry` | src/cli/CliTranscriptionPersistence.cpp:62-104 | Accepts exactly the non-empty gap-free plans: ordinals in order, overlaps shorter than their chunks and equal on both sides of a seam, none at either end. |
| `ChunkPlan.DecodeWorkerChunkPlan` | src/app/TranscriptionCoordinator.cpp:126-208 | Accepts exactly the well-typed plans with 1 to 4096 chunks and positive duration that the durable validator accepts and whose last end is the duration, and returns them unchanged. |
| `ChunkPlan.SentPlansAreAccepted` | src/app/TranscriptionCoordinator.cpp:150-206 | Every durable plan of at most 4096 chunks, sent field by field with its own end as the duration, is accepted and decoded as it was. |
| `ChunkPlan.AcceptedPlanCoversTheAudio` | src/app/TranscriptionCoordinator.cpp:150-206 | An accepted plan has strictly increasing starts and ends, holds every millisecond of the audio, and its lengths minus its overlaps sum to the duration. |
| `ChunkPlan.StartsAndEndsIncrease` | src/cli/CliTranscriptionPersistence.cpp:85-96 | Neighbour continuity makes starts and ends increase between any two chunks. |
| `ChunkPlan.EveryMillisecondIsPlanned` | src/cli/CliTranscriptionPersistence.cpp:85-96 | No millisecond before a chunk's end lies between chunks. |
| `ChunkPlan.LengthsMinusOverlaps` | src/cli/CliTranscriptionPersistence.cpp:85-103 | Audio is planned twice in the overlaps and nowhere else. |
| `LongFormChunkPlanner.Planner.Plan` | src/asr/LongFormChunkPlanner.cpp:13-109 | For every duration and every region list, however unsorted or nested, the plan starts at 0, ends exactly at the duration without trailing overlap, passes the durable validator, keeps chunks within the hard maximum, has at most (duration-1)/(minimum-overlap)+1 of them, ends as soon as the rest fits a preferred chunk, and makes the specified choice among the silences of the given regions at every cut before; with a positive configured overlap no chunk end before the duration without overlap lies strictly inside a given region. |
| `LongFormChunkPlanner.ClampingKeepsSpeech` | src/asr/LongFormChunkPlanner.cpp:26-34 | A millisecond of the audio is spoken in the clamped regions if and only if it is in the given ones; none are left exactly if nothing of the audio is spoken. |
| `LongFormChunkPlanner.CutAtSilences` | src/asr/LongFormChunkPlanner.cpp:54-107 | The main loop ends by reaching the end of the audio; the guard against a cursor that does not advance cannot fire. |
| `LongFormChunkPlanner.CutChunk` | src/asr/LongFormChunkPlanner.cpp:64-101 | A cut is the silence closest to the target in the preferred window, else the closest up to the hard maximum, else the hard maximum, and overlaps only in the last case. |
| `LongFormChunkPlanner.SilenceBoundaries` | src/asr/LongFormChunkPlanner.cpp:36-52 | The candidate cuts are exactly the points equally far, up to a millisecond, from both ends of a maximal stretch of the audio in which nothing is spoken, or the multiples of the target when nothing is spoken at all. |
| `LongFormChunkPlanner.NearestBoundary` | src/asr/LongFormChunkPlanner.cpp:67-92 | Finds a candidate in the window whenever there is one, and none in the window is closer to the target. |
| `LongFormChunkPlanner.BoundariesIgnoreOrder` | src/asr/LongFormChunkPlanner.cpp:33-52 | The candidates depend only on which milliseconds are spoken: not on the order of the regions, their overlaps or what they hold outside the audio. |
| `LongFormChunkPlanner.SilenceBoundariesSplitNothing` | src/asr/LongFormChunkPlanner.cpp:43-52 | No candidate cut lies strictly inside any given region. |
| `LongFormChunkPlanner.CutsWithoutOverlapSplitNoSpeech` | src/asr/LongFormChunkPlanner.cpp:80-99 | With a positive configured overlap, a cut without overlap before the end lies strictly inside no given region. |
| `LongFormChunkPlanner.ZeroOverlapSplitsSpeech` | src/asr/LongFormChunkPlanner.cpp:93-99 | With a configured overlap of zero, for every such configuration, every finished plan for long enough speech starts with a chunk that splits it without overlap. |
| `LongFormChunkPlanner.OverlapOnlyWithoutSilence` | src/asr/LongFormChunkPlanner.cpp:81-96 | An overlapping cut occurs only where no candidate lies between the minimum preferred length and the hard maximum. |
| `StreamingVadSegmenter.Segmenter.AppendProbabilities` | src/asr/StreamingVadSegmenter.cpp:10-28 | The fields describe the utterances of all probabilities appended so far: a batch has the effect of its frames one by one. |
| `StreamingVadSegmenter.Segmenter.CloseSpeech` | src/asr/StreamingVadSegmenter.cpp:47-59 | Afterwards the regions cover exactly the milliseconds they covered and those the padded utterance reaches, none if it was too short. |
| `StreamingVadSegmenter.Segmenter.Finish` | src/asr/StreamingVadSegmenter.cpp:30-38 | The result is the union of the padded utterances that last the minimum (shorter silences bridged), clipped to the audio, as non-empty, increasing, strictly separated regions, if and only if the last region before clipping starts before the audio ends: with a padding or a minimum length, if and only if no stretch that the padded utterances reach begins at or after the end, as is the case when every frame starts before it. In any case, of all probabilities appended: a stretch of frames that all reach the threshold and last the minimum within the audio is covered, a stretch below it that lasts the minimum silence is not, except for the padding, and without a probability that reaches it nothing is reported. |
| `StreamingVadSegmenter.SpeechIsKept` | src/asr/StreamingVadSegmenter.cpp:10-38 | Every stretch of frames whose probabilities all reach the threshold and that lasts the minimum within the audio is covered by the result. |
| `StreamingVadSegmenter.SilenceIsKept` | src/asr/StreamingVadSegmenter.cpp:10-38 | No stretch of frames below the threshold that lasts the minimum silence is covered, except for the padding at its ends. |
| `StreamingVadSegmenter.LastStartsBeforeIff` | src/asr/StreamingVadSegmenter.cpp:30-38 | The last region starts before the end if and only if nothing that was heard begins at or after it. |
| `StreamingVadSegmenter.RegionPastTheEnd` | src/asr/StreamingVadSegmenter.cpp:34-36 | Three frames, the first voiced, and a duration of zero: the result is not the clipped union. |
| `StreamingVadSegmenter.Segmenter.Reset` | src/asr/StreamingVadSegmenter.cpp:40-45 | Nothing has been heard. |
| `StreamingVadSegmenter.UtterancesAgree` | src/asr/StreamingVadSegmenter.cpp:10-28 | A frame sequence has one list of utterances. |
| `StreamingVadSegmenter.RegionsAgree` | src/asr/StreamingVadSegmenter.cpp:47-59 | Separated regions that cover the same milliseconds are the same list. |
| `StreamingVadSegmenter.RegionsAreDetermined` | src/asr/StreamingVadSegmenter.cpp:10-59 | The definition admits one result for the frames and the duration, so batching cannot show. |
| `OverlapDeduplicator.Units` | src/asr/OverlapDeduplicator.cpp:20-55 | The tokeniser's units, with their positions, are those of the text read symbol by symbol; `OverlapTokens.UnitsAreTokens` says what they are in the text. |
| `OverlapTokens.UnitsAreTokens` | src/asr/OverlapDeduplicator.cpp:20-55 | The units are exactly the tokens of the text, in order and without overlaps: each ideograph, and the folding of each longest stretch of letters, digits and underscores that are not ideographs, by the categories of the characters alone. |
| `OverlapTokens.TokensAgree` | src/asr/OverlapDeduplicator.cpp:20-55 | A text has one list of tokens. |
| `OverlapTokens.LetterInOneUnit` | src/asr/OverlapDeduplicator.cpp:43-51 | A letter or digit outside the ideographs lies in exactly one unit, the next one in the same, and the unit's text is the folding of its stretch. |
| `OverlapDeduplicator.UnitsAreTheirTexts` | src/asr/OverlapDeduplicator.cpp:20-55 | Positions do not influence the normalised units. |
| `OverlapDeduplicator.LongestMatch` | src/asr/OverlapDeduplicator.cpp:67-81 | The result is the greatest k for which the last k units before are the first k after. |
| `OverlapDeduplicator.Deduplicate` | src/asr/OverlapDeduplicator.cpp:59-100 | With k that greatest length: fewer than two units are kept and one is reported ambiguous; otherwise the result is the incoming text after the k-th unit and the separators behind it. |
| `OverlapTokens.SharedTokensAreRemoved` | src/asr/OverlapDeduplicator.cpp:59-100 | In terms of the tokens of the two texts: with k the longest run of tokens that ends the one and begins the other, fewer than two are kept, and otherwise the result is the incoming text after its k-th token and the separators behind it. |
| `OverlapDeduplicator.UnitsAfterTheMatch` | src/asr/OverlapDeduplicator.cpp:92-96 | Cutting the text right after its k-th unit leaves exactly the units after it. |
| `OverlapDeduplicator.KeptUnitsAreTheRest` | src/asr/OverlapDeduplicator.cpp:92-97 | The kept text is a suffix whose units are the incoming units after the k-th, if and only if the skipped run holds no underscore. |
| `OverlapDeduplicator.UnderscoreIsLost` | src/asr/OverlapDeduplicator.cpp:92-97 | After two ideographs, the incoming text of the same two and an underscore keeps nothing, although the underscore is the unit after the match. |
| `OverlapReconciliation.ChunkSegments.ReconcileOverlap` | src/app/TranscriptionCoordinator.cpp:260-301 | Ordered, disjoint, non-empty segments stay so and start at or after the end of the previous segment; segments that end by then go, the first of the rest gets the later start, and nothing else of the rest changes but its text; units are lost only where deduplication kept fewer. |
| `OverlapReconciliation.OnlyDuplicateUnitsAreRemoved` | src/app/TranscriptionCoordinator.cpp:260-301 | The concatenated units of the result are those of the input minus the k deduplicated ones, if and only if deduplication kept exactly the rest of the first text. |
| `OverlapReconciliation.UnitsAcrossASpace` | src/app/TranscriptionCoordinator.cpp:260-301 | Joining two texts with a space concatenates their units. |
| `OverlapReconciliation.TrimmingKeepsUnits` | src/app/TranscriptionCoordinator.cpp:260-301 | Trimming a text keeps its units. |
| `OverlapReconciliation.SimplifyingKeepsUnits` | src/app/TranscriptionCoordinator.cpp:260-301 | Collapsing white space keeps the units of a text. |
| `WaveformPyramid.PeakPlanFits` | src/audio/WaveformGenerator.cpp:137-159 | The loop decides whether every later level stays within the resolution, count and total limits. |
| `WaveformPyramid.PlanFitsIff` | src/audio/WaveformGenerator.cpp:137-159 | A plan fits if and only if there is a peak and the peaks of all levels together, each a quarter of the one before rounded up, stay within the limit. |
| `WaveformPyramid.OnlyTheTotalDecides` | src/audio/WaveformGenerator.cpp:146-157 | The guards on resolution and level count never fire: after k rounds at most 4 to the (12-k) peaks are left. |
| `WaveformPyramid.Aggregate` | src/audio/WaveformGenerator.cpp:113-135 | Refuses exactly the malformed or too coarse levels, and turns a level of true minima and maxima into the level four times as coarse. |
| `WaveformPyramid.BaseLevel` | src/audio/WaveformGenerator.cpp:215-266 | The 256-sample windows, the last one short, have their true minima and maxima, unless the file is truncated or generation is cancelled. |
| `WaveformPyramid.SamplesAreTheirBytes` | src/audio/WaveformGenerator.cpp:235-250 | The two bytes of a sample are its two's complement, least significant first. |
| `WaveformPyramid.Generate` | src/audio/WaveformGenerator.cpp:205-288 | Succeeds exactly for non-empty even data whose plan fits and that is read undisturbed; the later resolution, size and level guards never refuse, and the result is a pyramid of true peaks with only its last level at 2048 peaks or fewer. |
| `WaveformPyramid.LevelWidth` | src/audio/WaveformGenerator.cpp:267-285 | Level k has windows of 256 times 4 to the k samples. |
| `WaveformPyramid.PeaksAreDirect` | src/audio/WaveformGenerator.cpp:215-285 | Peak i of level k is the minimum and maximum of the samples from i times the width to the next edge or the end, for every length. |
| `WaveformFile.Write` | src/audio/WaveformGenerator.cpp:297-305 | The stream is the serialisation of the levels, level by level and peak by peak. |
| `WaveformFile.Read` | src/audio/WaveformGenerator.cpp:315-416 | Accepts a byte string exactly when it is the serialisation of storable levels, with no byte left over, and returns those levels; the check on remaining bytes never refuses a valid file. |
| `WaveformFile.ReadPeaks` | src/audio/WaveformGenerator.cpp:385-402 | The pairs read are those stored, and a minimum above its maximum is refused. |
| `WaveformFile.FilesAreUnique` | src/audio/WaveformGenerator.cpp:315-416 | No two level lists share a serialisation. |
| `WaveformFile.PyramidsAreStorable` | src/audio/WaveformGenerator.cpp:161-184 | Every pyramid within the total limit meets the reader's requirements. |
| `WaveformFile.GenerateThenRead` | src/audio/WaveformGenerator.cpp:187-416 | Reading what generation wrote returns exactly the generated levels. |
| `RiffWave.InspectPcmLayout` | src/audio/WaveformGenerator.cpp:28-111 | The layout is that of the last chunks of each kind before the walker has both, or the whole file for a raw PCM name, with no step leaving 64 bits. |
| `RiffWave.InspectedExactly` | src/audio/WaveformGenerator.cpp:28-111 | A layout is accepted if and only if the file is raw PCM of even length with that name, or its chunk list up to the chunk that completes the pair has the last format and the last data chunk that say so. |
| `RiffWave.Validate` | src/audio/NormalizedAudioValidator.cpp:49-181 | Accepts exactly the files with one chunk of each kind filling the RIFF size, the required format and a size within tolerance, with no step leaving 64 bits. |
| `RiffWave.ValidatedExactly` | src/audio/NormalizedAudioValidator.cpp:49-181 | A file is accepted if and only if its chunks fill the RIFF size to the last byte and exactly one of them is a format chunk, of the required format, and exactly one a data chunk, of an even and tolerable size. |
| `RiffWave.ReadableDurationMs` | src/audio/NormalizedAudioValidator.cpp:41-45 | The two-part computation equals dataSize times 1000 over 32000 rounded down, without overflow for any 64-bit size. |
| `RiffWave.SizeIsTolerable` | src/audio/NormalizedAudioValidator.cpp:157-162 | No product overflows for any expected duration that was let through. |
| `RiffWave.BothAreFinal` | src/audio/NormalizedAudioValidator.cpp:109-134 | Once the validator has both chunks, no later chunk changes them. |
| `RiffWave.WalkersAgree` | src/audio/WaveformGenerator.cpp:28-111 | From any common state, where the validator succeeds the other walker finds the same chunks. |
| `RiffWave.ValidatedFilesAreInspectedAlike` | src/audio/NormalizedAudioValidator.cpp:93-155 | Every accepted file is accepted by the waveform generator with the same data offset and size. |
| `RiffWave.AcceptedDurations` | src/audio/NormalizedAudioValidator.cpp:157-178 | The reported duration lies in [expected - tolerance - 1, expected + tolerance], and every chunk endpoint up to it lies within the data. |
| `RiffWave.WrittenFilesAreAccepted` | src/audio/NormalizedAudioValidator.cpp:60-180 | Every file of 16-bit mono samples at 16 kHz, written byte by byte with any chunks in front, of odd size or not, is accepted when its duration is within the tolerance, and its samples are found where they stand. |
| `Checksum.Crc32` | src/app/MaintenanceController.cpp:279-289 | The masked bit loop computes the CRC-32 of section 8 of RFC 1952, which is defined by a table lookup for each byte. |
| `Checksum.MaskIsBranch` | src/app/MaintenanceController.cpp:284-285 | The wrapping mask of a round selects the polynomial exactly when the low bit is set. |
| `Checksum.PolynomialIsTheGenerator` | src/app/MaintenanceController.cpp:285 | The constant is the generator of CRC-32, x^32 + x^26 + x^23 + x^22 + x^16 + x^12 + x^11 + x^10 + x^8 + x^7 + x^5 + x^4 + x^2 + x + 1, with the highest power in the lowest bit. |
| `Checksum.EightStepsAreALookup` | src/app/MaintenanceController.cpp:282-286 | Eight rounds of the loop are one table lookup and a shift by a byte. |
| `Checksum.CrcFits` | src/app/MaintenanceController.cpp:279-289 | The checksum fits 32 bits. |
| `StoredZip.AppendLittleEndian16` | src/app/MaintenanceController.cpp:267-270 | The shifts and masks append the two-byte little-endian encoding. |
| `StoredZip.AppendLittleEndian32` | src/app/MaintenanceController.cpp:272-277 | The shifts and masks append the four-byte little-endian encoding. |
| `StoredZip.BuildStoredZip` | src/app/MaintenanceController.cpp:298-376 | Succeeds exactly when counts, sizes and offsets fit their fields; then a reader following sections 4.3.16, 4.3.12 and 4.3.7 of PKWARE APPNOTE.TXT, which follows every central offset to its local header, compares the two and checks the CRC, recovers exactly the entries in order. |
| `StoredZip.AppendLocals` | src/app/MaintenanceController.cpp:307-330 | Refuses only what does not fit; otherwise every entry's local header and data stand at the offset stored for it. |
| `StoredZip.AppendLocal` | src/app/MaintenanceController.cpp:319-330 | The local header, name and data of the entry can be read back where the archive ended. |
| `StoredZip.AppendCentral` | src/app/MaintenanceController.cpp:339-358 | The central header of the entry can be read back, with the offset of its local header. |
| `StoredZip.AppendEnd` | src/app/MaintenanceController.cpp:367-374 | The end record can be read back with both counts, size and offset. |
| `StoredZip.CastsAreLossless` | src/app/MaintenanceController.cpp:326-328 | No narrowing cast changes the length of an entry that fits. |
| `StoredZip.ArchiveReadsBack` | src/app/MaintenanceController.cpp:298-376 | Local headers, central headers and end record that stand in a file make the reader return the entries. |
| `WorkerProcessManager.Manager.RememberTerminal` | src/app/WorkerProcessManager.cpp:84-92 | The queue keeps the latest 128 distinct terminal requests in order, and the set is exactly its contents. |
| `WorkerProcessManager.Manager.ObserveTerminal` | src/app/WorkerProcessManager.cpp:78-99 | A terminal envelope is remembered and settles a forced cancellation exactly when it is for that request. |
| `WorkerProcessManager.RunningIsUnended` | src/app/WorkerProcessManager.cpp:78-99 | A request runs exactly if it was sent and neither its terminal envelope nor the exit of the process has come since. |
| `WorkerProcessManager.SentSince` | src/app/TranscriptionCoordinator.cpp:2400-2404 | If nothing ran at some moment, a request runs now exactly if it was sent after that moment and has not ended. |
| `WorkerProcessManager.Manager.SettleForcedCancellation` | src/app/WorkerProcessManager.cpp:411-422 | Signals exactly when a cancellation was pending, and ends it. |
| `WorkerProcessManager.Manager.ForceCancelAfterGrace` | src/app/WorkerProcessManager.cpp:326-362 | Nothing is pending afterwards only if the terminal envelope of this very request was already seen; a new cancellation waits for a restart exactly when the channel is down. |
| `WorkerProcessManager.Manager.AbortImmediately` | src/app/WorkerProcessManager.cpp:310-324 | Settles only if no process is running, and leaves no usable channel. |
| `WorkerProcessManager.Manager.BecomeReady` | src/app/WorkerProcessManager.cpp:51-58 | A worker that becomes ready is running no request, so settling then is safe. |
| `WorkerProcessManager.Manager.RecoverAuthenticatedChannelFailure` | src/app/WorkerProcessManager.cpp:265-286 | A failed channel is closed for good: its generation can never become ready again. |
| `WorkerProcessManager.Manager.SendRequest` | src/ipc/AsrWorkerClient.cpp:54-67 | A request is sent exactly when the channel is ready, under a new identifier, even if the write then fails. |
| `WorkerProcessManager.Manager.Start` | src/app/WorkerProcessManager.cpp:173-240 | Whatever the disk holds at each attempt, a start succeeds exactly when a process exists, fails only when every candidate that existed at some attempt had failed, and ends; a failed start during a forced cancellation leaves the recovery timer running. While the disk does not change it succeeds exactly when a candidate that has not failed starts, or hangs while starting, and marks only candidates as failed that do not start in time; only one that starts in time gets a channel, and if none hangs it is the first such candidate of the registry. |
| `WorkerProcessManager.Manager.RecoveryTimerFires` | src/app/WorkerProcessManager.cpp:101-111 | Forced recovery clears the restart window exactly where it starts a worker again, keeps window and process everywhere else, is due again if no worker started, and keeps every invariant. |
| `WorkerProcessManager.Manager.ProcessExited` | src/app/WorkerProcessManager.cpp:364-381 | No request survives the process; a pending cancellation waits for a restart unless the manager is stopping, when it settles. |
| `WorkerProcessManager.Manager.RestartAfterExit` | src/app/WorkerProcessManager.cpp:382-400 | Allows a restart exactly when fewer than three happened within the last 60 seconds. |
| `WorkerProcessManager.Manager.OneMoreRestart` | src/app/WorkerProcessManager.cpp:385-394 | With a clock that does not run backwards, any four consecutive automatic restarts since the last forced recovery span more than 60 seconds. |
| `WorkerProcessManager.RecentOnes` | src/app/WorkerProcessManager.cpp:386-388 | Dropping from the head of the queue keeps exactly the restarts of the window. |
| `WorkerProcessManager.Manager.Stop` | src/app/WorkerProcessManager.cpp:288-308 | Settles only once the process has exited. |
| `TerminalCheckpoint.Coordinator.AwaitWorkerQuiescence` | src/app/TranscriptionCoordinator.cpp:2077-2118 | Does not wait only if no request is running; the pending action becomes the one of higher priority. |
| `TerminalCheckpoint.Coordinator.FinishPendingTerminalCheckpoint` | src/app/TranscriptionCoordinator.cpp:2120-2168 | Carries out the pending action or one of higher priority, and after a lost lease only hands off. Ends for every environment. |
| `TerminalCheckpoint.Coordinator.FailActiveJob` | src/app/TranscriptionCoordinator.cpp:2170-2196 | Lets the job go only while no request is running, and only as failed or as something of higher priority; otherwise the pending action is Fail or higher or unchanged, and something is left that comes back to the job. Ends although lease and durable state may change at every call. |
| `TerminalCheckpoint.Coordinator.CheckpointFailedJob` | src/app/TranscriptionCoordinator.cpp:2198-2258 | Accepted writes let the job go as failed; a refused one leaves a retry, and a lost lease or a cancellation takes over. |
| `TerminalCheckpoint.Coordinator.FinishCancellation` | src/app/TranscriptionCoordinator.cpp:2278-2296 | The same for a cancellation, which overrides a pending failure or interruption and yields only to a lost lease. |
| `TerminalCheckpoint.Coordinator.CheckpointCancellation` | src/app/TranscriptionCoordinator.cpp:2298-2355 | Accepted writes let the job go as cancelled; a refused one leaves a retry. |
| `TerminalCheckpoint.Coordinator.InterruptActiveJob` | src/app/TranscriptionCoordinator.cpp:2357-2381 | The job goes as interrupted or as something of higher priority, under exactly the requests that ran when it was called; after an exit there are none. |
| `TerminalCheckpoint.Coordinator.CheckpointInterruption` | src/app/TranscriptionCoordinator.cpp:2383-2444 | Accepted writes let the job go as interrupted; a refused one leaves a retry. |
| `TerminalCheckpoint.Coordinator.AbandonActiveJobAfterLeaseLoss` | src/app/TranscriptionCoordinator.cpp:2446-2473 | The job is only ever handed off, or waits with its channel closed; no terminal state is written without authority. |
| `TerminalCheckpoint.Coordinator.ReceiveEnvelope` | src/app/TranscriptionCoordinator.cpp:1657-1942 | When the current request is answered by an error that no new model download cures, by a cancellation or by a reply that is not accepted, the job is let go as failed or as something of higher priority, or its pending action is one of these, or a retry is due; when it is answered as asked, the job goes on. Late and mismatched envelopes keep every running request tracked, and only a stray end of the current request leaves nothing that comes back to the job. The slot of the manager is connected first and runs first; the same holds in the other order. |
| `TerminalCheckpoint.StrandedJob` | src/app/TranscriptionCoordinator.cpp:1749-1751 | A run in which the worker ends the speech analysis with the reply of a model load, and nothing comes back to the job. |
| `TerminalCheckpoint.OnlyStraysStrand` | src/app/TranscriptionCoordinator.cpp:1657-1942 | Over whole runs, a job that something came back to at the start is stranded at the end only if a terminal envelope for the request that it still waits for came for another job or as another kind of reply, and nothing has come back to it since. |
| `TerminalCheckpoint.Coordinator.ProcessFinished` | src/app/WorkerProcessManager.cpp:364-401 | An exit that was not asked for lets the job go as interrupted or as something of higher priority, or leaves a retry or a pending action. |
| `TerminalCheckpoint.Coordinator.WorkerReady` | src/app/WorkerProcessManager.cpp:51-58 | Settling when a restarted worker becomes ready is safe. |
| `TerminalCheckpoint.Coordinator.StopWorker` | src/app/WorkerProcessManager.cpp:288-308 | Settling when the worker is stopped is safe. |
| `TerminalCheckpoint.Coordinator.RenewActiveLease` | src/app/TranscriptionCoordinator.cpp:689-714 | A heartbeat that finds a cancellation carries it out, or leaves it to the aborted media operation; one that finds a lost lease leaves no job but one waiting to be handed off. |
| `TerminalCheckpoint.Coordinator.Shutdown` | src/app/TranscriptionCoordinator.cpp:365-401 | Shutting down interrupts the job only once no request is running. |
| `TerminalCheckpoint.Coordinator.InterruptRetryFires` | src/app/TranscriptionCoordinator.cpp:2400-2404 | What the retry lets go is let go too early if and only if a request was sent since the interruption was refused and neither its terminal envelope nor the exit of its process has come; that cannot be while no request may be running, the guard of the other retries. |
| `TerminalCheckpoint.OvertakenRetry` | src/app/TranscriptionCoordinator.cpp:2424-2429 | A run from the claim through capabilities, preparation, crash, refused interruption, restart with the candidate that has not failed, and speech analysis, in which the retry lets the job go while the worker analyses its speech. |
| `TerminalCheckpoint.OneMoreRelease` | src/app/TranscriptionCoordinator.cpp:2590-2619 | One release decides the safety of a longer log. |
| `TerminalCheckpoint.Coordinator.Run` | src/app/TranscriptionCoordinator.cpp:2070-2504 | Over every interleaving of events and every environment, every event does to the active job what it is for (a failure, cancellation, interruption or retry lets it go with that cause or one of higher priority or leaves something that does so, an answered request goes on or fails, a completion completes it exactly if its write is accepted and it is not cancelled); one event lets one job go at most, adds at most its own traffic and leaves a retry of an interruption behind only if it can interrupt and a write is refused; every job let go before the first overtaken retry, and so every job of a run without interruption retries, was failed, cancelled, interrupted or handed off while no request ran, and such a run ends as safe as it began; the pending action of an active job stays or climbs until it is let go; only a stray end of its request strands a job; the restart window and the cache keep their promises. |
| `ChunkPipeline.Coordinator.PrepareChunks` | src/app/TranscriptionCoordinator.cpp:1142-1205 | Goes on with the durable plan only if it reaches the end of the audio; a started plan that falls short ends the job, and one that has not started is replaced. |
| `ChunkPipeline.Coordinator.BeginJob` | src/jobs/SqliteJobRepository.cpp:356-412 | The desktop takes exactly the queued, unleased jobs of its own queue, under a new token, and never a job that the command line created. |
| `ChunkPipeline.Coordinator.PersistDuration` | src/app/TranscriptionCoordinator.cpp:865-890 | The measured length is the one the job works with only once the database holds it, under the lease. |
| `ChunkPipeline.Coordinator.SaveChunkPlan` | src/app/TranscriptionCoordinator.cpp:1207-1224 | Memory and database hold the same new plan, or neither changed. |
| `ChunkPipeline.Coordinator.SpeechAnalysed` | src/app/TranscriptionCoordinator.cpp:1756-1794 | A plan is saved exactly when both validators accept it, it ends at the normalised duration and the lease is held; it is the payload's plan, in memory and in the database. |
| `ChunkPipeline.Coordinator.StartNextChunk` | src/app/TranscriptionCoordinator.cpp:1528-1559 | It starts the first chunk after the current one that is not completed, in memory and in the database, and finalises only when all are completed; with the lease and a willing database it does one of the two. |
| `ChunkPipeline.Coordinator.FinalizeCurrentChunk` | src/app/TranscriptionCoordinator.cpp:1965-2025 | The job goes on only with every chunk up to the current one completed in the database and the lease held. |
| `ChunkPipeline.Coordinator.CompleteAndActivate` | src/app/TranscriptionCoordinator.cpp:2027-2068 | When the job completes, every millisecond of its recorded duration lies in a durably completed chunk; with the lease, a finalizing job and a willing database it does complete, and nothing else of the job changes. |
| `ChunkPipeline.Coordinator.EndJob` | src/app/TranscriptionCoordinator.cpp:2225-2245 | A terminal write by a stale owner changes nothing. |
| `Jobs.JobRepository.ReplaceChunks` | src/jobs/SqliteJobRepository.cpp:1107-1178 | A plan is replaced only by the lease holder, or created once while the job is queued, and gets identifiers that no plan had before. |
| `Jobs.OneIdentifierOnePlan` | src/jobs/SqliteJobRepository.cpp:1146-1149 | Chunk lists that share one identifier at one place are the same plan, so that a chunk update by identifier reaches only the plan that was copied. |
| `Jobs.JobRepository.UpdateChunk` | src/jobs/SqliteJobRepository.cpp:1196-1281 | Only the lease holder changes a chunk, and only its state and attempts. |
| `Jobs.UpdateKeepsIff` | src/jobs/SqliteJobRepository.cpp:1196-1281 | A chunk update undoes a completion exactly if it writes another state over it. |
| `Jobs.JobRepository.Transition` | src/jobs/SqliteJobRepository.cpp:864-1013 | Only permitted transitions happen, only cancellations and queue requests without the lease, and an ended job has no owner. |
| `Jobs.JobRepository.RecoverAfterExpiry` | src/jobs/SqliteJobRepository.cpp:286-354 | An abandoned job becomes interrupted, or cancelled if that was requested; its plan keeps its shape and exactly the completed chunks it had. |
| `Jobs.Recovered` | src/jobs/SqliteJobRepository.cpp:319-334 | Recovery preserves completed chunks. |
| `ChunkPipeline.CompletedDurably` | src/app/TranscriptionCoordinator.cpp:1999-2010 | What mirrors the database and is completed in memory is completed in the database. |
| `ChunkPipeline.CompletedInBoth` | src/app/TranscriptionCoordinator.cpp:1999-2010 | Completing the running chunk in both places re-establishes the state startNextChunk relies on. |
| `ChunkPipeline.CompletionIsSound` | src/app/TranscriptionCoordinator.cpp:2040-2057 | A session that has every chunk completed may complete the job. |
| `ChunkPipeline.OthersKeepSessions` | src/database/DatabaseManager.cpp:830-863 | No step of another process can invalidate what a lease holder knows. |
| `CliTranscription.CliTranscriptionPersistence.ClaimJob` | src/cli/CliTranscriptionPersistence.cpp:909-958 | A session goes on with the copy it took before, whatever the plan is by then. It waits while this or another job runs, ends if the database fails, the job was cancelled or is neither running nor queued, and otherwise claims it; only the copy of a resumption can be out of date then, never that of a new job. |
| `CliTranscription.CliTranscriptionPersistence.ResetNext` | src/cli/CliTranscriptionPersistence.cpp:290-308 | When the resumption has made the unfinished chunks of its copy pending, every completed chunk is still completed if and only if the copy showed it completed when the claim succeeded. |
| `CliTranscription.ResumptionKeepsIff` | src/cli/CliTranscriptionPersistence.cpp:293-299 | The same of the whole loop, for every plan and every copy. |
| `CliTranscription.CliTranscriptionPersistence.PersistDuration` | src/cli/CliTranscriptionPersistence.cpp:390-415 | The measured length is the one the session works with only once the database holds it, under the lease. |
| `CliTranscription.CliTranscriptionPersistence.CheckPlan` | src/cli/main.cpp:1341-1369 | The session goes on only with a copy that reaches the end of the audio: a short tail of a started transcription stops it, and another length is planned anew. |
| `CliTranscription.CliTranscriptionPersistence.ReplaceChunkPlan` | src/cli/CliTranscriptionPersistence.cpp:446-501 | A new plan is saved exactly if it is gap-free, ends where the recording does, the copy has not started and the lease is held. |
| `CliTranscription.CliTranscriptionPersistence.WriteChunk` | src/cli/CliTranscriptionPersistence.cpp:521-543 | A chunk that the copy shows completed is never run again, and only a running one is completed; every other write changes nothing. |
| `CliTranscription.CliTranscriptionPersistence.Complete` | src/cli/CliTranscriptionPersistence.cpp:769-812 | When the job completes, every durable chunk is completed although the lease may change hands between check and write, and every millisecond of the measured audio lies in one if and only if the plan reaches its end; it does if it still is the plan that was copied, as it is whenever the copy showed all that was completed at the claim. |
| `JobRuns.CompletionIsUndone` | src/cli/CliTranscriptionPersistence.cpp:270-299 | A run in which a resumption of a desktop job makes a chunk pending that the desktop has completed since the copy was taken. |
| `JobRuns.TailIsLost` | src/cli/main.cpp:1345-1365 | A run in which the audio measures 100, 50 and 100 ms and the completed job has exactly its first 50 ms transcribed, because the last check of the length is made on the copy of a plan that was replaced. |
| `Jobs.NothingIsLeftOut` | src/app/TranscriptionCoordinator.cpp:2027-2068 | A completed job has every millisecond of its plan in a completed chunk, and every millisecond before the shortest length that was ever recorded of its audio. |
| `JobRuns.Run` | src/app/TranscriptionCoordinator.cpp:1142-2068 | However the steps of any number of desktop and command-line processes interleave, fail, lose their lease and resume: a completed job has every millisecond of its plan in a completed chunk, and every millisecond that precedes all lengths measured of its audio; and no completion is undone unless a resumption takes its copy, another process completes a chunk, and the resumption then claims the job. |
| `JobRuns.RunNewJob` | src/app/TranscriptionCoordinator.cpp:1142-2068 | From the enqueuing of a job on, whoever enqueued it: if its audio measures the same whenever it is measured, a completed job has all of it in completed chunks. |
| `JobRuns.TranscribeInFull` | src/app/TranscriptionCoordinator.cpp:1142-2068 | Undisturbed, the desktop takes a queued job, whatever its plan and however many chunks are done, to the end: it is completed, with every millisecond of its audio in a completed chunk; unless a plan that has started ends before the audio. |

## Left out

- Qt as such: event delivery, threads, timers' durations and `QProcess` internals; a timer is a flag and an event that may fire at any time.
- The worker executable, whisper.cpp, ffmpeg and model downloads: foreign calls, whose results are parameters.
- The CBOR codec of RFC 8949 and the envelope fields around it: `FrameCodec` takes the codec as a function, `ChunkPlan` starts from decoded maps.
- Unicode tables and case folding: parameters of `OverlapDeduplicator`, constrained only where the source relies on them; folding is taken unit by unit.
- IEEE comparison of NaN probabilities: probabilities are reals.
- Which of two regions with equal starts `std::sort` puts first: nothing depends on it.
- `QFile`, `QSaveFile` and `QDataStream`: files are byte strings, a failed write is a failed call.
- Integer overflow of signed 64-bit times in the planner, the segmenter and the plan validators; `RiffWave` and `WaveformPyramid` do model their widths.
- ZIP64: the archive reader takes 0xFFFF and 0xFFFFFFFF as the values they are, since the writer emits no ZIP64 records.
- Error texts, diagnostics, progress values, events, telemetry and the publishing of jobs to the user interface.
- The stage of a resumed job: `CliTranscription` lets the length check take either of its branches, whatever stage was reached.
- The binding of a job to the SHA-256 of its source media, and the reuse of normalised audio: that all processes work on the same bytes does not enter any theorem, and two decodings of them may differ in length.
- Other jobs of the queue: a parameter says whether one holds the lease or runs, and a claim may fail for it.
- Transcript segments in the database: saving them is a step that succeeds or fails.
- `TerminalCheckpoint.Coordinator.ContinueJob`: does not model which step of the job comes next; any step may follow any other between two requests, which admits more runs than the source.
- `TerminalCheckpoint.Coordinator.Run`: says nothing of the jobs let go after the first overtaken retry, since a request may then be running that no job accounts for; once the application closes, nothing needs to come back to an active job; and a worker that neither answers nor exits keeps a job waiting.
- `JobRuns.Run`: its condition for keeping completions is sufficient; the exact one, for each resumption, is that of `CliTranscription.CliTranscriptionPersistence.ResetNext`.
- `ChunkPipeline.Coordinator.EndJob`: does not model the wait for the worker, which `TerminalCheckpoint` does.
- The lease's expiry time: expiry is an event, and a token never owns the lease again after it.
- Log redaction, storage layout, cache deletion, presets, prompts, media metadata and view models: easy members or file-system behaviour.
