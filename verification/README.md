# A model of overdub, with proofs

overdub runs on an Echo Dot. It plays timestamped audio in step with a server,
tells Home Assistant what the device does, and gives the device's buttons new
uses. This project models the parts of it that are hard to get right and proves
what they promise. `dafny verify dfyconfig.toml` checks all of it.

Each component has a model of values and functions, a file of proofs about it,
and a class with the program's fields and methods, each method shown to compute
what the model says.

| files | what they are about |
|---|---|
| `Wrappers` | options, bytes and samples |
| `FrameClock`, `GoInt` | frames and nanoseconds, in 64-bit truncating arithmetic |
| `StreamModel`, `StreamState` | the queue, the filling of a block, the learned mapping of time to frames |
| `StreamFill`, `StreamSeams`, `StreamJoins`, `StreamRuns`, `StreamPlacement`, `StreamFollow`, `StreamReckoning`, `StreamRamps`, `StreamLeads`, `StreamCuts`, `StreamCounts`, `StreamFates`, `StreamNear`, `StreamEntry`, `StreamSamples`, `StreamBlocks`, `StreamCalls`, `StreamSilence` | what every block and every run of the stream keeps |
| `Stream` | the stream itself, over the block it fills in place |
| `RingModel`, `RingProofs`, `RingTale`, `Ring` | the eight buffers in front of the player, and the loop that feeds them |
| `Mixer` | clips mixed into blocks |
| `TimeFilterModel`, `TimeFilterProofs`, `TimeFilterLaws`, `TimeFilter` | the filter of the server's clock |
| `ClockModel`, `Clock` | the four-timestamp exchange that feeds it |
| `TransportModel`, `TransportProofs`, `TransportCuts`, `Transport` | fragments over an encrypted transport |
| `WebSocketModel`, `WebSocketHeads`, `WebSocketProofs`, `WebSocketMasks`, `WebSocketRules`, `WebSocket` | WebSocket frames and messages |
| `ProtobufModel`, `ProtobufProofs`, `ProtobufBytes`, `Protobuf` | protobuf fields |
| `MultiPressModel`, `MultiPressProofs`, `MultiPressTale`, `MultiPress` | presses, runs of presses and holds |
| `InterceptorModel`, `InterceptorProofs`, `InterceptorTimes`, `Interceptor` | key events on their way to the clone |
| `PublishedModel`, `PublishedProofs`, `PublishedNews`, `PublishedConns`, `Published` | the cache of readings and its subscribers |
| `DelayModel`, `DelayProofs`, `DelayTale`, `DelayKeeper` | keeping the output delay on disk |

Where several goroutines meet, each stretch of code under a lock is one step,
and the theorems are about every order of steps. A timer that was set runs at
most once, perhaps after it was stopped. Whatever a socket, a player or a disk
decides is a parameter of the step, so the theorems hold for every decision.
The stream carries a history for the proofs: what was written, what went out
frame by frame, and how much was trimmed, blended and discarded.

## What does not hold

Some of what one would expect of the program is not so. In each case a lemma
gives an input, and another says exactly when it does hold.

- A ramp or a smoothed frame that begins a block need not follow on from the frame
  before it: it starts from the frame last sounded, and silence without a mapping may
  have come after that (`StreamSilence.ARampCanJumpOutOfSilence`,
  `StreamSilence.ASmoothedFrameCanJumpOutOfSilence`). It does so exactly when the stream
  still ends on the frame it last sounded, and anywhere else in a block always
  (`StreamRamps.RampsJoinTheirNeighbours`, `StreamRamps.SmoothedFramesJoinTheirNeighbours`).
- A ramp that ends a block need not be followed by the frame it leads to
  (`StreamSilence.ARampCanLeadIntoSilence`). It is when the next call reads
  (`StreamLeads.ARampIsFollowed`), and `StreamLeads.WhatARampLeadsTo` says exactly when
  it is after other calls. Anywhere else in a block it always is.
- An answer `observe` calls measured may be ignored by the filter, when it comes
  in the same microsecond as the one before (`ClockModel.AnAcceptedAnswerCanBeIgnored`,
  `ClockModel.AnAnswerTightensTheFilter`).
- A key whose presses do not alternate with its releases can stay down in the
  clone (`InterceptorProofs.AKeyCanStickDown`, `InterceptorProofs.AKeyIsInStepUnlessItSticks`).
- A figure that cannot be saved could get a fourth unforced attempt, but only in a
  switch that outlives its flush by a minute: the loop looks while the flush has the
  figure in hand, the flush fails, and nothing comes between
  (`DelayProofs.EveryFourthAttempt`, `DelayProofs.AFailedFlushBuysAnotherTry`). The program
  exits when its flush returns, and in every run that ends within that minute three is
  the most (`DelayProofs.ThreeTriesAtMost`).
- A protobuf field number outside 0 to 2²⁹ - 1 is not read back
  (`ProtobufProofs.ACallIsReadWhenItsFieldIsLegal`).
- `write` does not refuse a control frame over 125 bytes, which no reader accepts
  (`WebSocketHeads.WriteEmitsTheLengthThatIsRead`).

## Model

| member | source | states |
|---|---|---|
| `FrameClock.FrameCountIsExact` | internal/audio/stream.go:55-58 | counting the frames of a duration is the exact truncation of duration × rate / 10⁹, for every sign |
| `FrameClock.FrameTimeIsExact` | internal/audio/stream.go:50-53 | the duration of n frames is the exact truncation of n × 10⁹ / rate |
| `FrameClock.FrameCountFits` | internal/audio/stream.go:55-58 | for every 64-bit duration, at the two rates the player opens at, no intermediate product or sum leaves 64 bits |
| `FrameClock.FrameTimeFits` | internal/audio/stream.go:50-53 | whenever the exact duration of n frames fits 64 bits, so does every intermediate step |
| `FrameClock.RoundTrip` | internal/audio/stream.go:50-58 | frames to time and back gives n when n × 10⁹ divides by the rate, and otherwise one frame nearer zero |
| `FrameClock.RoundTripAt48000` | internal/audio/stream.go:50-58 | at 48 kHz the round trip gives n back if and only if n is a multiple of 3 |
| `FrameClock.RoundTripAt44100` | internal/audio/stream.go:50-58 | at 44.1 kHz the round trip gives n back if and only if n is a multiple of 441 |
| `FrameClock.FrameCountIsMonotone` | internal/audio/stream.go:55-58 | a longer duration never counts fewer frames |
| `StreamModel.RampStaysBetween` | internal/audio/stream.go:70-79 | a blended sample lies between the two samples it joins, so it fits 16 bits |
| `StreamModel.StepMakesProgress` | internal/audio/stream.go:331-398 | every turn of the loop of `fill` shortens the queue, or advances in the block, or uses up frames of the head: it terminates and stays inside the block |
| `StreamModel.DecideKeeps` | internal/audio/stream.go:342-358 | giving the head its place touches nothing but that decision |
| `StreamFill.StepKeeps` | internal/audio/stream.go:335-398 | each of the outcomes of a turn keeps the queue's shape, the placement rule and every account |
| `StreamFill.FinishedKeeps` | internal/audio/stream.go:331-403 | a whole block keeps the queue's shape and the placement rule, and moves frames between the accounts without losing one |
| `StreamSeams.EaseIsOneFrame` | internal/audio/stream.go:90-100 | a soft correction is at most one frame at both rates |
| `StreamSeams.DecideMovesOneFrame` | internal/audio/stream.go:342-358 | a decision asks for at most one frame of soft correction, and spends the one the block has |
| `StreamSeams.StepStaysInStep` | internal/audio/stream.go:335-398 | a decided head is never left behind the index, a part-played or soft one continues exactly at it, and corrections stay within the bound |
| `StreamSeams.FinishedCorrectsOnce` | internal/audio/stream.go:331-403 | one block makes one soft correction at most, after catching up with what was put out unplaced |
| `StreamJoins.FinishedKeepsJoins` | internal/audio/stream.go:331-403 | every made-up frame of a block is half way from the frame last sounded to the one its chunk goes on with, unaltered, right after it in the block or, when it ends the block, due at once; a smoothed frame is the mean of its own and the one last sounded |
| `StreamPlacement.HardAudioPlaysWhenDue` | internal/audio/stream.go:359-397 | audio no easing moved goes out at exactly the frame its timestamp names under the mapping of the block, unless its chunk was part-played before |
| `StreamPlacement.PlayedAudioIsLabelled` | internal/audio/stream.go:359-397 | each frame of audio a block puts out is the frame it is labelled with, at its chunk's place and that frame's number, and its chunk's due frame is the one its timestamp names under the mapping of the block, unless the chunk was part-played before |
| `StreamNear.WhenADecisionIsForced` | internal/audio/stream.go:342-358 | a chunk is put exactly on the frame its timestamp names if nothing was played yet, a jump is pending, or that frame is more than 50 ms from the one the block has come to, and goes on within a frame of the latter if none of these is so; of those more than a frame off, it is put exactly there if and only if one of these is so |
| `StreamNear.WhenADecisionCorrects` | internal/audio/stream.go:342-358 | a chunk that is not forced is moved by one frame, toward its time, if and only if the lag remembered is 5 ms or more and the last correction was 200 frames ago or more |
| `StreamNear.LagIsAveraged` | internal/audio/stream.go:85-88 | the lag remembered moves a fiftieth of the way to each new one, cut off toward zero |
| `StreamNear.EveryFrameIsNearItsTime` | internal/audio/stream.go:342-397 | over every run: no frame goes out more than 50 ms and one frame from the frame its timestamp named when it was placed, and one not placed softly goes out exactly there |
| `StreamNear.AudioPlaysNearItsTime` | internal/audio/stream.go:268-403 | every block puts each frame of audio out within 50 ms and one frame of where its timestamp falls under the mapping of the block, unless its chunk was part-played before |
| `StreamSamples.FramesAreLeftAndRight` | internal/audio/mixer.go:132-138 | of every four bytes the first two are the left sample and the last two the right, low byte first, in two's complement |
| `StreamSamples.MeansAreHalfWay` | internal/audio/stream.go:380-388 | a smoothed frame is half way between the two in each channel, cut off toward zero |
| `StreamSamples.RampsAreInStep` | internal/audio/stream.go:70-79 | frame i of a ramp of n is (i + 1)/(n + 1) of the way in each channel, cut off to a whole number |
| `StreamFill.DropHeadKeeps` | internal/audio/stream.go:405-409 | dropping the head counts every frame of it late, and keeps held what the queue has unread, the queue's shape and every account |
| `StreamFill.CutHeadKeeps` | internal/audio/stream.go:411-420 | cutting frames off a decided head, counted late or trimmed, keeps the same |
| `StreamFill.PlayHeadKeeps` | internal/audio/stream.go:380-397 | playing frames of the head keeps the same and the placement rule |
| `StreamRamps.RampsJoinTheirNeighbours` | internal/audio/stream.go:70-79 | every ramp is half way between two frames; the one it leads to comes right after it, unaltered, unless the ramp ends its block; the one it starts from is the frame before it, and audio, unless the ramp begins its block, and there it is the frame before if and only if the stream still ended on the frame it last sounded |
| `StreamRamps.SmoothedFramesJoinTheirNeighbours` | internal/audio/stream.go:380-388 | a smoothed frame is the mean of its own and one it starts from, which is the frame before it, and audio, unless it begins its block, and there under the same condition |
| `StreamLeads.ARampIsFollowed` | internal/audio/stream.go:331-397 | when a block ends on a ramp and the next call reads, the next frame is the one the ramp leads to, unaltered |
| `StreamLeads.WhatARampLeadsTo` | internal/audio/stream.go:331-397 | after a block that ends on a ramp and any calls that put nothing out, the next frame is the one the ramp leads to if and only if the stream reads and has a mapping, and that frame's chunk is the first of which anything is left and is placed with that frame here |
| `StreamRamps.StepKeepsRamps` | internal/audio/stream.go:335-398 | a block that does not end on audio so far leaves a decided head due exactly at the next frame, so no second ramp or gap can follow |
| `StreamSilence.ARampCanJumpOutOfSilence` | internal/audio/stream.go:342-379 | calls that bring a new stream to where its next frame ramps from a frame played before although the frame before is silence |
| `StreamSilence.ASmoothedFrameCanJumpOutOfSilence` | internal/audio/stream.go:364-388 | the same calls, continued, bring it to where its next frame is smoothed into one played before although the frame before is silence |
| `StreamSilence.ARampCanLeadIntoSilence` | internal/audio/stream.go:372-379 | the same calls, up to where a block ends on a ramp and the output changes: the next frame is silence |
| `StreamRuns.InsertedKeepsShape` | internal/audio/stream.go:183-190 | a chunk inserted by due time, behind one already part-played, keeps the queue sorted with only its head decided |
| `StreamEntry.WhyAChunkIsRefused` | internal/audio/stream.go:157-182 | which chunks are refused, and for which reason of several: a part of a frame, a stream closed, spent or ended, more than 30 s from now, more than 30 s held, 3000 queued |
| `StreamEntry.WhatAWriteLeaves` | internal/audio/stream.go:157-193 | a chunk refused changes nothing; one taken comes behind every chunk due no later and what is being played, before the rest, and touches nothing but the decision of the one after it |
| `StreamEntry.AnEndedStreamIsSpent` | internal/audio/stream.go:205-213 | an ended stream that was read takes nothing more, however often it is resumed |
| `StreamRuns.AMovedMappingUneases` | internal/audio/stream.go:461-542 | whenever a reading moves the mapping, every chunk not yet heard loses its decided place |
| `StreamRuns.ApplyKeepsValid` | internal/audio/stream.go:157-295 | every call of the stream keeps every invariant |
| `StreamRuns.RunKeepsValid` | internal/audio/stream.go:157-542 | any sequence of calls keeps every invariant |
| `StreamRuns.EveryRunBalances` | internal/audio/stream.go:157-420 | over every run: accepted = held + placed + late + trimmed + discarded, index = placed + silence + blended, held is what the queue has unread, and no account goes negative |
| `StreamRuns.EveryFrameFollowsTheRule` | internal/audio/stream.go:331-403 | over every run: each frame put out is frame o of a chunk at place + o, as it was written or a mean of that and the frame last sounded, or is a ramp half way to the frame it leads to, or silence |
| `StreamCuts.OnlyTheFrameAfterACutIsAltered` | internal/audio/stream.go:364-388 | over every run: a frame of a chunk goes out as written, unless its chunk is soft and the frame before it in the chunk never goes out; then, and only then, it is smoothed |
| `StreamCuts.StepKeepsCuts` | internal/audio/stream.go:335-398 | every turn keeps it so that a soft head is to be smoothed exactly when it was cut where it has got to |
| `StreamRuns.EveryFramePlaysOnce` | internal/audio/stream.go:380-396 | over every run: no frame of a chunk is played twice or out of order |
| `StreamCounts.EveryCounterIsWhatWentOut` | internal/audio/stream.go:282-293 | over every run: `placed` is the number of frames of audio in the timeline, `silence` of silent ones, and `eased` of ramps and trimmed frames; what was accepted is what is held, went out, was late, was trimmed or was thrown away |
| `StreamFates.EveryFrameHasOneFate` | internal/audio/stream.go:157-420 | for every accepted frame and any calls after: it is still queued, or in the timeline, or was lost, behind at a turn of a block or thrown away; one of these and no two |
| `StreamFates.OneFateARead` | internal/audio/stream.go:268-403 | one block: every frame that was queued still is, or goes out in it, or was behind at one of its turns |
| `StreamFates.ATurnLosesWhatIsBehind` | internal/audio/stream.go:359-371 | a turn counts late or trimmed exactly the frames of the head whose place is behind |
| `StreamFates.OnlyWhatComesLateIsBehind` | internal/audio/stream.go:342-371 | only these are: what a head fell behind while nothing was mapped, the first frame of a chunk placed softly in that turn, and the frames of a chunk placed hard whose time is before the frame the block has come to |
| `StreamRuns.EveryQueueIsInShape` | internal/audio/stream.go:174-192 | over every run: only the head is part-played or decided, the rest is sorted, and a part-played head continues at the next index less what was put out without a mapping |
| `StreamRuns.OneSoftCorrectionPerBlock` | internal/audio/stream.go:342-371 | reading one block corrects softly by one frame at most, beside one for each frame put out without a mapping since the last placed block, and, if none was put out without a mapping, not at all within 200 frames of the last correction |
| `StreamPlacement.MiddleOfFive` | internal/audio/stream.go:481-482 | the middle of five readings is one of them with no more than two on either side |
| `StreamPlacement.AnchorIsTheMiddleReading` | internal/audio/stream.go:473-485 | the fifth reading anchors the stream at one of the five, and within any bounds three of the five lie in |
| `StreamPlacement.AThirdStrayReadingPlacesAgain` | internal/audio/stream.go:495-501 | the third stray reading in a row puts the mapping exactly on it and takes undecided places back |
| `StreamFollow.TwentyReadingsMoveByTheirAverage` | internal/audio/stream.go:515-525 | the first twenty readings of a Bluetooth output leave the mapping alone until the last, which moves it by their average, so no further than the farthest of them |
| `StreamFollow.MeanStaysBetween` | internal/audio/stream.go:526 | the running mean moves toward a reading and never past it, in spite of truncation |
| `StreamFollow.SteadyReadingsMoveNothing` | internal/audio/stream.go:526-529 | over any number of readings inside the band the mapping and the queue stay where they are |
| `StreamFollow.AMoveIsTheMean` | internal/audio/stream.go:526-533 | a reading moves the mapping if and only if the mean leaves the band; it moves by the mean, and the stream is exactly that much less out of step |
| `StreamFollow.AThirdFarReadingJumps` | internal/audio/stream.go:505-514 | the third far reading in a row puts the mapping exactly on itself and starts the averaging again |
| `StreamFollow.FewStraysMoveNothing` | internal/audio/stream.go:487-534 | through any calls with no three stray readings in a row the stream is as if the strays had never been read; the speaker's mapping never moves, and Bluetooth's only by the averages of the others |
| `StreamReckoning.EveryMappingIsReckoned` | internal/audio/stream.go:461-534 | over every run the mapping kept in counters, sums and a running mean is the line the list of readings itself comes to: the middle of the first five of an output, then the third stray in a row for the speaker, and for Bluetooth the average of twenty and the running mean of the rest |
| `StreamReckoning.WhatAReadingDoes` | internal/audio/stream.go:461-542 | any one reading, after any others: where the mapping goes, whether places are taken back, a jump is pending, and what is reported of it |
| `AudioStream.Stream.Write` | internal/audio/stream.go:157-193 | takes or refuses a chunk for the reasons and in the order the program has, and queues it by due time |
| `AudioStream.Stream.Enqueue` | internal/audio/stream.go:183-191 | the backward scan finds the place by due time behind a part-played chunk |
| `AudioStream.Stream.Discard` | internal/audio/stream.go:233-238 | empties the queue and accounts for what was in it |
| `AudioStream.Stream.Finish` | internal/audio/stream.go:195-203 | ends the stream once and counts what was thrown away |
| `AudioStream.Stream.Resume` | internal/audio/stream.go:205-213 | takes audio again unless the stream is spent or closed |
| `AudioStream.Stream.Clear` | internal/audio/stream.go:227-231 | throws the queue away and nothing else |
| `AudioStream.Stream.Close` | internal/audio/stream.go:240-246 | closes the stream and leaves its accounts as they are |
| `AudioStream.Stream.Settle` | internal/audio/stream.go:342-358 | gives the head its place: hard, eased, or on the spot |
| `AudioStream.Stream.Wait` | internal/audio/stream.go:372-379 | ramps up to a soft head or leaves a gap before a hard one, in the block itself |
| `AudioStream.Stream.PlayOut` | internal/audio/stream.go:380-396 | copies frames of the head into the block and smooths the first one after a soft trim |
| `AudioStream.Stream.Miss` | internal/audio/stream.go:362-363 | counts the whole head late |
| `AudioStream.Stream.Cut` | internal/audio/stream.go:364-371 | trims a soft head and skips in a hard one |
| `AudioStream.Stream.Advance` | internal/audio/stream.go:359-397 | takes exactly one of the outcomes of a turn |
| `AudioStream.Stream.Turn` | internal/audio/stream.go:335-397 | one turn of the loop |
| `AudioStream.Stream.Fill` | internal/audio/stream.go:331-403 | fills the block as the turns prescribe, every frame of it accounted for, the rest silence |
| `AudioStream.Stream.Read` | internal/audio/stream.go:268-295 | puts out one block: audio, ramps and silence, each counted once; spends an ended stream |
| `AudioStream.Stream.Unease` | internal/audio/stream.go:536-542 | takes back every place not yet heard |
| `AudioStream.Stream.Place` | internal/audio/stream.go:461-502 | learns, keeps or moves the mapping from one reading |
| `AudioStream.Stream.Learn` | internal/audio/stream.go:473-486 | collects five readings and anchors at the middle one |
| `AudioStream.Stream.Watch` | internal/audio/stream.go:487-502 | moves the mapping of the speaker only after three stray readings |
| `AudioStream.Stream.Follow` | internal/audio/stream.go:504-534 | follows a Bluetooth output by jumps, a first average and a running mean |
| `AudioStream.Blend` | internal/audio/stream.go:70-79 | writes the ramp into the block and leaves the rest of it alone |
| `TimeFilterProofs.PredictedStaysSemiDefinite` | internal/sendspin/timefilter.go:80-83 | prediction keeps the covariance positive semidefinite |
| `TimeFilterProofs.ForgottenStaysSemiDefinite` | internal/sendspin/timefilter.go:88-92 | forgetting keeps the covariance positive semidefinite |
| `TimeFilterProofs.CorrectedStaysSemiDefinite` | internal/sendspin/timefilter.go:94-103 | correction, clamp included, keeps the covariance positive semidefinite |
| `TimeFilterProofs.UpdateStaysSound` | internal/sendspin/timefilter.go:46-111 | any measurement, with any error and time, keeps a sound filter sound |
| `TimeFilterProofs.EveryCovarianceIsSemiDefinite` | internal/sendspin/timefilter.go:46-111 | after any sequence of measurements both variances are at least 0 and the covariance squared is at most their product |
| `TimeFilterProofs.UpdateTightens` | internal/sendspin/timefilter.go:56-103 | a measurement with an error leaves the offset variance at most (error/2)², its clamp idle, and the offset between prediction and measurement |
| `TimeFilterLaws.TheFirstIsBelieved` | internal/sendspin/timefilter.go:59-66 | the first measurement becomes the offset, with no drift and the variance (error/2)² |
| `TimeFilterLaws.TheSecondFixesALine` | internal/sendspin/timefilter.go:68-76 | the second becomes the offset, and the drift is the slope of the two, with the variance that follows from both |
| `TimeFilterLaws.ALaterOneIsWeighed` | internal/sendspin/timefilter.go:78-110 | with P, B and D the variances predicted, all four times as large if and only if 100 were counted and the residual passes three times the error, and S = P + (error/2)² but at least 10⁻⁹: the offset moves by P/S of the residual and the drift by B/S, the variances give up P²/S, BP/S and B²/S, and the drift counts if and only if its square is more than four times its variance |
| `TimeFilterLaws.TheWeightIsTheBest` | internal/sendspin/timefilter.go:94-103 | no other weighing of what was predicted against what was measured leaves the offset a smaller variance |
| `TimeFilterLaws.ServerTimeAddsOffsetAndDrift` | internal/sendspin/timefilter.go:119-126 | a moment here is the server's when the offset is added, and the drift for the time since, to the nearest microsecond |
| `TimeFilterLaws.WhenAServerMomentIsAnswered` | internal/sendspin/timefilter.go:128-142 | a server moment has an answer if and only if the clock runs at half speed or more and the answer is within 2⁵⁰ µs of zero |
| `TimeFilterLaws.TwoMeasurementsMakeAnAnswer` | internal/sendspin/timefilter.go:46-76 | over every sequence of measurements: a filter is converged if and only if two of them came in order; a new one takes the server's clock for its own |
| `TimeFilterProofs.MapsUndoEachOther` | internal/sendspin/timefilter.go:119-142 | a server moment mapped here and back is off by at most (1 + rate)/2 µs |
| `TimeFilterProofs.ClientFromIsMonotone` | internal/sendspin/timefilter.go:128-142 | a later server moment is never mapped before an earlier one |
| `TimeFilterProofs.ClientFromAnswersAnInterval` | internal/sendspin/timefilter.go:134-141 | between two moments that have an answer every moment has one |
| `TimeFilterClass.TimeFilter.Update` | internal/sendspin/timefilter.go:46-111 | the field-by-field update is the prediction, forgetting and correction the proofs are about |
| `TimeFilterClass.TimeFilter.Correct` | internal/sendspin/timefilter.go:78-110 | the same for a third or later measurement |
| `TimeFilterClass.TimeFilter.Sample` | internal/sendspin/timefilter.go:148-160 | a moment is mapped only by a converged filter, together with the offset it was mapped with |
| `ClockModel.OffsetIsWithinTheDelay` | internal/sendspin/time.go:121-122 | for a constant offset and any path delays the computed offset is within delay + 1 µs of it, and within half the lopsidedness, in spite of truncation |
| `ClockModel.OffsetCanBeOffByTheDelay` | internal/sendspin/time.go:121-122 | that bound is met for every delay |
| `ClockModel.ExchangeFits` | internal/sendspin/time.go:115-130 | stamps that pass the checks make sums that stay inside 64 bits |
| `ClockModel.WhenAnAnswerIsAMeasurement` | internal/sendspin/time.go:103-130 | an answer is a measurement if and only if its stamps pass the checks, it answers the question now asked and its delay is positive |
| `ClockModel.AnAnswerTightensTheFilter` | internal/sendspin/time.go:103-128 | an accepted answer enters the filter if and only if it came after the last one; then the offset variance is at most (delay/2)², the clamp is idle, and the offset lies between prediction and measurement; otherwise nothing changes |
| `ClockModel.AnAcceptedAnswerCanBeIgnored` | internal/sendspin/time.go:121-127 | a run after which an accepted answer is ignored by the filter, leaving it less certain than the answer |
| `ClockModel.EachQuestionFeedsOnce` | internal/sendspin/time.go:81-101 | over every run only an answer to the question now asked feeds the filter, and only once |
| `ClockModel.AcceptedAnswersFeedTheFilter` | internal/sendspin/time.go:81-128 | over every run an accepted answer does feed it, unless another was taken between stamping and sending its question |
| `ClockClass.AskingClock.Ask` | internal/sendspin/time.go:81-91 | a new question replaces the one before |
| `ClockClass.AskingClock.Answered` | internal/sendspin/time.go:93-101 | true exactly once, for the stamp being asked about |
| `ClockClass.AskingClock.Observe` | internal/sendspin/time.go:103-128 | judges an answer in the program's order and feeds the filter only a positive delay |
| `TransportProofs.FramesFit` | internal/sendspin/transport.go:31-74 | every sealed frame fits 65535 bytes, however long the body |
| `TransportProofs.FragmentsCarryTheBody` | internal/sendspin/transport.go:40-65 | the fragments carry the type and the whole body, once and in order |
| `TransportProofs.ReadUndoesWrite` | internal/sendspin/transport.go:31-147 | a body of up to 65535 bytes of any type but the fragment's is read back exactly, with nothing left in flight and what follows untouched |
| `TransportProofs.ReadRefusesTooMuch` | internal/sendspin/transport.go:143-145 | a longer body is refused as too big |
| `TransportCuts.AnyCutIsRead` | internal/sendspin/transport.go:76-147 | however a body of up to 65535 bytes is cut, into any number of fragments up to 4096, empty ones among them, it is read whole, with nothing left in flight and what follows untouched |
| `TransportCuts.TooManyFragmentsAreGivenUp` | internal/sendspin/transport.go:76-84 | in more fragments than that it is given up |
| `TransportCuts.EveryFrameButTheLastIsFull` | internal/sendspin/transport.go:31-65 | a body that fits goes out in one frame, and a longer one in fragments of 65535 bytes sealed, all but the last |
| `TransportCuts.OnlyTheseAreRefused` | internal/sendspin/transport.go:99-147 | a frame that opens is refused, for each reason, if and only if its bytes and what is in flight are as listed for it |
| `TransportProofs.ReadGivesWholeMessages` | internal/sendspin/transport.go:76-115 | whatever arrives, a message read is no fragment and leaves none in flight, and one read takes at most 4096 frames |
| `TransportProofs.EveryMessageArrives` | internal/sendspin/transport.go:31-147 | any number of writers taking the lock in any order, wherever they have got to: a reader gets every message already complete, whole and in that order, and of one cut short that the socket closed |
| `TransportClass.Session.WriteTyped` | internal/sendspin/transport.go:31-66 | refuses the fragment type, and otherwise puts exactly the frames of the message on the wire, or as many as the socket takes before it fails |
| `TransportClass.Session.WriteFragments` | internal/sendspin/transport.go:40-65 | the loop puts the fragments of the body on the wire in order, all of them or up to the one that fails |
| `TransportClass.Session.NextFragment` | internal/sendspin/transport.go:42-58 | takes as much as fits, marks first and last, and always takes something |
| `TransportClass.Session.Read` | internal/sendspin/transport.go:76-115 | gives the next whole message or the reason there is none |
| `TransportClass.Session.Reassemble` | internal/sendspin/transport.go:117-147 | joins a fragment on, or refuses it for the reason the program has |
| `WebSocketHeads.LengthIsRead` | internal/sendspin/ws.go:210-234 | each length is read back from what is written of it |
| `WebSocketHeads.OnlyLengthsAreRead` | internal/sendspin/ws.go:210-234 | bytes read as a length are its shortest encoding and no other |
| `WebSocketHeads.HeadIsRead` | internal/sendspin/ws.go:196-250 | every head RFC 6455 allows a client is read for what it says |
| `WebSocketHeads.OnlyHeadsAreRead` | internal/sendspin/ws.go:196-250 | whatever bytes are read as a head are the one encoding of an allowed head |
| `WebSocketHeads.WriteEmitsTheLengthThatIsRead` | internal/sendspin/ws.go:331-351 | for every length the field `write` emits is read as that length and no other bytes are; a control frame over 125 bytes and a frame without a mask are refused |
| `WebSocketProofs.MaskedTwice` | internal/sendspin/ws.go:260-262 | unmasking undoes masking |
| `WebSocketMasks.AMaskFlipsItsBits` | internal/sendspin/ws.go:260-262 | byte i of a masked payload differs from byte i of the data in exactly the bits set in byte i mod 4 of the mask |
| `WebSocketMasks.ExamplesOfTheRfc` | internal/sendspin/ws.go:266-319 | the masked frames of section 5.7 of RFC 6455 are read as the Hello they are of, and the ping among them answered |
| `WebSocketProofs.LegalFramesAreRead` | internal/sendspin/ws.go:266-319 | a legal masked frame sequence within the limits is read as the concatenation of its data whatever control frames are among them, each ping answered in turn, nothing after it touched |
| `WebSocketProofs.OnlyLegalFramesAreRead` | internal/sendspin/ws.go:266-319 | conversely, a message is read out of no other bytes than such a sequence |
| `WebSocketRules.WhatAFrameDoes` | internal/sendspin/ws.go:282-317 | what each opcode of RFC 6455 does: a ping is answered, a pong passed over, a close told and sent back, data begun, continued, finished or refused |
| `WebSocketRules.ReadTakes4096Frames` | internal/sendspin/ws.go:266-319 | a message is read after up to 4095 other frames, and given up after 4096 |
| `WebSocketRules.WhyAHeadIsRefused` | internal/sendspin/ws.go:196-250 | of any two bytes and what follows, which of the reasons a head is refused for, in their order, or what is read of it |
| `WebSocketProofs.ReadHoldsAtMostTwiceItsLimit` | internal/sendspin/ws.go:252-319 | whatever arrives, over at most 4096 frames: a message and the payload to be joined to it never exceed twice the limit; while they are joined the grown message and the payload never exceed three times |
| `WebSocketProofs.ATurnStaysWithinBounds` | internal/sendspin/ws.go:252-318 | one frame takes at most 14 bytes and the limit off the stream |
| `WebSocketClass.Connection.Write` | internal/sendspin/ws.go:331-354 | emits the head and the payload, or fails |
| `WebSocketClass.Connection.ReadHeader` | internal/sendspin/ws.go:196-250 | refuses a head in the order the program checks it |
| `WebSocketClass.Connection.Unmask` | internal/sendspin/ws.go:260-262 | unmasks every byte in place |
| `WebSocketClass.Connection.ReadPayload` | internal/sendspin/ws.go:252-264 | refuses a frame over the limit before reading it |
| `WebSocketClass.Connection.Handle` | internal/sendspin/ws.go:282-317 | answers, ignores, ends, begins, continues or refuses, by opcode |
| `WebSocketClass.Connection.Read` | internal/sendspin/ws.go:266-319 | gives the next message or the reason there is none, after at most 4096 frames |
| `ProtobufProofs.VarintIsRead` | internal/esphome/proto.go:17-23 | a 64-bit number is read back from its varint, whatever follows it |
| `ProtobufProofs.UvarintFits` | internal/esphome/proto.go:68-71 | no varint read is longer than ten bytes or wider than 64 bits |
| `ProtobufBytes.VarintBytes` | internal/esphome/proto.go:17-23 | byte i of a varint has bits 7i to 7i + 6 of the number, and its top bit as long as more follow |
| `ProtobufBytes.WhatIsReadAsAVarint` | internal/esphome/proto.go:68-71 | bytes are read as a varint, seven bits of each, if and only if one of the first ten has no top bit, and the tenth, if it is that, is at most 1 |
| `ProtobufBytes.WhatATurnDoes` | internal/esphome/proto.go:67-103 | what a turn takes off a message for each wire type, and every error, in the program's order |
| `ProtobufBytes.ExamplesOfTheSpecification` | internal/esphome/proto.go:17-57 | the bytes the Protocol Buffers encoding specification gives as examples are what is written |
| `ProtobufProofs.ACallIsReadWhenItsFieldIsLegal` | internal/esphome/proto.go:25-57 | one call is visited as itself when its field number is between 0 and 2²⁹ - 1, and otherwise never: the walk refuses it or sees another number, and which is said exactly |
| `ProtobufProofs.WalkUndoesWriting` | internal/esphome/proto.go:17-106 | a walk over what any calls wrote visits exactly their fields, in order, without error |
| `ProtobufProofs.WalkingPartsInTurn` | internal/esphome/proto.go:66-106 | walking a concatenation is walking its parts in turn |
| `ProtobufProofs.WalkStaysInside` | internal/esphome/proto.go:66-106 | on arbitrary bytes every field visited has its data inside the message, after that of the field before it |
| `ProtobufProofs.NextIsInside` | internal/esphome/proto.go:68-103 | each turn takes at least two bytes, and gives a number of 64 bits and a legal field number |
| `ProtobufProofs.CuttingAFieldIsNoticed` | internal/esphome/proto.go:79-102 | a message cut anywhere inside a field is refused |
| `ProtobufClass.Writer.Uvarint` | internal/esphome/proto.go:17-23 | the shifting loop appends the varint |
| `ProtobufClass.Writer.Tag` | internal/esphome/proto.go:25 | appends the field's encoding to what was written |
| `ProtobufClass.Writer.U32` | internal/esphome/proto.go:27 | appends the field's encoding to what was written |
| `ProtobufClass.Writer.Boolean` | internal/esphome/proto.go:29-36 | appends the field's encoding to what was written |
| `ProtobufClass.Writer.Str` | internal/esphome/proto.go:38-42 | appends the field's encoding to what was written |
| `ProtobufClass.Writer.Sub` | internal/esphome/proto.go:44-48 | appends the field's encoding to what was written |
| `ProtobufClass.Writer.Fixed32` | internal/esphome/proto.go:50-55 | appends the field's encoding to what was written |
| `ProtobufClass.Walk` | internal/esphome/proto.go:66-106 | the reslicing loop visits what the walk visits and stops with its error |
| `MultiPressProofs.EveryPressIsToldOnce` | internal/button/button.go:340-349 | of any history, the presses finished are those the gestures speak for and those of the run still open |
| `MultiPressProofs.StepKeepsTelling` | internal/button/button.go:267-349 | every step fires, or leaves to be fired, exactly what the key's history calls for |
| `MultiPressProofs.StepKeepsTimers` | internal/button/button.go:267-338 | every step leaves a timer of the current generation exactly where one is due |
| `MultiPressProofs.EveryRunAccountsForItsPresses` | internal/button/button.go:267-349 | over every run with late and stale timers: releases = press ends + multi-press counts + long ends, fired or about to be, + the pending count |
| `MultiPressProofs.EveryRunTellsTheStory` | internal/button/button.go:276-349 | over every run the gestures are those of the history in its order: a run is reported before the hold that ends it, and only a run of presses closes |
| `MultiPressTale.EveryRunTellsWhatHappened` | internal/button/button.go:267-338 | over every run the gestures are those the events themselves call for: a release with no hold open is a press if and only if the key was held for less than the hold time, and otherwise a whole hold |
| `MultiPressTale.WhatAReleaseTells` | internal/button/button.go:276-302 | after any run: a release with no hold open adds one press to the count if and only if it was held for less than the hold time, and otherwise tells the open run and the hold with its length; one that ends a hold tells its length alone |
| `MultiPressTale.EveryNumberIsOfMany` | internal/button/button.go:340-349 | over every run, a number of presses is told only of two or more |
| `MultiPressProofs.EveryHoldEndsNext` | internal/button/button.go:283-320 | over every run each long-press start is followed at once by its own end, and one still open means the key is down |
| `MultiPressProofs.AnOpenRunHasItsTimer` | internal/button/button.go:298-301 | over every run a pending count with the key up has a current gap timer, not stopped |
| `MultiPressProofs.OutdatedTimersDoNothing` | internal/button/button.go:304-331 | once the key has moved, no timer set before changes anything, however late it runs |
| `MultiPressProofs.WhenAllIsQuietAllIsTold` | internal/button/button.go:267-349 | with the key up, the timers run and nothing left to fire, every press was reported exactly once |
| `MultiPressClass.MultiPress.Down` | internal/button/button.go:267-274 | a press outdates the gap timer and sets a hold timer |
| `MultiPressClass.MultiPress.Up` | internal/button/button.go:276-302 | a release ends a hold, tells a late hold whole, or counts a press |
| `MultiPressClass.MultiPress.Held` | internal/button/button.go:304-321 | a current hold timer reports the run and starts the hold; a stale one does nothing |
| `MultiPressClass.MultiPress.Closed` | internal/button/button.go:323-338 | a current gap timer reports the run; a stale one does nothing |
| `InterceptorProofs.OnlyAStickingPressLosesStep` | internal/button/button.go:174-206 | for any input at all, a step loses the match between clone and latched press if and only if a press is intercepted while one let through is in flight |
| `InterceptorProofs.OnlyAnInterruptingPressBreaksAPair` | internal/button/button.go:176-190 | for any input at all, a step breaks the pairing of the callbacks if and only if it is a press during another that was told of |
| `InterceptorProofs.AKeyIsInStepUnlessItSticks` | internal/button/button.go:166-206 | over every run the clone takes all of: clone and latched press match at every point if and only if no press was intercepted while one let through was in flight |
| `InterceptorProofs.AKeyTellsInPairsUnlessInterrupted` | internal/button/button.go:166-206 | over every run: the callbacks pair up at every point if and only if no press came during another that was told of |
| `InterceptorProofs.AlternatingKeysStayInStep` | internal/button/button.go:166-206 | for a key whose presses and releases alternate while modes change at any moment: the clone sees it down exactly while a press latched as non-intercept is in flight, and callbacks pair up with one mode |
| `InterceptorProofs.AKeyCanStickDown` | internal/button/button.go:174-199 | without alternation a key can stay down in the clone after it is let go |
| `InterceptorProofs.OtherKeysPassThrough` | internal/button/button.go:201-206 | the key events of keys nobody watches reach the clone as the identical sequence, and no other kind of event does |
| `InterceptorTimes.APressIsToldWithItsLength` | internal/button/button.go:176-197 | after any run a release is told, if its press was seen and did not pass through, with the time since that press and the mode that press was latched with |
| `InterceptorTimes.WhereAPressGoes` | internal/button/button.go:174-206 | a press is latched with the mode the key has then and goes on unless that intercepts; its release goes where the press went |
| `InterceptorTimes.RepeatsReachAKeyThatIsDown` | internal/button/button.go:190-206 | while a key is in step its repeats reach the clone exactly while the clone has it down |
| `InterceptorClass.Interceptor.Mode` | internal/button/button.go:114-120 | the mode a press of the key would be latched with now; a key nobody watches passes through |
| `InterceptorClass.Interceptor.SetMode` | internal/button/button.go:122-126 | the mode set is the mode read back, and no other key's changes |
| `InterceptorClass.Interceptor.Route` | internal/button/button.go:166-206 | one event: latches, tells and passes on as the mode of the press says, and loses a key's step or pairing exactly where the two lemmas above say |
| `RingProofs.StepKeepsValid` | internal/audio/audio_android.c:47-150 | every step of the writer, and the player draining at any moment, keeps the ring in step with the queue |
| `RingProofs.CopyTouchesNoQueuedBuffer` | internal/audio/audio_android.c:99-103 | the copy touches no buffer the player has |
| `RingProofs.PendingIsWhatIsLeft` | internal/audio/audio_android.c:110-122 | the frames reported are exactly those taken and not yet consumed |
| `RingProofs.EveryRunStaysInStep` | internal/audio/audio_android.c:92-122 | over every run under any draining: the queued buffers are the slots just before the next modulo 8, and what was taken is what was played and what is queued, in order |
| `RingProofs.WriteTakesOrRefuses` | internal/audio/audio_android.c:92-108 | a call takes the most whole frames that fit one buffer, or nothing and says which, whatever drains meanwhile and wherever it fails |
| `RingTale.EveryRunFeedsItsPlayer` | internal/audio/audio_android.c:47-122 | over every run: the player is open as the last call that opened or closed it says, with two bytes a channel to the frame, has taken what the writes since then gave it, and between writes has as many frames left as make up what it has not played |
| `RingTale.WhatAWriteAnswers` | internal/audio/audio_android.c:92-108 | a write is refused with 0 while eight buffers are queued, and otherwise takes the most whole frames 1920 bytes hold, unless the player is closed or fails or there is not one frame |
| `RingTale.WhatOpenAnswers` | internal/audio/audio_android.c:35-90 | opening answers 0 if the rate is one of seven, the channels one or two and the set-up works, and otherwise -1 |
| `RingTale.WhatIsPending` | internal/audio/audio_android.c:110-122 | the frames left are reported as -1 of a player that is closed or fails, and otherwise as those taken and not yet played |
| `RingTale.AFullPlayerIsAsked501Times` | internal/audio/mixer.go:140-165 | a player that never takes anything is asked 501 times, and then is said to be stuck |
| `RingProofs.DoneWhenAllWasTaken` | internal/audio/mixer.go:140-165 | over any player at all the loop terminates, the player took a prefix of the block in order, and the loop reports no error if and only if that is all of it |
| `RingProofs.TheRingTakesTheBlock` | internal/audio/mixer.go:140-165 | over the ring, what the loop says was taken is what the player has taken, and no count is out of range |
| `RingClass.Ring.Open` | internal/audio/audio_android.c:47-90 | refuses a rate or a number of channels the player has not, and otherwise sets the frame size and clears the sizes held |
| `RingClass.Ring.Close` | internal/audio/audio_android.c:130-150 | forgets the queue and clears the sizes held |
| `RingClass.Ring.Ask` | internal/audio/audio_android.c:93-101 | refuses a closed player, a failing one, a full queue and less than a frame |
| `RingClass.Ring.Copy` | internal/audio/audio_android.c:103 | copies into the free slot |
| `RingClass.Ring.Enqueue` | internal/audio/audio_android.c:104 | hands the slot over or fails without a trace |
| `RingClass.Ring.Keep` | internal/audio/audio_android.c:105-107 | records the size and moves to the next slot |
| `RingClass.Ring.Write` | internal/audio/audio_android.c:92-108 | one whole call with the player draining in between |
| `RingClass.Ring.Pending` | internal/audio/audio_android.c:110-122 | adds up the sizes held of the buffers queued |
| `RingClass.Ring.WriteAll` | internal/audio/mixer.go:140-165 | feeds a block and reports no error only when the player took all of it |
| `Mixer.BlocksSoundAsOne` | internal/audio/mixer.go:35-39 | two blocks in a row sound as one block of both their lengths: however sound is cut into blocks, no sample of a clip is skipped, repeated or moved |
| `Mixer.BlocksKeepAsOne` | internal/audio/mixer.go:101-111 | and the same clips are left to sound, equally far on |
| `Mixer.AClipAloneIsHeardWhole` | internal/audio/mixer.go:35-39 | a clip alone comes out unaltered from its first sample to its last and is then let go |
| `Mixer.MixIsHeard` | internal/audio/mixer.go:102-106 | each sample of a block is the saturated sum of the sources' samples of that moment, in the order of the list |
| `Mixer.SumIsTheNearestSample` | internal/audio/mixer.go:115-124 | two samples add to the sample of sixteen bits nearest their sum |
| `Mixer.SumsCommuteWithRoom` | internal/audio/mixer.go:115-124 | two samples add alike in either order, three as long as no sum leaves 16 bits, and not always beyond |
| `Mixer.Mixing.Start` | internal/audio/mixer.go:56-70 | a clip starts from its beginning, again if it sounds already, and never twice at once |
| `Mixer.Mixing.Next` | internal/audio/mixer.go:91-113 | fills the block with everything that sounds, filters the sources in order, or leaves the block alone when there are none |
| `Mixer.AddAll` | internal/audio/mixer.go:101-111 | the loop adds each source to the block and keeps those that go on |
| `PublishedProofs.ChangesAreEnough` | internal/esphome/state.go:254-270 | whoever agreed with the cache and is sent only what changed agrees with it afterwards |
| `PublishedProofs.SubscribeKeepsCoherent` | internal/esphome/server.go:566-580 | a subscription keeps every subscriber up to date, whole snapshot or part of one |
| `PublishedProofs.PublishKeepsCoherent` | internal/esphome/state.go:254-275 | a publication keeps every subscriber still connected up to date |
| `PublishedProofs.UseCommandKeepsCoherent` | internal/esphome/media.go:201-224 | an entry enters the cache unsent only when everyone is dropped |
| `PublishedProofs.StepKeepsCoherent` | internal/esphome/state.go:63-275 | every step under the lock keeps the cache and the subscribers coherent |
| `PublishedProofs.SubscribersAreUpToDate` | internal/esphome/state.go:162-275 | over every interleaving: for each subscriber still connected whose snapshot was accepted, the last frame queued for an entity is the encoding of its cached reading, if there is one; and there are never more than eight connections |
| `PublishedProofs.UnchangedReadingsAreNotResent` | internal/esphome/state.go:257-263 | readings published again, none a NaN, change nothing and reach nobody |
| `PublishedProofs.OnlyChangesAreSent` | internal/esphome/state.go:254-269 | a connection that stays is sent exactly the readings that changed the cache, and only if it subscribed |
| `PublishedNews.FloatsAreCompared` | internal/esphome/state.go:257-263 | two 32-bit floats compare as the same number, the zeros alike and no NaN like anything |
| `PublishedNews.WhatIsPublished` | internal/esphome/state.go:254-275 | after readings of distinct keys are published the cache has each of them in every field, its value as the same number or the same bits, and every other key's as before; a subscriber that stays is sent those whose key was not cached, that differed in a field or a number, or were a NaN, in order, and no others |
| `PublishedNews.WhatAStateFrameSays` | internal/esphome/state.go:170-232 | for each kind of entity the type of the message and every field a client reads in it |
| `PublishedConns.WhoIsConnected` | internal/esphome/server.go:391-407 | after any step a connection is there if and only if it was and did not leave, fail to take what it asked for, or have to list again; or if it came while there were fewer than eight |
| `PublishedConns.WhatAConnectionIsSent` | internal/esphome/state.go:234-275 | by any step a connection that stays is sent what it asked for and nothing else, and has asked for what it subscribed to |
| `PublishedConns.ASnapshotHasEachReadingOnce` | internal/esphome/state.go:162-168 | a snapshot has as many readings as the cache, each of them, and no other |
| `PublishedConns.WhatTheCacheKeeps` | internal/esphome/media.go:201-218 | besides publications only a first command and a forgotten sound change the cache, and how |
| `PublishedConns.TheLastGivenIsKept` | internal/esphome/media.go:114-206 | over every run the server has the ways to run commands and to play that were last given |
| `PublishedProofs.AStateFrameNamesItsEntity` | internal/esphome/state.go:170-232 | every state frame parses, and its first field is the key it is about |
| `PublishedClass.Server.ServeConn` | internal/esphome/server.go:391-399 | admits a connection while there are fewer than eight |
| `PublishedClass.Server.Leave` | internal/esphome/server.go:404-407 | forgets a connection that ended |
| `PublishedClass.Server.Snapshot` | internal/esphome/state.go:162-168 | every cached reading once, in any order |
| `PublishedClass.Server.SubscribeStates` | internal/esphome/server.go:566-571 | subscribes and sends a snapshot, or fails |
| `PublishedClass.Server.EachConn` | internal/esphome/state.go:234-248 | sends to everyone who wants it and drops the ones that cannot take it |
| `PublishedClass.Server.Publish` | internal/esphome/state.go:254-275 | caches what changed and sends it to the subscribers |
| `PublishedClass.Server.FirePress` | internal/esphome/state.go:299-306 | sends an event to who wants states and then a call to who wants services, dropping those that cannot take it |
| `PublishedClass.Server.ForgetSound` | internal/esphome/state.go:63-69 | removes the sound reading from the cache and nothing else |
| `PublishedClass.Server.UseCommand` | internal/esphome/media.go:201-218 | caches an empty command and drops everyone the first time |
| `PublishedClass.Server.UsePlay` | internal/esphome/media.go:114-126 | drops everyone the first time and leaves the cache |
| `DelayProofs.StepKeepsApart` | serve.go:554-604 | every step keeps attempts one after another and unforced ones apart |
| `DelayProofs.UnforcedSavesAreKeptApart` | serve.go:554-604 | over every run an unforced attempt starts at least `keepEvery` after the attempt before it was over |
| `DelayProofs.StepKeepsValid` | serve.go:519-667 | every step of the loop, of a flush and of a new delay keeps what is owed, tried and written in step |
| `DelayProofs.AFigureIsGivenUp` | serve.go:570-604 | over every run one held figure gets at most three unforced attempts and one more for each forced one, so three if nobody forces; after that the loop no longer asks |
| `DelayProofs.ThreeTriesAtMost` | serve.go:570-617 | over every run with no flush, or one that ends before keepEvery has passed since a flush, the time a flush itself saves not counted, one held figure gets at most three unforced attempts; every run of the program is one of these, for it exits when its flush returns |
| `DelayProofs.EveryFourthAttempt` | serve.go:554-604 | over every run: the next step is a fourth unforced attempt if and only if it passes the loop's gate late enough and the loop's last look found, after three tries, a save still asked for, which then neither worked nor was overtaken by a new delay or a switching on |
| `DelayProofs.TheWayToAFourthAttempt` | serve.go:652-667 | between a look of the loop and its gate: the gate is unforced after three tries exactly when the look found three tries and a save asked for, and nothing came between |
| `DelayProofs.TheFourthAttempt` | serve.go:585-591 | a step makes the fourth unforced attempt exactly when it passes an unforced gate late enough after three |
| `DelayProofs.OnlyALookDuringAFlushAsksAgain` | serve.go:554-604 | as long as no figure has had a fourth unforced attempt or has one before it, the one step after which it has one before it is a look that finds a figure tried three times still asked for, and it is found so only while a flush has it in hand |
| `DelayProofs.AFailedFlushBuysAnotherTry` | serve.go:579-599 | a run of a switch that outlives its failing flush, in which a figure gets four unforced attempts |
| `DelayProofs.NoDelayIsForgotten` | serve.go:570-650 | over every run what is held is on disk, asked for or given up; and a successful write with no later set leaves the disk with what is held |
| `DelayTale.AHeldDelayIsTheNearest` | internal/sendspin/command.go:18-21 | a delay is held as the one of 0 to 5000 ms nearest to it |
| `DelayTale.EveryRunHoldsWhatWasSet` | serve.go:519-650 | over every run: what is held is the nearest to what was last asked for, and what is on disk is what was held when the last save that worked was begun |
| `DelayTale.EveryDelayIsInRange` | serve.go:519-650 | over every run that starts with a delay from 0 to 5000 ms, what is held and what is on disk are within that range |
| `DelayTale.WhatTheLoopWaitsFor` | serve.go:554-568 | the loop waits for a save if and only if one is owed or the disk is unknown after fewer than three tries, until `keepEvery`, or a minute if that is not set, after the last one, and no longer |
| `DelayTale.WhatIsOwedAtFirst` | serve.go:536-568 | a daemon that knows what is on disk starts with nothing owed, and any other saves at once |
| `DelayTale.WhatPassesTheGate` | serve.go:585-591 | a save goes on if and only if it is forced, no longer asked for, or late enough |
| `DelayKeeperClass.SendspinSwitch.Owed` | serve.go:554-568 | how long until a save that is asked for, if one is |
| `DelayKeeperClass.SendspinSwitch.Look` | serve.go:653-657 | the loop waits for a save exactly as long as is owed |
| `DelayKeeperClass.SendspinSwitch.ApplyDelay` | serve.go:519-534 | holds a new delay within its range and goes to keep it; the same delay does nothing |
| `DelayKeeperClass.SendspinSwitch.Begin` | serve.go:570-584 | starts counting anew for a new figure and says whether anything is owed |
| `DelayKeeperClass.SendspinSwitch.Pass` | serve.go:585-591 | goes on to save unless it is too soon and unforced |
| `DelayKeeperClass.SendspinSwitch.KeepDelay` | serve.go:632-649 | records a save that worked |
| `DelayKeeperClass.SendspinSwitch.Record` | serve.go:592-600 | counts a failed try and gives up at the third |

## Left out

Audio:

- AudioStream.Stream.Read: does not model the ducking of a block by `scale`, the counters `blocks` and `first`, or when readings are asked for; they decide how loud a block is and when `place` runs, and the theorems hold for every block and every moment.
- AudioStream.Stream.Write: takes the present time as a parameter and times as integers, without the saturation of a difference of more than 292 years.
- StreamRuns.OneSoftCorrectionPerBlock: allows one frame for each frame put out without a mapping, since the place of a part-played head goes stale in that window.
- StreamRamps.RampsJoinTheirNeighbours: at the start of a block gives the condition under which a ramp joins the frame before it, because there it need not.
- StreamRamps.SmoothedFramesJoinTheirNeighbours: likewise of a smoothed frame.
- StreamJoins.FinishedKeepsJoins: starts from the frame last sounded, which is the frame before only where the two lemmas above say.
- The sample pairs of a frame are one value; interleaving and byte order of samples are `Decode`'s.
- RingClass.Ring.Open: stands for the set-up of the player with one outcome, works or fails; the interfaces of OpenSL ES are not part of this model.
- Mixer.Mixing.Next: mixes clips only, as values known by a number; a stream among the sources is `AudioStream.Stream`, and the removal of a source at a change of rate is not modelled.
- Mixer.BlocksSoundAsOne: holds of clips; a stream decides on its corrections block by block, so for it the cut into blocks can be heard.
- Mixer.BlocksKeepAsOne: of clips, likewise.
- Mixer.MixIsHeard: of clips, likewise.
- Mixer.AddAll: of clips, likewise.
- Chimes, and reading where the output has reached: they would add easier members.

Clock:

- The filter's floating point is exact real arithmetic, so rounding and overflow of floats are not modelled; the infinite first variance is a case of its own.
- TimeFilterClass.TimeFilter.Sample: leaves out the spread it returns, a square root of the variance.
- JSON, and the pace of questions.

Transport and framing:

- The cipher adds sixteen bytes and opens frames only in the order they were sealed; handshakes and keys are not part of this model.
- TransportClass.Session.WriteTyped: takes some number of frames and fails from then on; which of the cipher and the socket failed is not told apart.
- TransportClass.Session.WriteFragments: fails in the same way.
- The upgrade request, deadlines and closing of a WebSocket connection.
- WebSocketClass.Connection.Write: takes some number of writes and fails from then on, instead of failing for a reason.
- ProtobufClass.Writer.Fixed32: also stands for `float`, whose bits are the argument.

Buttons:

- The generation number does not wrap at 2⁶⁴; the devices, grabs and the `Press` another caller may make on the clone are not part of this model.
- InterceptorProofs.AKeyIsInStepUnlessItSticks: is about runs in which the clone takes every event, since `route` ends when it refuses one.
- InterceptorProofs.AlternatingKeysStayInStep: says nothing of the clone once it refused an event, since `route` ends there.

Published state and the delay:

- What the readings are and when they are polled; entity listings; other messages of a client. The two keys the proofs need distinct are the FNV-1a hashes of their names, as numbers.
- A queue of 64 frames that drains by itself is one that may be full at any frame.
- DelayProofs.AFigureIsGivenUp: counts a new holding of the same figure from zero, as the program does.
- DelayKeeperClass.SendspinSwitch.ApplyDelay: models the switch without a client; while sendspin is on its client keeps the delay.
- DelayKeeperClass.SendspinSwitch.KeepDelay: likewise; with a client the switch would also take over the figure saved.
