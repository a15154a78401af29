# Verified model of the edge attendance client

This project models the parts of the edge attendance client whose correctness is an argument rather than a reading,
and proves what they promise. To verify it, run `dafny verify dfyconfig.toml` with Dafny 4.11.

The client follows faces through a camera stream, decides who is present, and delivers what it decided to a server
that is often unreachable. Seven parts are modelled, each in the form the program has: objects with mutable fields are
classes, algorithms on buffers are methods over arrays, loops are loops, and each is tied to a function or a relation
about which the theorems speak.

* **Tracker.** `Assignment`, `Hungarian` and `LinearAssignment` hold the rectangular assignment solver and its
  optimality proof by dual prices. `GaussJordan`, `AxisFilter` and `KalmanFilter` hold the dense filter and its
  refinement to four scalar filters. `Association`, `STracks`, `TrackLists`, `TrackPhases`, `TrackRounds`,
  `TrackTurns`, `TrackerSteps`, `ByteTracker` and `TrackerRuns` hold the life of tracks over shared objects: one frame
  phase by phase, and its invariant over whole runs.
* **Attendance decisions.** `Attendance` is the decision engine as functions, `AttendanceProcessor` the object with
  its batched loops. `AttendancePasses` reduces a batched frame to one step per track, `AttendanceSafety` proves gates
  and budgets in every reachable state, `AttendanceRuns` the cooldown over whole runs and the isolation of tracks
  between two runs. `AttendanceRecords` recomputes from the calls what each counter stands for, `AttendanceVerdicts`
  says frame by frame what happens when, and `AttendanceMatching` puts the engine on top of the gallery matcher.
* **Delivery.** `Outbox` and `OutboxRepository` are the delivery database, `RetryPolicy` and `AttendanceSync` the
  uploading worker, `Coordinator` and `EdgeApplication` the owner's side. `Delivery` interleaves owner, worker,
  database and server step by step, with crashes, lost answers and commits whose end nobody knows; `DeliveryAnswers`
  says which answers move an event and what its attempts count; `OwnerEvents` places the owner's code in it.
* **Gallery hand-over.** `Gallery` holds the stored gallery and the polling worker, `SyncService` the round it belongs
  to, `GalleryHandoff` the interleaving of worker and owner.
* **Matching.** `GalleryMatcher` finds the most similar identity, `Suppression` thins out overlapping detections.
* **Alignment.** `LinearSolve`, `SimilaritySystem` and `LandmarkAlignment` estimate the least-squares similarity
  transform and its inverse.
* **Crop coverage and texture cache.** `Coverage` sums pixel weights with threads that share memory between barriers,
  `TextureCache` keeps the most recently used textures.

`Sums`, `Vectors`, `UnitVectors`, `Medians`, `Pixels`, `Collections`, `IntArithmetic`, `RealArithmetic` and `Texts`
hold what the others share. `float` and `double` are real numbers; where the program tells infinite or undefined costs
apart, so does the model. Square roots are a parameter with `root(x) * root(x) == x`. A transaction ends as the
environment says: applied, rolled back, or applied although its commit reported an error.

## Findings

* A gallery can be stored without ever being installed. When the commit in the poll is applied but reports an error,
  the step ends before it raises its flag; the next poll then sends the new entity tag, is told nothing has changed,
  and the owner keeps matching against the old gallery until the next change or restart.
  `GalleryHandoff.UncertainCommitLosesUpdate` is such a run, `GalleryHandoff.StepKeepsCoveredIff` says that this is
  the only step that loses an update, and `GalleryHandoff.StuckStays` that the state lasts.
* The plain insert of the outbox (used by tests, not by the application) can put an id back that was rejected:
  `OutboxRepository.EnqueueKeepsDisjointIff`.
* A track lost in one frame survives that frame even when no loss is allowed: the age is checked before newly lost
  tracks are added. After a frame all lost tracks are at most max_time_lost frames old exactly when max_time_lost is
  at least 1 or nobody was lost just now (`ByteTracker.LimitMetIff`); `TrackerRuns.LostBeyondLimit` is a run of two
  frames, for every configuration with max_time_lost 0, that exceeds the limit.

## Model

| member | source | states |
|---|---|---|
| `LinearAssignment.Solve` | vision_runtime/bytetrack/assignment.cpp:10-111 | For every cost matrix the matches and the two leftover lists partition rows and columns exactly; told from the matrix entries alone, no other way of pairing rows and columns within max_cost has a smaller sum of costs plus (max_cost + 1e-6) per unmatched row, and no pair within the limit is left unused on both sides; a size mismatch is the only error |
| `Hungarian.Seat` | vision_runtime/bytetrack/assignment.cpp:48-86 | The whole row loop ends with a seating and prices that certify it: feasible, tight on every seat, never positive, zero on free columns |
| `Hungarian.SeatRow` | vision_runtime/bytetrack/assignment.cpp:48-86 | One pass of the outer loop turns a certificate for rows 1..i-1 into one for rows 1..i; search and path walk both terminate |
| `Hungarian.Round` | vision_runtime/bytetrack/assignment.cpp:53-79 | One search round keeps the alternating tree, its tight edges and its labels, and uses exactly one more column |
| `Hungarian.Augment` | vision_runtime/bytetrack/assignment.cpp:81-85 | Walking the stored path back to index 0 terminates and seats one more row without breaking the certificate |
| `Hungarian.RelaxKeeps` | vision_runtime/bytetrack/assignment.cpp:58-69 | Relabelling from the newly used column keeps every label equal to the least slack seen, with its origin |
| `Hungarian.ShiftKeeps` | vision_runtime/bytetrack/assignment.cpp:70-78 | Moving the prices by the least label keeps all prices feasible and makes the next edge tight |
| `Hungarian.FreeColumn` | vision_runtime/bytetrack/assignment.cpp:28-31 | With fewer seated rows than columns there is a free column, so every search ends |
| `AssignmentProblem.DualBound` | vision_runtime/bytetrack/assignment.cpp:36-46 | Weak duality: any feasible prices bound from below every way to give the rows distinct columns |
| `AssignmentProblem.DualReached` | vision_runtime/bytetrack/assignment.cpp:36-46 | A certified seating costs exactly the value of its prices |
| `AssignmentProblem.Problem.CompletionCost` | vision_runtime/bytetrack/assignment.cpp:31-46 | Filling a matching up with dummy columns costs exactly its objective, so the padded problem is the original one |
| `AssignmentProblem.Problem.Filled` | vision_runtime/bytetrack/assignment.cpp:31-46 | Every partial matching can be filled up with distinct dummy columns |
| `LinearAssignment.SeatsAreAllowed` | vision_runtime/bytetrack/assignment.cpp:90-101 | In an optimal seating no row sits on a forbidden real column, so the final filter drops nothing |
| `LinearAssignment.LeftoversAreForbidden` | vision_runtime/bytetrack/assignment.cpp:104-109 | A row on a dummy column and a free real column are never an allowed pair |
| `LinearAssignment.ReadOffOptimal` | vision_runtime/bytetrack/assignment.cpp:88-102 | The matches read off a certified seating are an optimal partial matching |
| `LinearAssignment.OptimalIsLeast` | vision_runtime/bytetrack/assignment.cpp:31-46 | An optimal matching has the least total over the row-major entries: the sum of the entries picked and a millionth more than the limit for each row left alone |
| `Association.CostMatrix` | vision_runtime/bytetrack/association.cpp:25-43 | Every entry is one minus the overlap of its pair, weighted by the detection score where scores are fused |
| `Association.IouBounds` | vision_runtime/bytetrack/association.cpp:9-21 | Overlap is symmetric and between 0 and 1 |
| `Association.FullOverlap` | vision_runtime/bytetrack/association.cpp:9-21 | Overlap is 1 only for boxes with the same positive area, all of it shared |
| `Association.OverlapsItself` | vision_runtime/bytetrack/association.cpp:9-21 | A box with area overlaps itself fully |
| `Association.IouCountsCells` | vision_runtime/bytetrack/association.cpp:9-21 | For boxes on whole corners the overlap is the number of unit cells in both divided by the number in at least one |
| `Association.FusedCost` | vision_runtime/bytetrack/association.cpp:34-41 | Fusing scores multiplies the overlap by the score of the detection |
| `Association.CostOfMeeting` | vision_runtime/bytetrack/association.cpp:34-41 | A track exactly where the detection is costs 0, or one minus the score of the detection where scores are fused; without overlap the cost is 1 either way |
| `GaussJordan.Invert4` | vision_runtime/bytetrack/kalman_filter.cpp:29-77 | Whatever is returned is an inverse on both sides; a matrix is refused exactly when elimination meets a column without an entry of at least 1e-12 to choose, a diagonal one exactly when a diagonal entry is below 1e-12 |
| `KalmanFilter.Initiate` | vision_runtime/bytetrack/kalman_filter.cpp:81-101 | A new state has the measured position, no velocity, the initial variances of its height, and four independent sound blocks |
| `KalmanFilter.Predict` | vision_runtime/bytetrack/kalman_filter.cpp:103-144 | On a split state the dense 8x8 product equals four scalar two-state predictions; soundness (symmetric, split, positive semidefinite blocks) is kept |
| `KalmanFilter.Update` | vision_runtime/bytetrack/kalman_filter.cpp:146-213 | On a sound state the dense correction equals four scalar corrections and keeps soundness; it throws exactly when some projected variance is below the pivot limit; the covariance returned is symmetric |
| `KalmanFilter.PredictSplits` | vision_runtime/bytetrack/kalman_filter.cpp:113-142 | The dense prediction of a split state is the scalar prediction of each axis |
| `KalmanFilter.CorrectionSplits` | vision_runtime/bytetrack/kalman_filter.cpp:172-203 | The dense gain and correction of a split state are the scalar ones of each axis |
| `KalmanFilter.SymmetriseNothing` | vision_runtime/bytetrack/kalman_filter.cpp:204-211 | On a split result the final averaging changes nothing |
| `KalmanFilter.TallBoxesNeverThrow` | vision_runtime/bytetrack/kalman_filter.cpp:161-172 | With an estimated height of at least 2e-5 no update of a sound state throws |
| `KalmanFilter.FirstUpdateAccepts` | vision_runtime/bytetrack/kalman_filter.cpp:86-98 | The first update after a start is accepted exactly when 0.0125 times the squared measured height reaches the pivot limit |
| `KalmanFilter.FirstPredictionInNumbers` | vision_runtime/bytetrack/kalman_filter.cpp:81-170 | After the start and one prediction: position variance 0.01640625, velocity variance 0.0039453125, covariance 0.00390625 and measurement noise 0.0025 times the squared height; for the aspect ratio 0.0002000001, 2e-10, 1e-10 and 0.01 |
| `AxisFilter.PredictKeepsPsd` | vision_runtime/bytetrack/kalman_filter.cpp:103-144 | Scalar prediction keeps a two-state covariance positive semidefinite |
| `AxisFilter.UpdateKeepsPsd` | vision_runtime/bytetrack/kalman_filter.cpp:146-213 | Scalar correction keeps it positive semidefinite and lowers both variances |
| `AxisFilter.UpdateInterpolates` | vision_runtime/bytetrack/kalman_filter.cpp:186-193 | The corrected coordinate lies between the predicted and the measured one |
| `AxisFilter.PredictMeans` | vision_runtime/bytetrack/kalman_filter.cpp:103-144 | Prediction adds the velocity to the position, and the variance of every combination of the two changes accordingly, plus the noise |
| `AxisFilter.UpdateWeighs` | vision_runtime/bytetrack/kalman_filter.cpp:172-203 | Correction weighs the prediction by the variance of the measurement and the measurement by that of the prediction, in all five numbers of an axis |
| `AxisFilter.UpdateIsBest` | vision_runtime/bytetrack/kalman_filter.cpp:172-203 | No other weighting of prediction and measurement has a smaller variance than the corrected coordinate |
| `STracks.STrack.Predict` | vision_runtime/bytetrack/bytetrack.cpp:68-75 | Each coordinate moves as the scalar filter says, on a sound filter that stays sound; a track not followed first loses its height velocity, one without a filter does nothing |
| `STracks.STrack.Activate` | vision_runtime/bytetrack/bytetrack.cpp:77-88 | Sets id, state and frames, and starts the filter at the first detection; only tracks of frame 1 are confirmed at once |
| `STracks.STrack.ReActivate` | vision_runtime/bytetrack/bytetrack.cpp:90-101 | Takes over the detection with the scalar corrections of its box, keeps id and start, resets the length; fails exactly when the filter refuses |
| `STracks.STrack.Update` | vision_runtime/bytetrack/bytetrack.cpp:103-115 | Takes over the detection with the scalar corrections of its box, keeps id and start, lengthens the track by one; fails exactly when the filter refuses |
| `STracks.BoxMeans` | vision_runtime/bytetrack/bytetrack.cpp:32-50 | The box of a started track has its centre at the filter position, the filter height, and aspect ratio times height for width; that of a detection has its own corners |
| `STracks.StartGivesBack` | vision_runtime/bytetrack/bytetrack.cpp:32-62 | A filter started at a detection at least 1e-6 high stands for exactly the corners of the detection |
| `STracks.MeasurementMeans` | vision_runtime/bytetrack/bytetrack.cpp:52-66 | The filter is told the centre, the height, and the aspect ratio that gives the width back |
| `TrackLists.JointTracks` | vision_runtime/bytetrack/bytetrack.cpp:159-171 | Joins by id: all of the first list, then the tracks of the second whose id is new; with unique ids exactly the union |
| `TrackLists.SubtractTracks` | vision_runtime/bytetrack/bytetrack.cpp:173-180 | Exactly the tracks whose id is not in the second list |
| `TrackLists.RemoveDuplicates` | vision_runtime/bytetrack/bytetrack.cpp:189-217 | A track of the first list stays unless it overlaps an at least as old one of the second, one of the second unless it overlaps a strictly older one of the first |
| `TrackLists.NoTwinsLeft` | vision_runtime/bytetrack/bytetrack.cpp:203-216 | Of every pair above the overlap limit at least one goes |
| `TrackLists.TwinsMean` | vision_runtime/bytetrack/bytetrack.cpp:189-217 | A followed track goes exactly when it overlaps a lost one by more than 0.85 that has lived at least as long, a lost one exactly when it so overlaps a followed one that has lived longer |
| `TrackPhases.Associate` | vision_runtime/bytetrack/bytetrack.cpp:238-252 | No other way of pairing the boxes as they are, each pair within the threshold, has a smaller sum of overlap costs plus a millionth more than the threshold for each track left alone; no pair within the threshold is left over |
| `TrackPhases.MatchStage` | vision_runtime/bytetrack/bytetrack.cpp:280-293 | The matching is optimal and maximal for the given threshold; each matched track takes over its detection, unmatched ones stay, the two report lists hold exactly the matched tracks that were followed or not, and nothing fails while all filters are tall enough |
| `TrackPhases.SplitInput` | vision_runtime/bytetrack/bytetrack.cpp:258-269 | Exactly the detections above the track threshold and exactly those strictly between the two thresholds, each once and in input order; a score equal to a threshold is in neither |
| `TrackPhases.SplitMeans` | vision_runtime/bytetrack/bytetrack.cpp:258-269 | A detection is among the high ones exactly when it scores above the track threshold, among the low ones exactly when its score is strictly between the two |
| `TrackPhases.AgeOut` | vision_runtime/bytetrack/bytetrack.cpp:345-350 | Exactly the lost tracks unseen for longer than allowed are marked removed |
| `TrackPhases.StartTracks` | vision_runtime/bytetrack/bytetrack.cpp:337-343 | Starts a track for each leftover detection that scores enough, handing out consecutive ids |
| `TrackRounds.FirstRound` | vision_runtime/bytetrack/bytetrack.cpp:277-292 | Confirmed and lost tracks are predicted, then matched optimally with the high-score detections under the match threshold |
| `TrackRounds.SecondRound` | vision_runtime/bytetrack/bytetrack.cpp:294-318 | The tracks still followed are matched optimally with the low-score detections under the second threshold; those left over are lost |
| `TrackRounds.ThirdRound` | vision_runtime/bytetrack/bytetrack.cpp:320-335 | Unconfirmed tracks are matched optimally with the high-score detections left over under the third threshold; those left over are removed |
| `TrackRounds.FollowTracks` | vision_runtime/bytetrack/bytetrack.cpp:271-318 | After two rounds each confirmed track is refreshed or newly lost, each lost one refreshed by a high-score detection or only predicted, no two sharing a detection |
| `TrackRounds.RoundThree` | vision_runtime/bytetrack/bytetrack.cpp:320-343 | Unconfirmed tracks are refreshed by a leftover high-score detection or removed; new tracks get the detections then left, with consecutive ids |
| `TrackTurns.Advance` | vision_runtime/bytetrack/bytetrack.cpp:254-350 | Each old track comes out in exactly one way: followed, lost, removed or still waiting; lost and unconfirmed ones are followed only on a score above the threshold; all followed tracks hold different detections, and no detection that scores enough for a new track goes unused; nothing fails while all filters are tall enough |
| `TrackTurns.EverythingIsUsed` | vision_runtime/bytetrack/bytetrack.cpp:280-343 | A high-score detection either is taken in the first round, or is left for the third, where it is taken or starts a track |
| `TrackerSteps.Rebuild` | vision_runtime/bytetrack/bytetrack.cpp:352-360 | The new lists hold exactly the followed tracks, and the lost ones not found again and not removed |
| `TrackerSteps.DroppedWaits` | vision_runtime/bytetrack/bytetrack.cpp:312-318 | A track lost in this frame is exactly one frame old |
| `TrackerSteps.WaitingStays` | vision_runtime/bytetrack/bytetrack.cpp:345-350 | A track lost before and kept is between 2 and max_time_lost frames old |
| `TrackerSteps.Step` | vision_runtime/bytetrack/bytetrack.cpp:254-361 | One frame keeps the lists in order: unique ids below the next one, followed tracks seen in this frame, lost ones confirmed and at most max(1, max_time_lost) frames old; old and new tracks are split exactly |
| `TrackerSteps.OldTrackSettles` | vision_runtime/bytetrack/bytetrack.cpp:345-361 | An old track ends on exactly one of the lists, in the state that goes with it |
| `ByteTracker.ByteTracker.constructor` | vision_runtime/bytetrack/bytetrack.cpp:232-236 | Starts empty with the thresholds and the age limit derived from the configuration |
| `ByteTracker.TimeLostIs` | vision_runtime/bytetrack/bytetrack.cpp:232-236 | The age limit is frame rate times buffer over thirty, without its fraction |
| `ByteTracker.ByteTracker.Update` | vision_runtime/bytetrack/bytetrack.cpp:254-373 | Keeps the invariant over every frame and says how each old track came out; splits old and new ids exactly into followed, lost and newly removed, then drops the shorter-lived of each overlapping pair; each followed track holds a detection of this frame, no two the same, and no detection that scores enough goes unused; reports on exactly the confirmed tracks, each where its filter puts it (centre, height and width), and a new confirmed track at the corners of its detection; every reported track that started after frame 1 held, in the frame after its start, a detection of that frame above the threshold; lost tracks are within max_time_lost exactly when it is at least 1 or nobody was lost just now; never fails while all filters are tall enough |
| `ByteTracker.ByteTracker.Reset` | vision_runtime/bytetrack/bytetrack.cpp:375-377 | Back to the empty state, ids from 1 |
| `ByteTracker.RunFrame` | vision_runtime/bytetrack/bytetrack.cpp:254-367 | The same on the lists, before they are stored |
| `ByteTracker.GoneForGood` | vision_runtime/bytetrack/bytetrack.cpp:352-366 | Over a whole run, an id that was handed out and is no longer in use is never in use again |
| `ByteTracker.IdsTurnOver` | vision_runtime/bytetrack/bytetrack.cpp:341-362 | After a frame every id in use was in use before or is one of the fresh ones |
| `ByteTracker.FollowedProven` | vision_runtime/bytetrack/bytetrack.cpp:320-330 | An unconfirmed track that is followed enters the record of this frame, the one right after its start, with the high-score detection it holds; a confirmed one keeps its place in an older record |
| `ByteTracker.ReportedSeenTwice` | vision_runtime/bytetrack/bytetrack.cpp:366-369 | Every reported track that started after frame 1 held a high-score detection in the frame after its start, as the history shows |
| `ByteTracker.RecordConserves` | vision_runtime/bytetrack/bytetrack.cpp:280-343 | The record of a frame gives each followed track a detection of that frame, and none to two tracks |
| `ByteTracker.LimitMetIff` | vision_runtime/bytetrack/bytetrack.cpp:345-360 | After a frame all lost tracks are at most max_time_lost frames old exactly when it is at least 1 or no track followed before is lost now |
| `TrackerRuns.LostBeyondLimit` | vision_runtime/bytetrack/bytetrack.cpp:345-360 | With max_time_lost 0, a frame with one detection and an empty one leave a lost track that is one frame old |
| `ByteTracker.ThinnedInOrder` | vision_runtime/bytetrack/bytetrack.cpp:362-364 | Thinning out keeps the lists in order |
| `ByteTracker.ResultsOf` | vision_runtime/bytetrack/bytetrack.cpp:366-369 | Exactly the confirmed tracks are reported, in list order |
| `ByteTracker.ReportShows` | vision_runtime/bytetrack/bytetrack.cpp:124-140 | Each result names its track with its fields and the box its filter stands for |
| `ByteTracker.StartedAtCorners` | vision_runtime/bytetrack/bytetrack.cpp:77-140 | A track just started is reported at the corners of its detection |
| `AttendanceProcessor.AttendanceProcessor.Process` | vision_runtime/pipeline/attendance_processor.cpp:149-312 | The batched loops compute the engine function: same state, same events, and snapshots that show the resulting state of each track and the size of its face; a frame out of order or with a repeated track changes nothing |
| `Medians.FindMedian` | vision_runtime/pipeline/attendance_processor.cpp:15-22 | Sorting a copy and taking the middle gives the median |
| `Medians.MedianOfSorted` | vision_runtime/pipeline/attendance_processor.cpp:15-22 | Whatever way of sorting gives the same median |
| `Medians.MedianIsInTheMiddle` | vision_runtime/pipeline/attendance_processor.cpp:15-22 | The median is half-way between the entries next to the middle; the lower half of the sorted scores is not above it, the upper half not below |
| `AttendanceProcessor.AttendanceProcessor.SetGallery` | vision_runtime/pipeline/attendance_processor.cpp:134-138 | A failed installation changes nothing; a successful one forgets all tracks but no cooldown |
| `AttendanceProcessor.AttendanceProcessor.ResetSession` | vision_runtime/pipeline/attendance_processor.cpp:143-148 | Forgets tracks and counters but no cooldown |
| `AttendanceProcessor.AttendanceProcessor.BeginPass` | vision_runtime/pipeline/attendance_processor.cpp:182-219 | The first loop is the per-track opening step for each track, picking exactly those due for a liveness check |
| `AttendanceProcessor.AttendanceProcessor.RecognizePass` | vision_runtime/pipeline/attendance_processor.cpp:272-311 | The recognition loop is the fold over the picked tracks with the shared cooldown map |
| `AttendancePasses.DecideAt` | vision_runtime/pipeline/attendance_processor.cpp:182-312 | Four batched passes do to each track exactly its own step, whatever else is in the frame, up to one bit: whether the identity is in cooldown |
| `AttendanceSafety.StepKeepsOk` | vision_runtime/pipeline/attendance_processor.cpp:182-312 | The step of one track keeps votes, budgets and phase conditions |
| `AttendanceSafety.ProcessKeepsOk` | vision_runtime/pipeline/attendance_processor.cpp:149-312 | Every frame keeps, for every track: attempts = live + attack votes = scores within the budget; recognition and later phases only after enough live and too few attack votes; recognition attempts within maximum plus extra |
| `AttendanceSafety.EventIsEarned` | vision_runtime/pipeline/attendance_processor.cpp:284-305 | Every event of a frame comes from a track recognised in it that passed the vote, whose first vote is no older than the time to live, and whose look-up in the installed gallery gave that identity with similarity and margin above their thresholds, with the identity out of cooldown |
| `AttendanceSafety.OneEventPerIdentity` | vision_runtime/pipeline/attendance_processor.cpp:284-305 | Per frame an identity gets an event exactly when it is out of cooldown and some picked track matches it acceptably, and then only one |
| `AttendanceSafety.AnnouncedIffClaimed` | vision_runtime/pipeline/attendance_processor.cpp:272-306 | Over the recognition loop an identity is announced exactly when it was not in cooldown and is claimed |
| `AttendanceSafety.RecognizedIffEvent` | vision_runtime/pipeline/attendance_processor.cpp:288-305 | An accepted track ends recognised exactly when the event is its own, otherwise as a duplicate |
| `AttendanceRuns.RunKeepsOk` | vision_runtime/pipeline/attendance_processor.cpp:134-312 | The safety invariant holds after any sequence of process, reset and set_gallery calls |
| `AttendanceRuns.EventsAreSpaced` | vision_runtime/pipeline/attendance_processor.cpp:170-176 | Over any such sequence two events of one identity are at least the cooldown apart |
| `AttendanceRuns.FrameSpacing` | vision_runtime/pipeline/attendance_processor.cpp:170-176 | One frame keeps the history spaced and remembered by the cooldown map |
| `AttendanceRuns.StepBlurs` | vision_runtime/pipeline/attendance_processor.cpp:284-305 | The cooldown bit decides nothing but recognised against duplicate |
| `AttendanceRuns.TracksAreIsolated` | vision_runtime/pipeline/attendance_processor.cpp:182-312 | Two runs: with many tracks or alone on the same calls, a track has the same state throughout, up to recognised against duplicate |
| `AttendanceRuns.ReachableIsSafe` | vision_runtime/pipeline/attendance_processor.cpp:134-312 | From the start on, after any calls: every track keeps its invariant and events of one identity are a cooldown apart |
| `AttendanceRuns.ReachableTracks` | vision_runtime/pipeline/attendance_processor.cpp:186-310 | In every reachable state the votes add up within their budget, recognition attempts within theirs, and no track is past the gate without enough live and with too many attack votes |
| `AttendanceRuns.ReachableEventsAreEarned` | vision_runtime/pipeline/attendance_processor.cpp:284-305 | Every event of every run is earned in its frame |
| `AttendanceRuns.ReachableTracksAreIsolated` | vision_runtime/pipeline/attendance_processor.cpp:182-312 | The two-run theorem from the start on |
| `AttendanceRecords.RecordsHold` | vision_runtime/pipeline/attendance_processor.cpp:149-312 | In every reachable state a track agrees with the record of its checks and faces recomputed from the calls: its votes count the live and the attack scores, its evidence dates from the first score, checks and recognitions keep their cadence, attempts and retries are counted, count is the number of faces recognised since its last fresh start or retry, each coordinate of sum is the sum of that coordinate over exactly those faces, the match is what the gallery answers to their average, and a verdict dates from the last face |
| `AttendanceRecords.FaceMatches` | vision_runtime/pipeline/attendance_processor.cpp:272-310 | One recognition adds exactly its face to the sum, the count and the best quality |
| `AttendanceRecords.MeanIsAverage` | vision_runtime/pipeline/attendance_processor.cpp:278-283 | Dividing such a sum by the count gives the average of the faces, and nothing else is their average |
| `AttendanceVerdicts.RememberedIff` | vision_runtime/pipeline/attendance_processor.cpp:162-169 | A track is remembered after a frame exactly when the frame names it or it was seen within the allowed number of frames; unnamed it stays as it is |
| `AttendanceVerdicts.VerdictStandsIff` | vision_runtime/pipeline/attendance_processor.cpp:186-195 | A recognised or duplicate track stays as it is exactly as long as the cooldown is not over |
| `AttendanceVerdicts.RejectionStands` | vision_runtime/pipeline/attendance_processor.cpp:192-194 | A rejected or unknown track stays as it is as long as it is remembered |
| `AttendanceVerdicts.DeferredRetriedIff` | vision_runtime/pipeline/attendance_processor.cpp:202-212 | A deferred track with fresh evidence gets a further attempt exactly when it has one left and the quality has grown by the configured factor; otherwise it stays as it is |
| `AttendanceVerdicts.CheckedIff` | vision_runtime/pipeline/attendance_processor.cpp:196-218 | A track is checked for liveness exactly when its face is usable, a gallery is installed, and it starts anew or is undecided with its last check long enough ago |
| `AttendanceVerdicts.RecognisedIff` | vision_runtime/pipeline/attendance_processor.cpp:257-270 | A usable face is recognised exactly when its track is in recognition, is retried or has just passed the vote, with its last recognition long enough ago |
| `AttendanceVerdicts.OutcomeIs` | vision_runtime/pipeline/attendance_processor.cpp:243-310 | After a recognition the track is recognised or a duplicate exactly when the match is valid with similarity and margin reaching their thresholds, and otherwise in recognition, deferred or unknown as its budget says; after a check the verdict is what the votes say |
| `AttendanceVerdicts.AnnouncedIffNamed` | vision_runtime/pipeline/attendance_processor.cpp:170-306 | Over any run: a frame announces an identity exactly when some track names it from a face recognised in that frame and every earlier event of it is at least a cooldown ago |
| `AttendanceMatching.EventNamesNearest` | vision_runtime/pipeline/attendance_processor.cpp:284-303 | The identity of every event of a run is the one whose template in the gallery then installed is nearest to the direction of the average of the embeddings recognised for the track since its last fresh start or retry, the last of them in this frame; its similarity is their cosine, and the templates of everybody else are farther away by at least the margin required |
| `AttendanceMatching.OneAverage` | vision_runtime/pipeline/attendance_processor.cpp:278-283 | Faces have one average only, and that of a single face is its embedding |
| `AttendanceMatching.Ask` | vision_runtime/pipeline/attendance_processor.cpp:279-283 | What the matcher returns is what the engine takes its gallery to answer |
| `AttendanceMatching.AnswerIsUnique` | vision_runtime/pipeline/gallery_matcher.cpp:32-75 | A gallery has only one answer to a query |
| `OutboxRepository.OutboxRepository.constructor` | edge_app/storage/schema.hpp:5-33 | A new database is empty, with no pause |
| `OutboxRepository.OutboxRepository.Migrate` | edge_app/storage/schema.hpp:35-43 | The upgraded database keeps its rows and pauses until the latest deadline of any row |
| `OutboxRepository.OutboxRepository.Enqueue` | edge_app/storage/outbox_repository.cpp:21-31 | A plain insert, refused for an id that waits for upload |
| `OutboxRepository.EnqueueKeepsDisjointIff` | edge_app/storage/outbox_repository.cpp:21-31 | The plain insert keeps waiting and rejected ids apart exactly when the id is not a rejected one |
| `OutboxRepository.OutboxRepository.EnsureEnqueued` | edge_app/storage/outbox_repository.cpp:32-66 | Stores the record, or finds it stored or rejected; a different payload under the id is a conflict; applied, rolled back, or applied though reported as failed |
| `Outbox.EnqueueIsIdempotent` | edge_app/storage/outbox_repository.cpp:37-65 | Retrying after an uncertain commit changes nothing and keeps waiting and rejected ids apart |
| `OutboxRepository.OutboxRepository.Due` | edge_app/storage/outbox_repository.cpp:67-81 | Returns the first min(limit, 100) eligible rows by occurrence and id |
| `Outbox.FirstDueIsUnique` | edge_app/storage/outbox_repository.cpp:71-76 | There is only one such list |
| `Outbox.OldestGoFirst` | edge_app/storage/outbox_repository.cpp:70-76 | Older events come first, those of one time in dictionary order of their ids, and no due event left out of a batch is older than one in it; nothing due is left out of a batch that is not full |
| `Texts.BeforeIff` | edge_app/storage/outbox_repository.cpp:73-73 | The order of texts is that of a dictionary: the first difference decides, and a beginning comes before what it begins |
| `OutboxRepository.OutboxRepository.Retry` | edge_app/storage/outbox_repository.cpp:82-104 | Postpones the listed rows and every upload with them; nothing for no rows |
| `Outbox.RowsRetriedExactly` | edge_app/storage/outbox_repository.cpp:93-102 | Exactly the listed rows are postponed, attempts capped at 30; no row comes or goes |
| `OutboxRepository.OutboxRepository.Acknowledge` | edge_app/storage/outbox_repository.cpp:105-124 | An unknown disposition changes nothing; otherwise all receipts are settled in one transaction or none |
| `Outbox.AcknowledgeSettles` | edge_app/storage/outbox_repository.cpp:112-122 | Receipts remove exactly the rows they name, keep rejected ones aside with their payload, and never fail on a store without overlap |
| `OutboxRepository.OutboxRepository.DeadLetter` | edge_app/storage/outbox_repository.cpp:125-132 | Rejects all listed rows in one transaction or none |
| `Outbox.BuryMoves` | edge_app/storage/outbox_repository.cpp:9-19 | Rejecting moves exactly the listed rows with their payloads, and never fails on a store without overlap |
| `RetryPolicy.RetryAtBounds` | edge_app/sync/retry_policy.cpp:17-40 | The next try is never before the delay or the server ask for, at most half a second after the later of the two, and without a readable Retry-After at most five minutes and half a second away |
| `RetryPolicy.DelayGrows` | edge_app/sync/retry_policy.cpp:19-19 | The wait grows with the attempts from one second to five minutes, reached from nine attempts on |
| `RetryPolicy.DelaysInNumbers` | edge_app/sync/retry_policy.cpp:19-19 | The waits are 1, 2, 4, 8, 16, 32, 64, 128, 256 and then always 300 seconds |
| `AttendanceSync.ParseReceipts` | edge_app/sync/wire_format.cpp:137-157 | Accepted exactly when every receipt is for a sent record, none twice, each with a known disposition |
| `AttendanceSync.UnackedAre` | edge_app/sync/attendance_sync.cpp:59-62 | Exactly the sent records without a receipt are left over, in order |
| `AttendanceSync.MaxAttemptsIsMax` | edge_app/sync/attendance_sync.cpp:19-24 | The wait is computed from the most tried record of the batch |
| `AttendanceSync.AttendanceSync.Step` | edge_app/sync/attendance_sync.cpp:12-75 | One upload does to the outbox what the status says, in one or two transactions: 401 and 403 change nothing and block; 400 and 422 reject exactly the events sent; a success with valid receipts removes exactly the events named, keeping the rejected ones aside, and postpones the rest of the batch; anything else moves nothing and has each event sent fail once more and wait at least a second; a storage error ends the step |
| `AttendanceSync.EffectTakes` | edge_app/sync/attendance_sync.cpp:41-70 | The transaction for an answer never fails on a store without overlap, and does what the status says |
| `AttendanceSync.UploadTakes` | edge_app/sync/attendance_sync.cpp:12-75 | The same for a whole upload, told from the status and the ends of its transactions |
| `Delivery.NoCommittedEventIsLost` | edge_app/storage/outbox_repository.cpp:32-132 | Over every interleaving of staging, commits that fail or succeed unnoticed, crashes, lost or partial answers and failed acknowledgements, each committed id is waiting, rejected or at the server, and waiting and rejected ids never overlap |
| `Delivery.StepKeeps` | edge_app/sync/attendance_sync.cpp:12-75 | Each protocol step keeps the invariant behind it |
| `Delivery.ReportedIsSafeForEver` | edge_app/app/attendance_coordinator.cpp:51-59 | An event whose commit was reported stays safe for ever |
| `Delivery.PayloadNeverChanges` | edge_app/app/attendance_coordinator.cpp:32-59 | An id shows one payload at all times and in all places |
| `Delivery.NeverConflicts` | edge_app/storage/outbox_repository.cpp:39-59 | No staged record ever meets a conflict |
| `Delivery.HistoryGrows` | edge_app/app/attendance_coordinator.cpp:32-59 | Committed ids and their payloads are never forgotten |
| `Delivery.DueIffPauseIsOver` | edge_app/storage/outbox_repository.cpp:67-81 | With a positive limit something is due exactly when the outbox is not empty and the pause is over |
| `Delivery.MigrationIsPaced` | edge_app/storage/schema.hpp:35-43 | After the upgrade no row has a deadline beyond the pause |
| `Delivery.PauseGrows` | edge_app/storage/outbox_repository.cpp:89-92 | The end of the pause never moves back |
| `Delivery.NothingIsSentTooEarly` | edge_app/sync/attendance_sync.cpp:32-35 | After an upload without an answer, or with one that is neither a success with receipts nor 400, 401, 403 or 422, nothing, old or new, is fetched before the delay and the Retry-After, in seconds or as a date, are over, restarts included |
| `Delivery.MissingReceiptsWait` | edge_app/sync/attendance_sync.cpp:64-66 | The same after an answer that left records without a receipt |
| `DeliveryAnswers.WhenEventsLeave` | edge_app/sync/attendance_sync.cpp:36-66 | Over any run an event stops waiting only in a step that settles an answer to a batch holding it: 400, 422, or a success with a valid receipt for it; it is rejected then exactly for 400, 422 or a receipt that rejects it, and otherwise the server has it |
| `DeliveryAnswers.FailureMovesNothing` | edge_app/sync/attendance_sync.cpp:32-70 | After no answer, or any status outside 2xx, 400, 401, 403 and 422, or a success without valid receipts, waiting and rejected ids are the same, and each event sent has one attempt more and its deadline at least a second ahead |
| `DeliveryAnswers.RefusalsInRuns` | edge_app/sync/attendance_sync.cpp:38-43 | 400 and 422 reject exactly the events sent; 401 and 403 change nothing |
| `DeliveryAnswers.AttemptsAreFailures` | edge_app/storage/outbox_repository.cpp:82-104 | The attempts of an event are the failed uploads since it was stored, counted up to thirty |
| `Delivery.UploadIsEvents` | edge_app/sync/attendance_sync.cpp:12-75 | A sync step nobody interferes with is these protocol events, with the same final store |
| `Coordinator.AttendanceCoordinator.Stage` | edge_app/app/attendance_coordinator.cpp:32-50 | All records of a frame are staged or none, each with every field of its event, the device and the published gallery version |
| `Coordinator.AttendanceCoordinator.CommitNext` | edge_app/app/attendance_coordinator.cpp:51-59 | A staged record leaves the queue only when its commit is reported |
| `Coordinator.AttendanceCoordinator.RefreshGallery` | edge_app/app/attendance_coordinator.cpp:12-26 | The version changes exactly when the stored gallery was installed, and then names it |
| `EdgeApplication.EdgeApplication.Persist` | edge_app/app/edge_application.cpp:100-112 | Records are stored in order, each once, up to exactly the first that meets a conflict or a failed commit; what that one leaves behind is what its commit says |
| `EdgeApplication.EdgeApplication.ReloadGallery` | edge_app/app/edge_application.cpp:125-146 | The flag is taken over before the reload, the wish to reload lasts until an installation succeeds, and that is exactly when one is wanted, due, accepted and for the right model |
| `EdgeApplication.EdgeApplication.Iterate` | edge_app/app/edge_application.cpp:91-160 | While records are staged no frame is looked at, no flag taken over and no gallery installed; otherwise the gallery is reloaded if wanted, due and possible, and the frame is staged under the version then published |
| `OwnerEvents.StageIsEvent` | edge_app/app/attendance_coordinator.cpp:32-50 | Staging a frame under new ids is one event of the delivery protocol |
| `OwnerEvents.PersistIsEvents` | edge_app/app/edge_application.cpp:100-112 | Persisting without interference is one commit event for each record up to the first that is not stored, with the same outbox and the same records left |
| `Gallery.GalleryRepository.Replace` | edge_app/storage/gallery_repository.cpp:7-38 | Replaces the stored gallery as a whole, with embeddings of length one, or not at all; a template without identity or direction refuses the whole |
| `Gallery.StoredAreUnit` | edge_app/storage/gallery_repository.cpp:12-18 | Every stored template is acceptable again, of length one, and normalising it again changes nothing |
| `Gallery.StoredKeepDirection` | edge_app/storage/gallery_repository.cpp:12-36 | Each template is stored under its id, for the same person and in the same direction |
| `UnitVectors.UnitKeepsDirection` | edge_app/domain/gallery_snapshot.cpp:6-19 | The unit vector times the length is the vector, and the squared length is the squared distance from the origin |
| `UnitVectors.UnitOfUnit` | edge_app/domain/gallery_snapshot.cpp:6-19 | Normalising a vector a second time changes nothing |
| `Gallery.ByIdFinds` | edge_app/storage/gallery_repository.cpp:28-36 | Every template is stored under its own id |
| `Gallery.GallerySync.Step` | edge_app/sync/gallery_sync.cpp:11-63 | One poll does to the stored gallery, flag, deadline and attempts what the function of the answer says, whatever the answer and the end of the commit |
| `Gallery.ChangeIsFlagged` | edge_app/sync/gallery_sync.cpp:48-60 | A changed gallery came with status 200 and is flagged exactly when its commit was reported; the flag is never lowered and never raised for nothing |
| `Gallery.PollsArePaced` | edge_app/sync/gallery_sync.cpp:11-63 | The next poll comes a minute after a success and no sooner than the back-off after a failure; a refusal or a storage error changes no deadline |
| `Gallery.PollFollowsStatus` | edge_app/sync/gallery_sync.cpp:11-63 | Told from the status: before its time nothing changes; 401 and 403 block and change nothing; a storage failure ends the poll; not modified or a stored document sets the next poll a minute ahead; anything else counts one failure more and waits at least the back-off |
| `Gallery.GallerySync.RequestRefresh` | edge_app/sync/gallery_sync.hpp:20-24 | Shortens ordinary polling but never the wait after a failure |
| `Gallery.BackOffSurvivesNotices` | edge_app/sync/gallery_sync.hpp:20-24 | A notification after a failed poll changes nothing |
| `Gallery.GallerySync.TakeDirty` | edge_app/sync/gallery_sync.hpp:16-19 | Reads and clears the flag in one step |
| `SyncService.SyncService.Step` | edge_app/sync/sync_service.cpp:20-35 | While refused nothing is sent and nothing changes; otherwise the upload comes first, the poll follows only if the upload got through, both do exactly what their functions say, and a refusal comes only from one of them |
| `SyncService.SyncService.SetToken` | edge_app/sync/sync_service.cpp:10-19 | Only a different credential lifts the refusal and polls at once |
| `GalleryHandoff.NoGalleryUpdateIsLost` | edge_app/app/edge_application.cpp:93-152 | Under every interleaving without an unnoticed commit, a stored gallery that is not installed is flagged, wanted, or about to be flagged |
| `GalleryHandoff.StepKeepsCoveredIff` | edge_app/sync/gallery_sync.cpp:50-57 | A step keeps that property exactly when it is not a commit that was applied but reported as failed, of a new gallery, with no flag pending |
| `GalleryHandoff.UnnoticedLosesIff` | edge_app/sync/gallery_sync.cpp:50-57 | After such a commit the update is lost at once, unless the owner has read a gallery it is about to install |
| `GalleryHandoff.DoomedUntilInstall` | edge_app/app/edge_application.cpp:125-146 | In that case it is lost exactly when that installation succeeds |
| `GalleryHandoff.FirstUnnoticedCommit` | edge_app/sync/gallery_sync.cpp:50-57 | Over a run: nothing is lost up to the first such commit, and then at once or with the pending installation |
| `GalleryHandoff.UncertainCommitLosesUpdate` | edge_app/sync/gallery_sync.cpp:52-53 | Two steps that lose an update: the gallery is stored, the commit reported as failed, the flag never raised |
| `GalleryHandoff.StuckStays` | edge_app/sync/gallery_sync.cpp:32-37 | From there the owner keeps the old gallery as long as polls are answered with not modified and the process is not restarted |
| `GalleryHandoff.OwnerCatchesUp` | edge_app/app/edge_application.cpp:125-146 | Otherwise the owner installs the stored gallery as soon as it comes round |
| `GalleryHandoff.RecordsCarryMatchedVersion` | edge_app/app/attendance_coordinator.cpp:12-50 | The published version always names the installed gallery, and every staged record carries the version it was matched under |
| `GalleryHandoff.PollIsEvents` | edge_app/sync/gallery_sync.cpp:50-57 | A poll nobody interferes with is these events: same stored gallery, same flag |
| `GalleryHandoff.ReloadIsEvents` | edge_app/app/edge_application.cpp:125-146 | A turn of the owner nobody interferes with is these events, with the result the reload promises |
| `GalleryMatcher.GalleryMatcher.Replace` | vision_runtime/pipeline/gallery_matcher.cpp:8-31 | Takes over all templates as unit vectors with their owners, or changes nothing when one cannot be used |
| `GalleryMatcher.GalleryMatcher.Match` | vision_runtime/pipeline/gallery_matcher.cpp:32-75 | The identity whose best template is most similar, the first on ties, the runner-up and their distance; the nearest unit vector where the stored ones have length one; no match for an empty gallery or a query without direction |
| `GalleryMatcher.GalleryMatcher.ScoreAll` | vision_runtime/pipeline/gallery_matcher.cpp:53-60 | For each identity the similarity of its most similar template |
| `GalleryMatcher.GalleryMatcher.PickBest` | vision_runtime/pipeline/gallery_matcher.cpp:61-74 | The walk over the scores ends with best, runner-up and margin |
| `GalleryMatcher.MarginBounds` | vision_runtime/pipeline/gallery_matcher.cpp:61-74 | The margin is between 0 and 2 and the runner-up never better than the best |
| `GalleryMatcher.MatchIsNearest` | vision_runtime/pipeline/gallery_matcher.cpp:53-74 | On unit vectors every similarity compared is a plain inner product: the best is the largest over all templates, and the templates of other identities stay behind by the margin |
| `GalleryMatcher.NearestIsClosest` | vision_runtime/pipeline/gallery_matcher.cpp:53-74 | The largest inner product is the least distance: some template of the identity is as near to the query as any, and nearer in squares by twice the margin than those of everybody else |
| `UnitVectors.DistanceAndDot` | vision_runtime/pipeline/gallery_matcher.cpp:56-59 | The squared distance of two points is the sum of their squared lengths less twice their inner product |
| `UnitVectors.UnitHasLengthOne` | edge_app/domain/gallery_snapshot.cpp:6-19 | A normalised vector has length one |
| `GalleryMatcher.OrderDoesNotMatter` | vision_runtime/pipeline/gallery_matcher.cpp:8-75 | Galleries with the same templates in any order give the same match |
| `GalleryMatcher.SimilarityIsCosine` | vision_runtime/pipeline/gallery_matcher.cpp:56-59 | Cutting a similarity off at one changes nothing but rounding |
| `GalleryMatcher.LowerBound` | vision_runtime/pipeline/gallery_matcher.cpp:26-27 | Finds the place of an identity among the sorted ones |
| `GalleryMatcher.SortedUnique` | vision_runtime/pipeline/gallery_matcher.cpp:17-18 | The identities sorted, each once |
| `Suppression.Nms` | vision_runtime/scrfd/scrfd.cpp:178-209 | Keeps exactly the kernel of the candidates in an order of falling scores: what is kept was there, is sorted and pairwise below the threshold, and everything else is overlapped by something kept of no lower score |
| `Suppression.KernelIsUnique` | vision_runtime/scrfd/scrfd.cpp:193-206 | There is only one set in which a detection is kept exactly when no earlier kept one overlaps it too much |
| `Suppression.OneOrder` | vision_runtime/scrfd/scrfd.cpp:182-188 | Without ties there is one order of falling scores |
| `Suppression.GreedyIsUnique` | vision_runtime/scrfd/scrfd.cpp:178-209 | Without ties the result is determined by the candidates alone |
| `Suppression.NmsKeepsTheBest` | vision_runtime/scrfd/scrfd.cpp:178-209 | The kernel has these properties, whichever order of falling scores is used |
| `Suppression.KernelOfKept` | vision_runtime/scrfd/scrfd.cpp:178-209 | Thinning out again changes nothing |
| `Suppression.IouIsSymmetricFraction` | vision_runtime/scrfd/scrfd.cpp:133-156 | Overlap with inclusive corners is symmetric and between 0 and 1 |
| `Suppression.IouCountsPixels` | vision_runtime/scrfd/scrfd.cpp:133-156 | On whole corners the overlap is the number of pixels in both boxes divided by the number in at least one |
| `Suppression.OverlapsItself` | vision_runtime/scrfd/scrfd.cpp:133-156 | A box overlaps itself fully |
| `Pixels.RectangleSize` | vision_runtime/scrfd/scrfd.cpp:143-148 | A rectangle with inclusive corners has as many pixels as its sides multiplied |
| `LinearSolve.Solve4` | vision_runtime/arcface/arcface.cpp:128-175 | The loops compute the elimination function; when no nonzero factor is skipped, its result is the one and only solution of the system |
| `LinearSolve.SolvedIsUnique` | vision_runtime/arcface/arcface.cpp:128-175 | The elimination function returns the only solution of the system |
| `LinearSolve.EliminationSolves` | vision_runtime/arcface/arcface.cpp:132-173 | Elimination keeps the set of solutions and turns column after column into one of the identity |
| `LinearSolve.PlainColumn` | vision_runtime/arcface/arcface.cpp:132-173 | A column with a usable pivot in place and no tiny entry that is not zero is done exactly |
| `LinearSolve.DoColumn` | vision_runtime/arcface/arcface.cpp:132-173 | One column is done exactly when its largest entry from the diagonal down reaches 1e-10 |
| `LandmarkAlignment.EstimateTransform` | vision_runtime/arcface/arcface.cpp:179-277 | Throws exactly for a wrong size, a degenerate system or a scale too small; for regular landmarks exactly unless they are spread out and the best parameters have a usable scale, and then the map is strictly closer than every other similarity to the published places in squared landmark error; the two maps undo each other on every point, and the root mean square error belongs to the parameters |
| `LandmarkAlignment.RegularIsExact` | vision_runtime/arcface/arcface.cpp:128-227 | When no sum of coordinates exceeds the sum of squares S or is tiny next to it without being zero, the solver is exact, and finds a solution exactly when S and 5 - (X^2 + Y^2) / S reach 1e-10 |
| `LandmarkAlignment.UsableIff` | vision_runtime/arcface/arcface.cpp:223-236 | For such landmarks the transform is usable exactly when they are spread out and the best parameters have a usable scale |
| `LandmarkAlignment.FarIsRegular` | vision_runtime/arcface/arcface.cpp:195-227 | With S at least 5 the sums of coordinates never exceed it |
| `LandmarkAlignment.TemplateIsUsable` | vision_runtime/arcface/arcface.cpp:26-32 | The landmarks of the template are such landmarks, and are brought onto themselves |
| `LandmarkAlignment.PublishedStayInPlace` | vision_runtime/arcface/arcface.cpp:26-32 | The five published landmarks are mapped by the identity, without error |
| `LandmarkAlignment.SimilarityIsForward` | vision_runtime/arcface/arcface.cpp:238-262 | Every map that changes all distances in one proportion and mirrors nothing is the map of some four parameters |
| `LandmarkAlignment.ForwardIsSimilarity` | vision_runtime/arcface/arcface.cpp:238-262 | The map of four parameters changes all distances in one proportion and mirrors nothing |
| `LandmarkAlignment.ClosestIsClosestSimilarity` | vision_runtime/arcface/arcface.cpp:195-262 | The best parameters give the similarity closest to the published places |
| `LandmarkAlignment.NormalIsShaped` | vision_runtime/arcface/arcface.cpp:195-225 | The normal equations of any points consist of their number, their coordinate sums and their sum of squares |
| `SimilaritySystem.RegularSystem` | vision_runtime/arcface/arcface.cpp:132-173 | Elimination of such a system meets its pivots in place, skips nothing that is not zero, and fails exactly for squares or a residual below the pivot limit |
| `SimilaritySystem.ExactIffSizable` | vision_runtime/arcface/arcface.cpp:132-173 | Where elimination can go through, it is exact if and only if the two coordinate sums are zero or not tiny next to the squares |
| `LandmarkAlignment.OnlySolutionIsClosest` | vision_runtime/arcface/arcface.cpp:195-227 | Parameters that alone solve the normal equations are strictly better than all others |
| `LandmarkAlignment.NormalSolutionIsBest` | vision_runtime/arcface/arcface.cpp:195-227 | A solution of the normal equations misses least, and an equally good one solves them too |
| `LandmarkAlignment.NormalEquations` | vision_runtime/arcface/arcface.cpp:195-225 | The accumulated sums are the normal equations of the ten observation equations |
| `LandmarkAlignment.ErrorIsMisses` | vision_runtime/arcface/arcface.cpp:209-225 | The squared landmark distance is the squared miss of the observation equations |
| `LandmarkAlignment.MapsAreInverse` | vision_runtime/arcface/arcface.cpp:238-262 | Forward and backward map undo each other in both orders |
| `Coverage.WeightBounds` | vision_runtime/liveness/liveness_tensorize.hlsl:55-91 | A pixel weight is between 0 and 1024, and 1024 exactly when the position is at least 0 and at most 32 times one less than the size, in both directions |
| `Coverage.WeightIsCover` | vision_runtime/liveness/liveness_tensorize.hlsl:87-91 | The four taps add up to the area of the pixel square that lies within the picture: the product of what is covered in either direction |
| `Coverage.Pass` | vision_runtime/liveness/liveness_tensorize.hlsl:102-105 | Between two barriers, whatever order the lanes take their loads and stores in, the first cells have each taken up their partner and nothing else changed |
| `Coverage.TreeSum` | vision_runtime/liveness/liveness_tensorize.hlsl:101-105 | The tree of passes leaves the exact sum in cell 0, without wrap-around |
| `Coverage.SumGroups` | vision_runtime/liveness/liveness_tensorize.hlsl:72-107 | Each of the 25 cells holds the sum of its group, in whatever order groups and lanes run |
| `Coverage.OneLanePerPixel` | vision_runtime/liveness/liveness_tensorize.hlsl:72-78 | Each of the 80x80 pixels is the business of exactly one lane of one group |
| `Coverage.TotalsAreCropCover` | vision_runtime/liveness/liveness_tensorize.hlsl:72-107 | Added up, the groups cover the crop pixel by pixel and line by line |
| `Coverage.OutsideRatio` | vision_runtime/liveness/liveness_tensorize.hlsl:109-119 | For a picture that is not empty the ratio is 1 minus the covered area of all 80x80 pixels over 6553600; it lies in [0, 1], and is 0 exactly when every position is within the picture, in coordinates |
| `TextureCache.CameraTextureImporter.Acquire` | vision_runtime/common/camera_texture_import.hpp:145-188 | List and index agree; the list holds exactly the most recently used ids in order; a hit returns what its id was last imported as; after the first failure the cache is empty and never serves again |
| `TextureCache.CameraTextureImporter.Disable` | vision_runtime/common/camera_texture_import.hpp:346-349 | Empties the cache for good |
| `TextureCache.OneMoreUse` | vision_runtime/common/camera_texture_import.hpp:159-178 | Moving a hit to the front, or putting a new id in front and cutting, is cutting the full recency list |
| `TextureCache.RecencyIsOrdered` | vision_runtime/common/camera_texture_import.hpp:159-178 | In the recency list every id was used after every use of the ids behind it |

## Left out

- Floating point: rounding, overflow and undefined values. Costs keep a case of their own for non-finite entries; a
  matcher query or template with non-finite numbers, which the program rejects, has no counterpart.
- LinearSolve.Solve4: that the result solves the system is stated where no nonzero factor below 1e-18 is skipped; a
  skipped factor makes the result depend on the size of what was skipped, which is a matter of rounding.
- LandmarkAlignment.EstimateTransform: for landmarks within a few pixels of the origin, or whose coordinates add up to
  something tiny but not zero, optimality rests on the exactness of the elimination instead of a condition on the
  landmarks.
- ByteTracker.ByteTracker.Update: promises nothing when the filter throws in the middle of a frame; the exception then
  leaves the frame half done and ends the application's run. It cannot throw while every filter is tall enough.
- ByteTracker.ByteTracker.constructor: the invariant starts only for configurations whose age limit is not negative.
- Delivery.NoCommittedEventIsLost: assumes that newly made event ids are new and that the server confirms only what it
  has stored.
- Delivery.MigrationIsPaced: for databases whose rows have no negative deadline, as the program writes them.
- AttendanceProcessor.AttendanceProcessor.Process: takes the models as functions of the frame and one observation that
  answer for every observation; replies of the wrong length or shape, which the program answers with an exception, are
  not modelled, nor is the wall-clock time of an event.
- Coverage.OutsideRatio: the fixed-point source coordinates of the pixels are a parameter; colour sampling is not
  modelled.
- RetryPolicy.RetryAtBounds: the Retry-After header comes as already read: missing, seconds, a date, or unreadable.
- TextureCache.CameraTextureImporter.Acquire: the driver's tag and the import are parameters that may fail; statistics
  are modelled, log output is not.
- Direct3D, WinML, camera capture and the choice of a camera format.
- The HTTP client, the WebSocket channel, the network watcher, worker sleeping and wake-ups: only their outcomes
  appear.
- JSON, base64, credentials, file permissions and configuration loading.
- The transform estimate of the liveness stage, which repeats the one modelled here.
- Decoding of detector outputs, timing and all measurement.
