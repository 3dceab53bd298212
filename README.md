# Vehicle speed estimation and plate logging — a Dafny model

This project models the processing core of a traffic-video pipeline. A
video is read frame by frame. For every frame:

- the vehicle detector's results fill a class map keyed by detection index;
- the tracker's vehicles are visited in order;
- each tracked vehicle gets a finite-difference speed estimate in km/h against
  its previous sighting, and the speed is classified `OVERSPEED` or `NORMAL`
  against the limit of its class;
- a plate detector and an OCR look for number plates inside the vehicle's box,
  and one CSV row is logged for every plate found.

The loop stops at end of stream or after `fps * 8` frames.

The model has five modules:

- `Boxes` (boxes.dfy): float and integer boxes, and Python's `int`
  (truncation toward zero).
- `SpeedEstimate` (speed_estimate.dfy): the `SpeedEstimator` class with its
  per-track store of last sightings. `SpeedFrom` and `Recorded` are the
  functions that specify it.
- `PlateDetect` (utils.dfy): `detect_and_read_plate` as a method with its two
  nested loops, specified by `Entries` over `AllBoxes` of the detector's
  results.
- `VehicleLog` (logger.dfy): the CSV file as a class (present or not, and its
  rows), and `VehicleLogger` with its constructor and `log`.
- `VideoProcessing` (main.dfy):
  - `process_video` as a method (`ProcessVideo`) that drives the estimator and
    the logger. It is proved against a pure session function `Run`, which
    records the estimator store, the class map, the frame counter, every
    estimate call and every log event.
  - Lemmas about `Run`: how many frames are processed, which estimate calls
    are made in which order, one log event per plate, class-map coverage, and
    the soundness of each event's frame index and status.

The detector, the tracker, the plate detector and the OCR are external. What
they answer for each frame is an input (`FrameInput`). Each tracked vehicle
carries its own OCR answers (`TrackedVehicle.readPlate`), because the loop draws
on the frame before each vehicle's plates are read. `math.sqrt` is a
parameter; the lemmas that need it assume `IsSqrt(sqrt)`. The wall clock is a
parameter `clock: nat -> string`, and row n of a session is stamped `clock(n)`.

Behaviour of the code a reader might not expect (the model follows the code):

- The store entry of a track is overwritten on every call, including a call
  with the same or an earlier frame (src/speed_estimate.py:58). So a sighting
  at frame 12 after frame 15 moves the stored frame back to 12 (`CarScenario`).
- The log header has five columns: timestamp, vehicle_id, plate, confidence,
  speed_kmh (src/logger.py:17). There is no frame, class or status column.
- main.py:105 calls `log` with seven arguments, but `log` takes four. See
  "## Findings".

## Model

| member | source | states |
|---|---|---|
| Boxes.TruncateToInt | src/main.py:73 | `int` on a float is the integer part: 0 <= n <= x < n + 1 for x >= 0, and n - 1 < x <= n <= 0 for x < 0 |
| Boxes.TruncateIntegral | src/main.py:73 | `int` leaves an integral value unchanged |
| Boxes.ToIntBoxOfIntegral | src/utils.py:17 | converting again a box main.py already converted is the identity, so the double `map(int, …)` changes nothing |
| SpeedEstimate.SquaredShift | src/speed_estimate.py:39 | the squared centre displacement under the square root is never negative |
| SpeedEstimate.SpeedFrom | src/speed_estimate.py:29-55 | defines the speed against a stored sighting: 0 for an unknown track or a frame that is not later, ZeroDivisionError for a zero ppm or fps, otherwise distance / ppm over frame gap / fps times 3.6 |
| SpeedEstimate.Recorded | src/speed_estimate.py:58 | defines the store after a call: the track's entry set to the new centre and frame |
| SpeedEstimate.SpeedEstimator.constructor | src/speed_estimate.py:6-14 | the estimator keeps ppm, fps and sqrt (ppm 10 and fps 30 when not given), and starts with an empty store |
| SpeedEstimate.SpeedEstimator.EstimateSpeed | src/speed_estimate.py:16-60 | the result is the speed against the stored sighting (`SpeedFrom`). On success the track's entry is overwritten with the new centre and frame and every other entry is kept. On ZeroDivisionError the store is unchanged |
| SpeedEstimate.FirstSightingIsZero | src/speed_estimate.py:33-55 | a track not in the store gets speed 0 |
| SpeedEstimate.StaleFrameIsZero | src/speed_estimate.py:35-53 | a sighting at the same or an earlier frame gets speed 0 |
| SpeedEstimate.ZeroDivisionExactly | src/speed_estimate.py:37-48 | the call fails exactly when the track is known, the frame is later, and ppm or fps is zero |
| SpeedEstimate.SpeedFormula | src/speed_estimate.py:37-51 | with a later frame, the speed is (distance / ppm) / (frame gap / fps) * 3.6 |
| SpeedEstimate.SpeedNonNegative | src/speed_estimate.py:16-60 | with ppm > 0 and fps > 0 the call never fails and the speed is >= 0 |
| SpeedEstimate.SpeedCoversDisplacement | src/speed_estimate.py:39-51 | travelling at the returned speed for the elapsed time covers exactly the Euclidean distance between the two centres, in metres |
| SpeedEstimate.ZeroSpeedIffStationary | src/speed_estimate.py:39-51 | with a later frame, the speed is 0 exactly when the centre has not moved |
| SpeedEstimate.RecordedOverwrites | src/speed_estimate.py:58 | after a call the store has the old keys plus the id; the id maps to the new sighting and every other entry is unchanged |
| SpeedEstimate.CarScenario | src/speed_estimate.py:29-60 | track 7 at centre (100,100) frame 10, then (100,160) frame 15, ppm 10, fps 30: speeds 0 and 129.6. A later call at frame 12 gives 0 and overwrites the stored frame with 12 |
| PlateDetect.DetectAndReadPlate | src/utils.py:4-45 | an empty crop gives []. Otherwise there is one entry per reported plate box, in result and box order: the box shifted into frame coordinates and what the OCR read there. The length is the number of boxes reported |
| PlateDetect.AllBoxesAppend | src/utils.py:28-29 | the boxes of concatenated result lists are the concatenation of their boxes |
| PlateDetect.AllBoxesCount | src/utils.py:28-29 | the flattened box list is as long as the total number of reported boxes |
| PlateDetect.EntryAt | src/utils.py:30-43 | entry k holds the k-th box in frame coordinates and the OCR text and confidence read at exactly that box |
| PlateDetect.ToFrameRoundTrip | src/utils.py:30-34 | shifting a plate box into the frame and back gives the truncated crop-relative box |
| VehicleLog.VehicleLogger.constructor | src/logger.py:7-17 | an absent file is created holding only the header row; an existing file is left as it is |
| VehicleLog.VehicleLogger.Log | src/logger.py:19-24 | exactly one row is appended and the rows before it are untouched: timestamp, id, plate, confidence and speed, the last two with two decimals |
| VehicleLog.DataRowMatchesHeader | src/logger.py:17-24 | every data row has one cell per header column, in the header's order |
| VehicleLog.OpenedIdempotent | src/logger.py:14-17 | opening writes the header exactly when the file is absent; opening again adds nothing |
| VideoProcessing.SpeedLimit | src/main.py:78 | defines the limit of a class: its entry in the limit table, 80 when the class has none |
| VideoProcessing.Classify | src/main.py:80-85 | defines the status: OVERSPEED when the speed is strictly above the limit, NORMAL otherwise |
| VideoProcessing.Run | src/main.py:50-105 | defines a session: stop at end of stream or once fps * 8 frames are done, otherwise count the frame, record its classes, and observe its tracked vehicles in order |
| VideoProcessing.PlateEvents | src/main.py:94-105 | one log event per plate |
| VideoProcessing.RecordClassesSpec | src/main.py:62-66 | after a frame's detection loop, index i has an entry iff it had one before or i < the number of detections. Entry i is the class of detection i, and other entries are kept |
| VideoProcessing.RecordDetections | src/main.py:62-66 | the detection loop computes `RecordClasses` |
| VideoProcessing.LogPlates | src/main.py:94-105 | the plate loop appends one row per plate, in order, stamped with consecutive clock readings, after the rows already in the file |
| VideoProcessing.LogOneMore | src/main.py:94-105 | one more plate adds exactly one row at the end, stamped with the next clock reading |
| VideoProcessing.ProcessVehicle | src/main.py:72-105 | one tracked vehicle: the class lookup, the speed estimate, the limit and status, plate detection and the log calls agree with `ObserveBox` on the store and the file |
| VideoProcessing.ProcessFrame | src/main.py:72-105 | the tracked-vehicle loop of a frame agrees with `ObserveFrom` on the store and the file |
| VideoProcessing.ProcessVideo | src/main.py:16-105 | the number of frames processed is `Run`'s frame count. The file holds its rows as the logger opened it, then one row per log event of `Run`, in order |
| VideoProcessing.RunStep | src/main.py:50-56 | a frame within the cutoff is processed and the loop goes on with the rest |
| VideoProcessing.PlateEventsSnoc | src/main.py:94-105 | one more plate adds one event built from that plate |
| VideoProcessing.LogRowsSnoc | src/logger.py:19-24 | one more event adds one row for it, stamped with the next clock reading |
| VideoProcessing.PlateEventsAt | src/main.py:94-105 | event k for a vehicle carries plate k's text and confidence with the vehicle's frame, id, class, speed and status |
| VideoProcessing.ObserveBoxFacts | src/main.py:72-105 | one vehicle keeps the counter and the class map, makes one estimate call for its id and box at the current frame, and adds one event per plate |
| VideoProcessing.ObserveFromKeeps | src/main.py:72-105 | the tracked-vehicle loop changes neither the frame counter nor the class map |
| VideoProcessing.ObserveFromEvents | src/main.py:72-105 | the tracked-vehicle loop adds one event per plate over its vehicles |
| VideoProcessing.ObserveFromCalls | src/main.py:72-76 | the tracked-vehicle loop makes one estimate call per vehicle, in tracker order |
| VideoProcessing.ObserveFromSound | src/main.py:72-105 | the tracked-vehicle loop keeps every event's frame in range, the frames in order, and each status equal to the classification of its speed |
| VideoProcessing.ProcessedPrefix | src/main.py:50-54 | the frames processed are a prefix of the stream, `Taken` frames long |
| VideoProcessing.StepFrameFacts | src/main.py:56-105 | one frame adds 1 to the counter, records the detections' classes, makes one estimate call per tracked vehicle (in order, at the new frame index), and adds one event per plate |
| VideoProcessing.RunSummarized | src/main.py:50-105 | the counter, class map, estimate calls and event count of a session follow the bookkeeping `RunSummary` |
| VideoProcessing.SummaryCount | src/main.py:50-56 | the counter grows by one per processed frame |
| VideoProcessing.SummaryEvents | src/main.py:72-105 | the event count grows by the plates of the processed frames |
| VideoProcessing.SummaryCalls | src/main.py:56-76 | the estimate calls are the schedule of the processed frames, numbered from the next frame on |
| VideoProcessing.SummaryClasses | src/main.py:62-66 | the class-map keys are the old ones plus every index some processed frame has a detection at |
| VideoProcessing.RunSound | src/main.py:50-105 | the loop keeps the log events sound |
| VideoProcessing.FrameCutoff | src/main.py:47-56 | the loop processes min(number of frames, fps * 8) frames, and none when fps <= 0 |
| VideoProcessing.EstimateCallsInOrder | src/main.py:56-76 | `estimate_speed` is called once per tracked vehicle of each processed frame, in tracker order, with frame indices 1, 2, … and the `int`-converted box |
| VideoProcessing.OneEventPerPlate | src/main.py:93-105 | the session logs exactly as many events as plates are found over the processed frames |
| VideoProcessing.ClassMapCoverage | src/main.py:62-74 | index i has a class entry exactly when a processed frame had more than i detections; otherwise the lookup yields "unknown" |
| VideoProcessing.SessionEventsSound | src/main.py:56-105 | every event's frame is between 1 and the number of frames processed, frames never decrease along the log, and each status is OVERSPEED exactly when the speed exceeds the class's limit |
| VideoProcessing.LogRowsAt | src/logger.py:19-24 | a session writes one row per event, and row n is event n's row stamped `clock(n)` |
| VideoProcessing.OverspeedThreshold | src/main.py:78-85 | the limit is 60 for truck and bus, 70 for motorbike and 80 otherwise; OVERSPEED iff the speed is strictly above it |
| VideoProcessing.SlowIsNormal | src/main.py:78-85 | a speed of at most 60 km/h, e.g. a first sighting, is never flagged |
| VideoProcessing.AsWrittenArityMismatch | src/main.py:105 | the call as written passes seven arguments, and `log` takes four after `self` |
| VideoProcessing.LogArgumentsBind | src/main.py:105 | for every event, the call as written (seven arguments) raises TypeError and the call that matches `log` (four arguments) binds |
| VideoProcessing.CorrectedCallsFinish | src/main.py:93-105 | with the call that matches `log`, no log call of a session raises, so the session finishes with all its frames |
| VideoProcessing.LogCalls | src/main.py:94-105 | defines the log calls of a session, one per event in order: the first that does not bind raises and ends the session |
| VideoProcessing.SessionAsWritten | src/main.py:16-105 | defines `process_video` as written: the session of `Run`, with each log call passing the seven arguments of line 105 |
| VideoProcessing.AsWrittenRaisesIffPlateFound | src/main.py:105 | as written, a session raises exactly when a plate is found in a processed frame, at a frame between 1 and the frames processed |

## Left out

- The drawing of boxes and labels (src/main.py:87-90, 98-102) is not modelled. It changes the frame that this and later vehicles' plates are detected and read from, and the per-vehicle inputs (`cropEmpty`, `plateResults`, `readPlate` of `TrackedVehicle`) absorb that.
- The output video (src/main.py:108-113) and the console messages are not modelled.
- If the input cannot be opened, `process_video` calls `exit()` (src/main.py:32-34); this is not modelled.
- The detector, tracker, plate detector (`anpr_model.predict`) and OCR (`read_plate`) are external. Their answers are inputs.
- `deep_sort_detections` only feeds the tracker, so it is not modelled separately.
- The plate detector's confidence threshold (0.5) is not modelled, because it only matters inside the external detector.
- Whether the crop `frame[y1:y2, x1:x2]` is empty is another input (`cropEmpty`), because pixel arrays are not modelled.
- `fps` is an input integer: the `int(cap.get(...))` of a float frame rate is not modelled.
- Floats are real numbers: IEEE rounding is not modelled, and `math.sqrt` is any function that meets `IsSqrt`.
- The timestamp `datetime.now()` is the parameter `clock`. The text of `str(n)` and of `f"{x:.2f}"` is kept symbolic as a `Cell`.
- `os.makedirs` and I/O errors on the log file are not modelled. The file is only present or absent, with its rows.
- app.py and src/plate_reader.py are not part of this model.
- SpeedEstimate.SpeedEstimator.EstimateSpeed: takes an integer `Box`, while `estimate_speed` accepts any numeric box. Only the call at src/main.py:76, which passes the `int`-converted box, is modelled.
- VideoProcessing.ProcessVideo, VideoProcessing.ProcessFrame, VideoProcessing.ProcessVehicle, VideoProcessing.LogPlates: model the log call as `log(tracking_id, text, conf, speed_kmh)`, the call that matches `log` as coded. The call as written is modelled by `SessionAsWritten` (see "## Findings").
- VideoProcessing.ProcessVehicle: uses the speed as a value. ZeroDivisionError cannot occur in the loop, because ppm is 10 and fps > 0 whenever a frame is processed.

## Findings

| source | as written | input that shows it | evidently intended | confidence | as-written member | corrected member |
|---|---|---|---|---|---|---|
| src/main.py:105 | `logger.log(frame_count, tracking_id, class_name, text, conf, speed_kmh, status)`: seven positional arguments to `VehicleLogger.log` (src/logger.py:19), which takes four after `self`, so a TypeError is raised | any processed frame in which one tracked vehicle has one plate box in a non-empty crop: as written the session raises at that frame and no data row is ever written | the call that matches `log` as coded, `logger.log(tracking_id, text, conf, speed_kmh)`, which writes one row per plate | not executed | VideoProcessing.AsWrittenRaisesIffPlateFound | VideoProcessing.ProcessVideo |
