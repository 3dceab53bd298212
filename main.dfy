/** The frame loop of `process_video`: per frame, the detections fill the
    index-keyed class map; per tracked vehicle, the speed is estimated, then
    classified against the limit of its class, then every plate found in its
    box is logged. The loop stops at end of stream or after `fps * 8` frames.
    Detector, tracker, plate detector and OCR are external: their answers for
    every frame are inputs. */
module VideoProcessing {
  import opened Boxes
  import opened SpeedEstimate
  import opened PlateDetect
  import opened VehicleLog

  /** Speed limits in km/h per vehicle class, and the limit of any other class. */
  const SpeedLimits: map<string, int> := map["car" := 80, "truck" := 60, "bus" := 60, "motorbike" := 70]
  const DefaultSpeedLimit: int := 80

  /** The calibration the loop builds its estimator with. */
  const PixelsPerMeter: real := 10.0

  /** The capture is cut after this many seconds of video. */
  const CaptureSeconds: int := 8

  datatype Status = Normal | Overspeed

  function SpeedLimit(className: string): int {
    if className in SpeedLimits then SpeedLimits[className] else DefaultSpeedLimit
  }

  function Classify(speedKmh: real, speedLimit: int): Status {
    if speedKmh > speedLimit as real then Overspeed else Normal
  }

  function StatusLabel(status: Status): string {
    match status
    case Overspeed => "OVERSPEED"
    case Normal => "NORMAL"
  }

  /** One detection: box as (x, y, w, h), class id, confidence, class name. */
  datatype Detection = Detection(x: real, y: real, w: real, h: real, classId: int, conf: real, className: string)

  /** One tracked vehicle: the tracker's id and box, and what the plate
      detector and the OCR report for it: whether the crop of its box is
      empty, the result lists of crop-relative plate boxes, and `readPlate`,
      the OCR on the frame as it is when this vehicle's plates are read. The
      loop draws this vehicle's box and label, and every earlier vehicle's, on
      the frame before the plates are read, so each vehicle has its own OCR. */
  datatype TrackedVehicle = TrackedVehicle(trackingId: int, bbox: RealBox, cropEmpty: bool,
                                           plateResults: seq<seq<RealBox>>, readPlate: Box -> OcrResult)

  /** Everything the external components give for one frame. */
  datatype FrameInput = FrameInput(detections: seq<Detection>, tracked: seq<TrackedVehicle>)

  /** The arguments of one call of `estimate_speed`: frame index, track id, box. */
  datatype EstimateCall = EstimateCall(frame: int, trackingId: int, bbox: Box)

  /** The values the loop has at hand for one plate when it logs it. */
  datatype LogEvent = LogEvent(frame: int, trackingId: int, className: string, text: string, conf: real,
                               speedKmh: real, status: Status)

  /** The state of a session: the estimator's store, the class map, the frame
      counter, and every estimate call and plate log event so far. */
  datatype Session = Session(positions: map<int, Position>, classMap: map<int, string>, frameCount: nat,
                             calls: seq<EstimateCall>, events: seq<LogEvent>)

  function Start(): Session {
    Session(map[], map[], 0, [], [])
  }

  /** `class_map.get(idx, "unknown")`. */
  function ClassAt(classMap: map<int, string>, idx: int): string {
    if idx in classMap then classMap[idx] else "unknown"
  }

  /** The class map after the detection loop of one frame: entry i is the
      class of the i-th detection; entries beyond the frame's detections keep
      whatever an earlier frame left there. */
  function RecordClasses(classMap: map<int, string>, detections: seq<Detection>): map<int, string> {
    if |detections| == 0 then classMap
    else RecordClasses(classMap, detections[..|detections| - 1])[|detections| - 1 := detections[|detections| - 1].className]
  }

  /** The class map after one frame: entry i is the class of the i-th
      detection; every other entry is the one from before, and no other key
      is added. */
  lemma {:induction false} RecordClassesSpec(classMap: map<int, string>, detections: seq<Detection>, i: int)
    ensures var r := RecordClasses(classMap, detections);
            && (i in r <==> i in classMap || 0 <= i < |detections|)
            && (0 <= i < |detections| ==> r[i] == detections[i].className)
            && (i in classMap && !(0 <= i < |detections|) ==> r[i] == classMap[i])
    decreases |detections|
  {
    if |detections| > 0 {
      RecordClassesSpec(classMap, detections[..|detections| - 1], i);
    }
  }

  /** The plates `detect_and_read_plate` returns for one tracked vehicle. */
  function PlatesOf(v: TrackedVehicle): seq<PlateInfo> {
    if v.cropEmpty then [] else Entries(ToIntBox(v.bbox), AllBoxes(v.plateResults), v.readPlate)
  }

  /** One log event per plate, all carrying the vehicle's speed and status. */
  function PlateEvents(frame: int, trackingId: int, className: string, speedKmh: real, status: Status,
                       plates: seq<PlateInfo>): (events: seq<LogEvent>)
    ensures |events| == |plates|
  {
    if |plates| == 0 then []
    else
      var last := plates[|plates| - 1];
      PlateEvents(frame, trackingId, className, speedKmh, status, plates[..|plates| - 1])
        + [LogEvent(frame, trackingId, className, last.text, last.conf, speedKmh, status)]
  }

  /** One tracked vehicle: speed first, then the limit and status, then the plates. */
  function ObserveBox(fps: int, sqrt: real -> real, s: Session, f: FrameInput, idx: nat): Session
    requires idx < |f.tracked| && fps > 0
  {
    var v := f.tracked[idx];
    var box := ToIntBox(v.bbox);
    var className := ClassAt(s.classMap, idx);
    var speedKmh := SpeedFrom(PixelsPerMeter, fps, sqrt, s.positions, v.trackingId, box, s.frameCount).kmh;
    var status := Classify(speedKmh, SpeedLimit(className));
    s.(positions := Recorded(s.positions, v.trackingId, box, s.frameCount),
       calls := s.calls + [EstimateCall(s.frameCount, v.trackingId, box)],
       events := s.events + PlateEvents(s.frameCount, v.trackingId, className, speedKmh, status, PlatesOf(v)))
  }

  /** The tracked vehicles of one frame from index `idx` on, in order. */
  function ObserveFrom(fps: int, sqrt: real -> real, s: Session, f: FrameInput, idx: nat): Session
    requires idx <= |f.tracked| && fps > 0
    decreases |f.tracked| - idx
  {
    if idx == |f.tracked| then s else ObserveFrom(fps, sqrt, ObserveBox(fps, sqrt, s, f, idx), f, idx + 1)
  }

  /** The start of a frame: count it and record its detections' classes. */
  function Advance(s: Session, f: FrameInput): Session {
    s.(frameCount := s.frameCount + 1, classMap := RecordClasses(s.classMap, f.detections))
  }

  /** One frame: advance, then observe its vehicles. */
  function StepFrame(fps: int, sqrt: real -> real, s: Session, f: FrameInput): Session
    requires fps > 0
  {
    ObserveFrom(fps, sqrt, Advance(s, f), f, 0)
  }

  /** The loop: stop at end of stream or once `fps * 8` frames are done. */
  function Run(fps: int, sqrt: real -> real, s: Session, frames: seq<FrameInput>): Session
    decreases |frames|
  {
    if |frames| == 0 || s.frameCount >= fps * CaptureSeconds then s
    else Run(fps, sqrt, StepFrame(fps, sqrt, s, frames[0]), frames[1..])
  }

  /** The row written for a log event when the call matches the logger. */
  function EventRow(timestamp: string, e: LogEvent): Row {
    DataRow(timestamp, e.trackingId, e.text, e.conf, e.speedKmh)
  }

  /** The rows written for a session's log events; row n is stamped `clock(n)`. */
  function LogRows(clock: nat -> string, events: seq<LogEvent>): seq<Row> {
    if |events| == 0 then []
    else LogRows(clock, events[..|events| - 1]) + [EventRow(clock(|events| - 1), events[|events| - 1])]
  }

  /** The detection loop of one frame: entry d of the class map is set to
      the class of detection d. */
  method RecordDetections(classMap: map<int, string>, detections: seq<Detection>) returns (updated: map<int, string>)
    ensures updated == RecordClasses(classMap, detections)
  {
    updated := classMap;
    var d := 0;
    while d < |detections|
      invariant 0 <= d <= |detections|
      invariant updated == RecordClasses(classMap, detections[..d])
    {
      assert detections[..d + 1][..d] == detections[..d];
      updated := updated[d := detections[d].className];
      d := d + 1;
    }
    assert detections[..d] == detections;
  }

  /** The plate loop: one `log` call per plate, in order. */
  method LogPlates(logger: VehicleLogger, clock: nat -> string, logged: nat, frameCount: nat, trackingId: int,
                   className: string, speedKmh: real, status: Status, plates: seq<PlateInfo>,
                   ghost before: seq<LogEvent>, ghost initialRows: seq<Row>)
    returns (loggedAfter: nat)
    requires logged == |before| && logger.file.Valid() && logger.file.present
    requires logger.file.rows == initialRows + LogRows(clock, before)
    modifies logger.file
    ensures loggedAfter == logged + |plates|
    ensures logger.file.Valid() && logger.file.present
    ensures logger.file.rows
         == initialRows + LogRows(clock, before + PlateEvents(frameCount, trackingId, className, speedKmh, status, plates))
  {
    loggedAfter := logged;
    var p := 0;
    assert before + PlateEvents(frameCount, trackingId, className, speedKmh, status, plates[..p]) == before;
    while p < |plates|
      invariant 0 <= p <= |plates| && loggedAfter == logged + p
      invariant logger.file.Valid() && logger.file.present
      invariant logger.file.rows
             == initialRows + LogRows(clock, before + PlateEvents(frameCount, trackingId, className, speedKmh, status, plates[..p]))
    {
      var plate := plates[p];
      LogOneMore(clock, before, frameCount, trackingId, className, speedKmh, status, plates, p);
      RowsAssoc(initialRows, LogRows(clock, before + PlateEvents(frameCount, trackingId, className, speedKmh, status, plates[..p])),
                DataRow(clock(loggedAfter), trackingId, plate.text, plate.conf, speedKmh));
      logger.Log(clock(loggedAfter), trackingId, plate.text, plate.conf, speedKmh);
      loggedAfter := loggedAfter + 1;
      p := p + 1;
    }
    assert plates[..p] == plates;
  }

  /** The rows for the events of one more plate: one more row, stamped with
      the next clock reading. */
  lemma LogOneMore(clock: nat -> string, before: seq<LogEvent>, frameCount: nat, trackingId: int,
                   className: string, speedKmh: real, status: Status, plates: seq<PlateInfo>, p: nat)
    requires p < |plates|
    ensures LogRows(clock, before + PlateEvents(frameCount, trackingId, className, speedKmh, status, plates[..p + 1]))
         == LogRows(clock, before + PlateEvents(frameCount, trackingId, className, speedKmh, status, plates[..p]))
            + [DataRow(clock(|before| + p), trackingId, plates[p].text, plates[p].conf, speedKmh)]
  {
    var e := LogEvent(frameCount, trackingId, className, plates[p].text, plates[p].conf, speedKmh, status);
    var older := PlateEvents(frameCount, trackingId, className, speedKmh, status, plates[..p]);
    var events := before + older;
    var all := before + PlateEvents(frameCount, trackingId, className, speedKmh, status, plates[..p + 1]);
    assert all == events + [e] by {
      PlateEventsSnoc(frameCount, trackingId, className, speedKmh, status, plates, p);
      EventsAssoc(before, older, e);
    }
    assert |events| == |before| + p;
    assert EventRow(clock(|events|), e) == DataRow(clock(|before| + p), trackingId, plates[p].text, plates[p].conf, speedKmh);
    LogRowsExtend(clock, all, events, e);
  }

  /** `LogRowsSnoc` for a list already known to be one event longer. */
  lemma LogRowsExtend(clock: nat -> string, all: seq<LogEvent>, events: seq<LogEvent>, e: LogEvent)
    requires all == events + [e]
    ensures LogRows(clock, all) == LogRows(clock, events) + [EventRow(clock(|events|), e)]
  {
    LogRowsSnoc(clock, events, e);
  }

  /** The tracked-vehicle loop of one frame. */
  method ProcessFrame(estimator: SpeedEstimator, logger: VehicleLogger, frame: FrameInput,
                      classMap: map<int, string>, frameCount: nat, clock: nat -> string, logged: nat,
                      ghost s: Session, ghost initialRows: seq<Row>)
    returns (loggedAfter: nat)
    requires estimator.fps > 0 && estimator.ppm == PixelsPerMeter
    requires s.frameCount == frameCount && s.classMap == classMap && s.positions == estimator.prevPositions
    requires logged == |s.events| && logger.file.Valid() && logger.file.present
    requires logger.file.rows == initialRows + LogRows(clock, s.events)
    modifies estimator, logger.file
    ensures var next := ObserveFrom(estimator.fps, estimator.sqrt, s, frame, 0);
            && estimator.prevPositions == next.positions
            && loggedAfter == |next.events|
            && logger.file.Valid() && logger.file.present
            && logger.file.rows == initialRows + LogRows(clock, next.events)
  {
    ghost var target := ObserveFrom(estimator.fps, estimator.sqrt, s, frame, 0);
    ghost var cur := s;
    loggedAfter := logged;
    var idx := 0;
    while idx < |frame.tracked|
      invariant 0 <= idx <= |frame.tracked|
      invariant ObserveFrom(estimator.fps, estimator.sqrt, cur, frame, idx) == target
      invariant cur.frameCount == frameCount && cur.classMap == classMap && cur.positions == estimator.prevPositions
      invariant loggedAfter == |cur.events|
      invariant logger.file.Valid() && logger.file.present
      invariant logger.file.rows == initialRows + LogRows(clock, cur.events)
    {
      loggedAfter := ProcessVehicle(estimator, logger, frame, idx, classMap, frameCount, clock, loggedAfter, cur, initialRows);
      cur := ObserveBox(estimator.fps, estimator.sqrt, cur, frame, idx);
      idx := idx + 1;
    }
  }

  /** The body of the tracked-vehicle loop for vehicle `idx` of `frame`:
      estimate, classify, read the plates, log one row per plate. */
  method ProcessVehicle(estimator: SpeedEstimator, logger: VehicleLogger, frame: FrameInput, idx: nat,
                        classMap: map<int, string>, frameCount: nat, clock: nat -> string, logged: nat,
                        ghost s: Session, ghost initialRows: seq<Row>)
    returns (loggedAfter: nat)
    requires idx < |frame.tracked| && estimator.fps > 0 && estimator.ppm == PixelsPerMeter
    requires s.frameCount == frameCount && s.classMap == classMap && s.positions == estimator.prevPositions
    requires logged == |s.events| && logger.file.Valid() && logger.file.present
    requires logger.file.rows == initialRows + LogRows(clock, s.events)
    modifies estimator, logger.file
    ensures var next := ObserveBox(estimator.fps, estimator.sqrt, s, frame, idx);
            && estimator.prevPositions == next.positions
            && loggedAfter == |next.events|
            && logger.file.Valid() && logger.file.present
            && logger.file.rows == initialRows + LogRows(clock, next.events)
  {
    var vehicle := frame.tracked[idx];
    var box := ToIntBox(vehicle.bbox);
    var className := if idx in classMap then classMap[idx] else "unknown";
    var r := estimator.EstimateSpeed(vehicle.trackingId, box, frameCount);
    var speedKmh := r.kmh;
    var speedLimit := SpeedLimit(className);
    var status := if speedKmh > speedLimit as real then Overspeed else Normal;
    var plates := DetectAndReadPlate(AsReal(box), vehicle.cropEmpty, vehicle.plateResults, vehicle.readPlate);
    ToIntBoxOfIntegral(box);
    loggedAfter := LogPlates(logger, clock, logged, frameCount, vehicle.trackingId, className, speedKmh, status,
                             plates, s.events, initialRows);
  }

  /** `process_video` with its log call matching `VehicleLogger.log`
      (id, plate text, confidence, speed). The file ends with its rows as the
      logger opened it, then one row per plate for the whole session. */
  method ProcessVideo(fps: int, sqrt: real -> real, frames: seq<FrameInput>, file: CsvFile, clock: nat -> string)
    returns (framesProcessed: nat)
    requires file.Valid()
    modifies file
    ensures framesProcessed == Run(fps, sqrt, Start(), frames).frameCount
    ensures file.Valid() && file.present
    ensures file.rows == Opened(old(file.present), old(file.rows)) + LogRows(clock, Run(fps, sqrt, Start(), frames).events)
  {
    var estimator := new SpeedEstimator(sqrt, PixelsPerMeter, fps);
    var logger := new VehicleLogger(file);
    var classMap: map<int, string> := map[];
    var maxFrames := fps * CaptureSeconds;
    var frameCount: nat := 0;
    var logged: nat := 0;
    ghost var initialRows := file.rows;
    ghost var s := Start();
    var i := 0;
    while true
      invariant 0 <= i <= |frames|
      invariant s.frameCount == frameCount && s.classMap == classMap && s.positions == estimator.prevPositions
      invariant Run(fps, sqrt, s, frames[i..]) == Run(fps, sqrt, Start(), frames)
      invariant logged == |s.events|
      invariant logger.file == file && file.Valid() && file.present
      invariant file.rows == initialRows + LogRows(clock, s.events)
      decreases |frames| - i
    {
      if i == |frames| || frameCount >= maxFrames {
        break;
      }
      var frame := frames[i];
      assert fps > 0;
      RunStep(fps, sqrt, s, frames[i..]);
      assert frames[i..][1..] == frames[i + 1..];
      i := i + 1;
      frameCount := frameCount + 1;
      classMap := RecordDetections(classMap, frame.detections);
      s := Advance(s, frame);
      logged := ProcessFrame(estimator, logger, frame, classMap, frameCount, clock, logged, s, initialRows);
      ObserveFromKeeps(fps, sqrt, s, frame, 0);
      s := ObserveFrom(fps, sqrt, s, frame, 0);
    }
    framesProcessed := frameCount;
  }

  /** One more frame of the loop, when it is not stopped. */
  lemma RunStep(fps: int, sqrt: real -> real, s: Session, frames: seq<FrameInput>)
    requires |frames| > 0 && s.frameCount < fps * CaptureSeconds
    ensures fps > 0
    ensures Run(fps, sqrt, s, frames) == Run(fps, sqrt, StepFrame(fps, sqrt, s, frames[0]), frames[1..])
  {
  }

  /** The events of one more plate: one more event, built from that plate. */
  lemma PlateEventsSnoc(frame: int, trackingId: int, className: string, speedKmh: real, status: Status,
                        plates: seq<PlateInfo>, p: nat)
    requires p < |plates|
    ensures PlateEvents(frame, trackingId, className, speedKmh, status, plates[..p + 1])
         == PlateEvents(frame, trackingId, className, speedKmh, status, plates[..p])
            + [LogEvent(frame, trackingId, className, plates[p].text, plates[p].conf, speedKmh, status)]
  {
    assert plates[..p + 1][..p] == plates[..p];
  }

  /** Associativity, stated as a lemma so that the plate loop's proof
      instantiates it once instead of searching for it. */
  lemma RowsAssoc(a: seq<Row>, b: seq<Row>, r: Row)
    ensures a + (b + [r]) == (a + b) + [r]
  {
  }

  /** Associativity, stated as a lemma so that `LogOneMore` uses it once
      instead of searching for it. */
  lemma EventsAssoc(a: seq<LogEvent>, b: seq<LogEvent>, e: LogEvent)
    ensures a + (b + [e]) == (a + b) + [e]
  {
  }

  /** Appending one event appends its row, stamped with the next clock reading. */
  lemma LogRowsSnoc(clock: nat -> string, events: seq<LogEvent>, e: LogEvent)
    ensures LogRows(clock, events + [e]) == LogRows(clock, events) + [EventRow(clock(|events|), e)]
  {
    assert (events + [e])[..|events|] == events;
  }

  // ---------------------------------------------------------------------
  // Counting what a session does

  /** The number of plates found over a list of tracked vehicles. */
  function PlateCount(vs: seq<TrackedVehicle>): nat {
    if |vs| == 0 then 0 else |PlatesOf(vs[0])| + PlateCount(vs[1..])
  }

  /** The number of plates found over a list of frames. */
  function TotalPlates(frames: seq<FrameInput>): nat {
    if |frames| == 0 then 0 else PlateCount(frames[0].tracked) + TotalPlates(frames[1..])
  }

  /** The calls expected for one frame numbered n: one for each tracked
      vehicle in tracker order, with its id and its box converted by `int`. */
  function FrameSchedule(n: int, vs: seq<TrackedVehicle>): seq<EstimateCall> {
    if |vs| == 0 then [] else [EstimateCall(n, vs[0].trackingId, ToIntBox(vs[0].bbox))] + FrameSchedule(n, vs[1..])
  }

  /** The calls expected for consecutive frames numbered n, n + 1, ... */
  function Schedule(frames: seq<FrameInput>, n: int): seq<EstimateCall> {
    if |frames| == 0 then [] else FrameSchedule(n, frames[0].tracked) + Schedule(frames[1..], n + 1)
  }

  /** Whether some frame of the list has more than i detections. */
  function Seen(frames: seq<FrameInput>, i: int): bool {
    |frames| > 0 && ((0 <= i < |frames[0].detections|) || Seen(frames[1..], i))
  }

  /** How many of `available` further frames the loop processes once `done`
      frames are behind it. */
  function Taken(fps: int, done: nat, available: nat): nat {
    if done >= fps * CaptureSeconds then 0
    else if available <= fps * CaptureSeconds - done then available
    else fps * CaptureSeconds - done
  }

  /** The frames the loop processes out of `frames` once `done` frames are
      behind it: the next ones, until the stream ends or `fps * 8` are done. */
  function Processed(fps: int, done: nat, frames: seq<FrameInput>): seq<FrameInput>
    decreases |frames|
  {
    if |frames| == 0 || done >= fps * CaptureSeconds then []
    else [frames[0]] + Processed(fps, done + 1, frames[1..])
  }

  /** The log events of a session: the frame index of each is at most the
      frame counter, they come in non-decreasing frame order, and each carries
      the status its speed has against its class's limit. */
  ghost predicate EventsSound(s: Session) {
    && (forall a :: 0 <= a < |s.events| ==> 1 <= s.events[a].frame <= s.frameCount)
    && (forall a, b :: 0 <= a < b < |s.events| ==> s.events[a].frame <= s.events[b].frame)
    && (forall a :: 0 <= a < |s.events| ==>
          s.events[a].status == Classify(s.events[a].speedKmh, SpeedLimit(s.events[a].className)))
  }

  /** The k-th event built for a list of plates is built from the k-th plate. */
  lemma {:induction false} PlateEventsAt(frame: int, trackingId: int, className: string, speedKmh: real,
                                         status: Status, plates: seq<PlateInfo>, k: int)
    requires 0 <= k < |plates|
    ensures PlateEvents(frame, trackingId, className, speedKmh, status, plates)[k]
         == LogEvent(frame, trackingId, className, plates[k].text, plates[k].conf, speedKmh, status)
    decreases |plates|
  {
    if k < |plates| - 1 {
      PlateEventsAt(frame, trackingId, className, speedKmh, status, plates[..|plates| - 1], k);
    }
  }

  /** One vehicle: the frame counter and the class map stay, one estimate
      call is made for the vehicle's id at the current frame, and one log
      event is added per plate. */
  lemma ObserveBoxFacts(fps: int, sqrt: real -> real, s: Session, f: FrameInput, idx: nat)
    requires idx < |f.tracked| && fps > 0
    ensures var r := ObserveBox(fps, sqrt, s, f, idx);
            && r.frameCount == s.frameCount && r.classMap == s.classMap
            && |r.events| == |s.events| + |PlatesOf(f.tracked[idx])|
            && r.calls == s.calls + [EstimateCall(s.frameCount, f.tracked[idx].trackingId, ToIntBox(f.tracked[idx].bbox))]
  {
  }

  /** Observing vehicles changes neither the frame counter nor the class map. */
  lemma {:induction false} ObserveFromKeeps(fps: int, sqrt: real -> real, s: Session, f: FrameInput, idx: nat)
    requires idx <= |f.tracked| && fps > 0
    ensures ObserveFrom(fps, sqrt, s, f, idx).frameCount == s.frameCount
    ensures ObserveFrom(fps, sqrt, s, f, idx).classMap == s.classMap
    decreases |f.tracked| - idx
  {
    if idx < |f.tracked| {
      ObserveBoxFacts(fps, sqrt, s, f, idx);
      ObserveFromKeeps(fps, sqrt, ObserveBox(fps, sqrt, s, f, idx), f, idx + 1);
    }
  }

  /** Observing vehicles adds one log event per plate found. */
  lemma {:induction false} ObserveFromEvents(fps: int, sqrt: real -> real, s: Session, f: FrameInput, idx: nat)
    requires idx <= |f.tracked| && fps > 0
    ensures |ObserveFrom(fps, sqrt, s, f, idx).events| == |s.events| + PlateCount(f.tracked[idx..])
    decreases |f.tracked| - idx
  {
    if idx == |f.tracked| {
      assert f.tracked[idx..] == [];
    } else {
      ObserveBoxFacts(fps, sqrt, s, f, idx);
      ObserveFromEvents(fps, sqrt, ObserveBox(fps, sqrt, s, f, idx), f, idx + 1);
      assert f.tracked[idx..][1..] == f.tracked[idx + 1..];
    }
  }

  /** Observing vehicles makes one estimate call per vehicle, in tracker order. */
  lemma {:induction false} ObserveFromCalls(fps: int, sqrt: real -> real, s: Session, f: FrameInput, idx: nat)
    requires idx <= |f.tracked| && fps > 0
    ensures ObserveFrom(fps, sqrt, s, f, idx).calls == s.calls + FrameSchedule(s.frameCount, f.tracked[idx..])
    decreases |f.tracked| - idx
  {
    if idx == |f.tracked| {
      assert f.tracked[idx..] == [];
    } else {
      var s1 := ObserveBox(fps, sqrt, s, f, idx);
      var c := EstimateCall(s.frameCount, f.tracked[idx].trackingId, ToIntBox(f.tracked[idx].bbox));
      var rest := FrameSchedule(s.frameCount, f.tracked[idx + 1..]);
      assert s1.calls == s.calls + [c] && s1.frameCount == s.frameCount by {
        ObserveBoxFacts(fps, sqrt, s, f, idx);
      }
      ObserveFromCalls(fps, sqrt, s1, f, idx + 1);
      assert FrameSchedule(s.frameCount, f.tracked[idx..]) == [c] + rest by {
        assert f.tracked[idx..][1..] == f.tracked[idx + 1..];
      }
      CallsAssoc(s.calls, c, rest);
    }
  }

  /** Regrouping of call lists, stated as a lemma to keep the proof of
      `ObserveFromCalls` small. */
  lemma CallsAssoc(a: seq<EstimateCall>, c: EstimateCall, rest: seq<EstimateCall>)
    ensures (a + [c]) + rest == a + ([c] + rest)
  {
  }

  /** Observing vehicles keeps the log events sound. */
  lemma {:induction false} ObserveFromSound(fps: int, sqrt: real -> real, s: Session, f: FrameInput, idx: nat)
    requires idx <= |f.tracked| && fps > 0
    requires EventsSound(s) && s.frameCount >= 1
    ensures EventsSound(ObserveFrom(fps, sqrt, s, f, idx))
    decreases |f.tracked| - idx
  {
    if idx < |f.tracked| {
      var s1 := ObserveBox(fps, sqrt, s, f, idx);
      var v := f.tracked[idx];
      var plates := PlatesOf(v);
      var n := |s.events|;
      forall a | n <= a < |s1.events|
        ensures s1.events[a].frame == s.frameCount
        ensures s1.events[a].status == Classify(s1.events[a].speedKmh, SpeedLimit(s1.events[a].className))
      {
        var speedKmh := SpeedFrom(PixelsPerMeter, fps, sqrt, s.positions, v.trackingId, ToIntBox(v.bbox), s.frameCount).kmh;
        var className := ClassAt(s.classMap, idx);
        PlateEventsAt(s.frameCount, v.trackingId, className, speedKmh,
                      Classify(speedKmh, SpeedLimit(className)), plates, a - n);
      }
      assert EventsSound(s1);
      ObserveFromSound(fps, sqrt, s1, f, idx + 1);
    }
  }

  /** The processed frames are a prefix of the stream, `Taken` frames long. */
  lemma {:induction false} ProcessedPrefix(fps: int, done: nat, frames: seq<FrameInput>)
    ensures Taken(fps, done, |frames|) <= |frames|
    ensures Processed(fps, done, frames) == frames[..Taken(fps, done, |frames|)]
    decreases |frames|
  {
    if |frames| > 0 && done < fps * CaptureSeconds {
      ProcessedPrefix(fps, done + 1, frames[1..]);
      var k := Taken(fps, done, |frames|);
      assert Taken(fps, done + 1, |frames| - 1) == k - 1;
      assert frames[..k] == [frames[0]] + frames[1..][..k - 1];
    }
  }

  lemma ScheduleCons(f: FrameInput, rest: seq<FrameInput>, n: int)
    ensures Schedule([f] + rest, n) == FrameSchedule(n, f.tracked) + Schedule(rest, n + 1)
  {
    assert ([f] + rest)[1..] == rest;
  }

  lemma TotalPlatesCons(f: FrameInput, rest: seq<FrameInput>)
    ensures TotalPlates([f] + rest) == PlateCount(f.tracked) + TotalPlates(rest)
  {
    assert ([f] + rest)[1..] == rest;
  }

  lemma SeenCons(f: FrameInput, rest: seq<FrameInput>, i: int)
    ensures Seen([f] + rest, i) == ((0 <= i < |f.detections|) || Seen(rest, i))
  {
    assert ([f] + rest)[1..] == rest;
  }

  /** Regrouping of concatenated call lists, stated as a lemma to keep the
      proof of `SummaryCalls` small. */
  lemma Chain(r: seq<EstimateCall>, c1: seq<EstimateCall>, c: seq<EstimateCall>,
              fs: seq<EstimateCall>, rest: seq<EstimateCall>, sched: seq<EstimateCall>)
    requires r == c1 + rest && c1 == c + fs && sched == fs + rest
    ensures r == c + sched
  {
  }

  /** One frame: the counter goes up by one, the class map records the
      frame's detections, one event is added per plate and one estimate call
      per vehicle. */
  lemma StepFrameFacts(fps: int, sqrt: real -> real, s: Session, f: FrameInput)
    requires fps > 0
    ensures var r := StepFrame(fps, sqrt, s, f);
            && r.frameCount == s.frameCount + 1
            && r.classMap == RecordClasses(s.classMap, f.detections)
            && |r.events| == |s.events| + PlateCount(f.tracked)
            && r.calls == s.calls + FrameSchedule(s.frameCount + 1, f.tracked)
  {
    ObserveFromKeeps(fps, sqrt, Advance(s, f), f, 0);
    ObserveFromEvents(fps, sqrt, Advance(s, f), f, 0);
    ObserveFromCalls(fps, sqrt, Advance(s, f), f, 0);
    assert f.tracked[0..] == f.tracked;
  }

  /** What the loop's bookkeeping amounts to: the frame counter, the class
      map, the estimate calls and the number of log events. */
  datatype Summary = Summary(frameCount: nat, classMap: map<int, string>, calls: seq<EstimateCall>, eventCount: nat)

  function Summarize(s: Session): Summary {
    Summary(s.frameCount, s.classMap, s.calls, |s.events|)
  }

  /** The bookkeeping of one frame, as `StepFrameFacts` states it. */
  function SummaryStep(t: Summary, f: FrameInput): Summary {
    Summary(t.frameCount + 1, RecordClasses(t.classMap, f.detections),
            t.calls + FrameSchedule(t.frameCount + 1, f.tracked), t.eventCount + PlateCount(f.tracked))
  }

  /** The bookkeeping of the loop, with the same stopping rule as `Run`. */
  function RunSummary(fps: int, t: Summary, frames: seq<FrameInput>): Summary
    decreases |frames|
  {
    if |frames| == 0 || t.frameCount >= fps * CaptureSeconds then t
    else RunSummary(fps, SummaryStep(t, frames[0]), frames[1..])
  }

  /** The loop's bookkeeping follows `RunSummary`. */
  lemma {:induction false} RunSummarized(fps: int, sqrt: real -> real, s: Session, frames: seq<FrameInput>)
    ensures Summarize(Run(fps, sqrt, s, frames)) == RunSummary(fps, Summarize(s), frames)
    decreases |frames|
  {
    if |frames| > 0 && s.frameCount < fps * CaptureSeconds {
      var s1 := StepFrame(fps, sqrt, s, frames[0]);
      assert Summarize(s1) == SummaryStep(Summarize(s), frames[0]) by {
        StepFrameFacts(fps, sqrt, s, frames[0]);
      }
      RunSummarized(fps, sqrt, s1, frames[1..]);
    }
  }

  /** The frame counter after the loop: one more per processed frame. */
  lemma {:induction false} SummaryCount(fps: int, t: Summary, frames: seq<FrameInput>)
    ensures RunSummary(fps, t, frames).frameCount == t.frameCount + |Processed(fps, t.frameCount, frames)|
    decreases |frames|
  {
    if |frames| > 0 && t.frameCount < fps * CaptureSeconds {
      var t1 := SummaryStep(t, frames[0]);
      assert t1.frameCount == t.frameCount + 1;
      assert |Processed(fps, t.frameCount, frames)| == 1 + |Processed(fps, t1.frameCount, frames[1..])|;
      SummaryCount(fps, t1, frames[1..]);
    }
  }

  /** The log events the loop adds: one per plate over the processed frames. */
  lemma {:induction false} SummaryEvents(fps: int, t: Summary, frames: seq<FrameInput>)
    ensures RunSummary(fps, t, frames).eventCount == t.eventCount + TotalPlates(Processed(fps, t.frameCount, frames))
    decreases |frames|
  {
    if |frames| > 0 && t.frameCount < fps * CaptureSeconds {
      assert Processed(fps, t.frameCount, frames) == [frames[0]] + Processed(fps, t.frameCount + 1, frames[1..]);
      SummaryEvents(fps, SummaryStep(t, frames[0]), frames[1..]);
      TotalPlatesCons(frames[0], Processed(fps, t.frameCount + 1, frames[1..]));
    }
  }

  /** The estimate calls the loop makes: the schedule of the processed
      frames, numbered from the next frame on. */
  lemma {:induction false} SummaryCalls(fps: int, t: Summary, frames: seq<FrameInput>)
    ensures RunSummary(fps, t, frames).calls == t.calls + Schedule(Processed(fps, t.frameCount, frames), t.frameCount + 1)
    decreases |frames|
  {
    if |frames| > 0 && t.frameCount < fps * CaptureSeconds {
      var f := frames[0];
      var t1 := SummaryStep(t, f);
      var rest := Processed(fps, t.frameCount + 1, frames[1..]);
      assert Processed(fps, t.frameCount, frames) == [f] + rest;
      assert t1.frameCount == t.frameCount + 1 && t1.calls == t.calls + FrameSchedule(t.frameCount + 1, f.tracked);
      SummaryCalls(fps, t1, frames[1..]);
      ScheduleCons(f, rest, t.frameCount + 1);
      Chain(RunSummary(fps, t1, frames[1..]).calls, t1.calls, t.calls,
            FrameSchedule(t.frameCount + 1, f.tracked), Schedule(rest, t.frameCount + 2),
            Schedule([f] + rest, t.frameCount + 1));
    }
  }

  /** The class-map keys after the loop: the old ones and every index that
      some processed frame has a detection at. */
  lemma {:induction false} SummaryClasses(fps: int, t: Summary, frames: seq<FrameInput>, i: int)
    ensures i in RunSummary(fps, t, frames).classMap <==> i in t.classMap || Seen(Processed(fps, t.frameCount, frames), i)
    decreases |frames|
  {
    if |frames| > 0 && t.frameCount < fps * CaptureSeconds {
      var f := frames[0];
      assert Processed(fps, t.frameCount, frames) == [f] + Processed(fps, t.frameCount + 1, frames[1..]);
      SummaryClasses(fps, SummaryStep(t, f), frames[1..], i);
      RecordClassesSpec(t.classMap, f.detections, i);
      SeenCons(f, Processed(fps, t.frameCount + 1, frames[1..]), i);
    }
  }

  /** Logged events stay sound over the whole loop. */
  lemma {:induction false} RunSound(fps: int, sqrt: real -> real, s: Session, frames: seq<FrameInput>)
    requires EventsSound(s)
    ensures EventsSound(Run(fps, sqrt, s, frames))
    decreases |frames|
  {
    if |frames| > 0 && s.frameCount < fps * CaptureSeconds {
      var f := frames[0];
      var s0 := Advance(s, f);
      assert EventsSound(s0);
      ObserveFromSound(fps, sqrt, s0, f, 0);
      RunSound(fps, sqrt, StepFrame(fps, sqrt, s, f), frames[1..]);
    }
  }

  /** The loop processes `min(len(frames), fps * 8)` frames, none when fps <= 0. */
  lemma FrameCutoff(fps: int, sqrt: real -> real, frames: seq<FrameInput>)
    ensures var n := Run(fps, sqrt, Start(), frames).frameCount;
            && (fps <= 0 ==> n == 0)
            && (fps > 0 ==> n == if |frames| <= fps * CaptureSeconds then |frames| else fps * CaptureSeconds)
  {
    RunSummarized(fps, sqrt, Start(), frames);
    SummaryCount(fps, Summarize(Start()), frames);
    ProcessedPrefix(fps, 0, frames);
  }

  /** `estimate_speed` is called once per tracked vehicle of every processed
      frame, in tracker order, with frame indices 1, 2, ... in order and the
      tracker's box converted by `int`. */
  lemma EstimateCallsInOrder(fps: int, sqrt: real -> real, frames: seq<FrameInput>)
    ensures var r := Run(fps, sqrt, Start(), frames);
            r.frameCount <= |frames| && r.calls == Schedule(frames[..r.frameCount], 1)
  {
    RunSummarized(fps, sqrt, Start(), frames);
    SummaryCount(fps, Summarize(Start()), frames);
    SummaryCalls(fps, Summarize(Start()), frames);
    ProcessedPrefix(fps, 0, frames);
  }

  /** One log event per plate per tracked vehicle: the session logs exactly as
      many times as plates are found over the processed frames. */
  lemma OneEventPerPlate(fps: int, sqrt: real -> real, frames: seq<FrameInput>)
    ensures var r := Run(fps, sqrt, Start(), frames);
            r.frameCount <= |frames| && |r.events| == TotalPlates(frames[..r.frameCount])
  {
    RunSummarized(fps, sqrt, Start(), frames);
    SummaryCount(fps, Summarize(Start()), frames);
    SummaryEvents(fps, Summarize(Start()), frames);
    ProcessedPrefix(fps, 0, frames);
  }

  /** The class map is never cleared: index i has an entry exactly when some
      processed frame had more than i detections, so the lookup falls back to
      "unknown" only for an index no frame has reached. */
  lemma ClassMapCoverage(fps: int, sqrt: real -> real, frames: seq<FrameInput>, i: int)
    ensures var r := Run(fps, sqrt, Start(), frames);
            && r.frameCount <= |frames|
            && (i in r.classMap <==> Seen(frames[..r.frameCount], i))
            && (!Seen(frames[..r.frameCount], i) ==> ClassAt(r.classMap, i) == "unknown")
  {
    RunSummarized(fps, sqrt, Start(), frames);
    SummaryCount(fps, Summarize(Start()), frames);
    SummaryClasses(fps, Summarize(Start()), frames, i);
    ProcessedPrefix(fps, 0, frames);
  }

  /** Over a session, every log event has a frame index between 1 and the
      number of frames processed, events come in non-decreasing frame order,
      and each carries the status of its speed against its class's limit. */
  lemma SessionEventsSound(fps: int, sqrt: real -> real, frames: seq<FrameInput>)
    ensures EventsSound(Run(fps, sqrt, Start(), frames))
  {
    RunSound(fps, sqrt, Start(), frames);
  }

  /** The rows of a session: one per log event, row n stamped `clock(n)`. */
  lemma {:induction false} LogRowsAt(clock: nat -> string, events: seq<LogEvent>)
    ensures |LogRows(clock, events)| == |events|
    ensures forall n :: 0 <= n < |events| ==> LogRows(clock, events)[n] == EventRow(clock(n), events[n])
  {
    if |events| > 0 {
      var front := events[..|events| - 1];
      LogRowsAt(clock, front);
      forall n | 0 <= n < |front|
        ensures events[n] == front[n]
      {
      }
    }
  }

  // ---------------------------------------------------------------------
  // Speed limits

  /** The limit table: 60 km/h for trucks and buses, 70 for motorbikes, 80
      for cars and for every other class (including "unknown"); a vehicle is
      flagged exactly when its speed is strictly above its class's limit. */
  lemma OverspeedThreshold(speedKmh: real, className: string)
    ensures var limit := if className == "truck" || className == "bus" then 60
                         else if className == "motorbike" then 70 else 80;
            && SpeedLimit(className) == limit
            && (Classify(speedKmh, SpeedLimit(className)) == Overspeed <==> speedKmh > limit as real)
  {
  }

  /** No class has a limit below 60 km/h, so a vehicle at 60 km/h or slower,
      in particular one seen for the first time (speed 0), is never flagged. */
  lemma SlowIsNormal(speedKmh: real, className: string)
    requires speedKmh <= 60.0
    ensures Classify(speedKmh, SpeedLimit(className)) == Normal
  {
    OverspeedThreshold(speedKmh, className);
  }

  // ---------------------------------------------------------------------
  // The log call as written

  /** A Python value passed to a call. */
  datatype Argument = IntArg(n: int) | TextArg(t: string) | RealArg(x: real)

  /** The positional arguments of the log call in the plate loop as written:
      frame index, id, class, plate text, confidence, speed and status label. */
  function AsWrittenLogArguments(e: LogEvent): seq<Argument> {
    [IntArg(e.frame), IntArg(e.trackingId), TextArg(e.className), TextArg(e.text),
     RealArg(e.conf), RealArg(e.speedKmh), TextArg(StatusLabel(e.status))]
  }

  /** The call as written passes seven arguments to a method that takes four
      after `self`, which Python rejects with a `TypeError` before the body runs. */
  lemma AsWrittenArityMismatch(e: LogEvent)
    ensures |AsWrittenLogArguments(e)| == 7 && |LogParameters| == 4
    ensures |AsWrittenLogArguments(e)| != |LogParameters|
  {
  }

  /** How Python binds the positional arguments of a call to `log`: the
      call proceeds when there is one argument per parameter after `self`,
      and raises `TypeError` otherwise. */
  datatype Binding = Bound | TypeErrorOnCall

  function LogAsWritten(args: seq<Argument>): Binding {
    if |args| == |LogParameters| then Bound else TypeErrorOnCall
  }

  /** How a session as written ends. */
  datatype Outcome = Finished(framesProcessed: nat) | TypeErrorRaised(frame: int, trackingId: int)

  /** The log calls of a session, one per event in order, each passing
      `argsOf` of its event: the first call that does not bind raises and
      ends the session; otherwise it runs through all `n` frames. */
  function LogCalls(argsOf: LogEvent -> seq<Argument>, events: seq<LogEvent>, n: nat): Outcome {
    if |events| == 0 then Finished(n)
    else if LogAsWritten(argsOf(events[0])) == TypeErrorOnCall then
      TypeErrorRaised(events[0].frame, events[0].trackingId)
    else LogCalls(argsOf, events[1..], n)
  }

  /** `process_video` as written: everything before a log call happens as in
      `Run`; the session ends at the first log call that raises. */
  function SessionAsWritten(fps: int, sqrt: real -> real, frames: seq<FrameInput>): Outcome {
    var r := Run(fps, sqrt, Start(), frames);
    LogCalls(AsWrittenLogArguments, r.events, r.frameCount)
  }

  /** The positional arguments of the log call that matches `log` as coded:
      id, plate text, confidence and speed. */
  function CorrectedLogArguments(e: LogEvent): seq<Argument> {
    [IntArg(e.trackingId), TextArg(e.text), RealArg(e.conf), RealArg(e.speedKmh)]
  }

  /** For every event, the call as written does not bind and the call that
      matches `log` does. */
  lemma LogArgumentsBind(e: LogEvent)
    ensures LogAsWritten(AsWrittenLogArguments(e)) == TypeErrorOnCall
    ensures LogAsWritten(CorrectedLogArguments(e)) == Bound
  {
    AsWrittenArityMismatch(e);
  }

  /** With the call that matches `log`, every log call of a session binds,
      so the session runs through all its frames. */
  lemma {:induction false} CorrectedCallsFinish(events: seq<LogEvent>, n: nat)
    ensures LogCalls(CorrectedLogArguments, events, n) == Finished(n)
    decreases |events|
  {
    if |events| > 0 {
      LogArgumentsBind(events[0]);
      CorrectedCallsFinish(events[1..], n);
    }
  }

  /** As written, a session ends normally exactly when no plate is found in
      any processed frame; as soon as one is, it raises. */
  lemma AsWrittenRaisesIffPlateFound(fps: int, sqrt: real -> real, frames: seq<FrameInput>)
    ensures var n := Run(fps, sqrt, Start(), frames).frameCount;
            && n <= |frames|
            && (SessionAsWritten(fps, sqrt, frames).TypeErrorRaised? <==> TotalPlates(frames[..n]) > 0)
            && (SessionAsWritten(fps, sqrt, frames).TypeErrorRaised? ==>
                  1 <= SessionAsWritten(fps, sqrt, frames).frame <= n)
  {
    var r := Run(fps, sqrt, Start(), frames);
    OneEventPerPlate(fps, sqrt, frames);
    SessionEventsSound(fps, sqrt, frames);
    if |r.events| > 0 {
      AsWrittenArityMismatch(r.events[0]);
    }
  }
}
