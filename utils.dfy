/** Plate detection inside one vehicle box: the plate detector runs on the
    vehicle crop, every plate box it reports is moved from crop coordinates
    to frame coordinates, and the OCR reads the plate at that frame box. The
    detector and the OCR are external; their answers are inputs here. */
module PlateDetect {
  import opened Boxes

  /** What the OCR returns for one plate box: the text and its confidence. */
  datatype OcrResult = OcrResult(text: string, conf: real)

  /** One entry of the returned list: the plate box in frame coordinates and
      what the OCR read there. */
  datatype PlateInfo = PlateInfo(bbox: Box, text: string, conf: real)

  /** All plate boxes of a list of detector results, result by result and,
      within a result, box by box. */
  function AllBoxes(results: seq<seq<RealBox>>): seq<RealBox> {
    if results == [] then [] else AllBoxes(results[..|results| - 1]) + results[|results| - 1]
  }

  /** The number of plate boxes the detector reported, over all results. */
  function TotalBoxes(results: seq<seq<RealBox>>): nat {
    if results == [] then 0 else |results[0]| + TotalBoxes(results[1..])
  }

  /** A plate box relative to the vehicle crop, in frame coordinates: each
      corner is truncated to an integer and shifted by the crop's top-left
      corner (x1, y1). */
  function ToFrame(vehicle: Box, plate: RealBox): Box {
    Box(vehicle.x1 + TruncateToInt(plate.x1), vehicle.y1 + TruncateToInt(plate.y1),
        vehicle.x1 + TruncateToInt(plate.x2), vehicle.y1 + TruncateToInt(plate.y2))
  }

  /** A frame box seen relative to the vehicle crop again. */
  function ToCrop(vehicle: Box, b: Box): Box {
    Box(b.x1 - vehicle.x1, b.y1 - vehicle.y1, b.x2 - vehicle.x1, b.y2 - vehicle.y1)
  }

  /** The entry built for one plate box. */
  function Entry(vehicle: Box, plate: RealBox, readPlate: Box -> OcrResult): PlateInfo {
    var b := ToFrame(vehicle, plate);
    PlateInfo(b, readPlate(b).text, readPlate(b).conf)
  }

  /** One entry per plate box, in the order of the boxes. */
  function Entries(vehicle: Box, plates: seq<RealBox>, readPlate: Box -> OcrResult): seq<PlateInfo> {
    seq(|plates|, k requires 0 <= k < |plates| => Entry(vehicle, plates[k], readPlate))
  }

  /** `detect_and_read_plate`. The vehicle box is converted with `int`; an
      empty crop gives the empty list; otherwise the list holds one entry per
      reported plate box, in iteration order. */
  method DetectAndReadPlate(vehicleBbox: RealBox, cropEmpty: bool, plateResults: seq<seq<RealBox>>,
                            readPlate: Box -> OcrResult)
    returns (platesInfo: seq<PlateInfo>)
    ensures cropEmpty ==> platesInfo == []
    ensures !cropEmpty ==> platesInfo == Entries(ToIntBox(vehicleBbox), AllBoxes(plateResults), readPlate)
    ensures |platesInfo| == if cropEmpty then 0 else TotalBoxes(plateResults)
  {
    var vehicle := ToIntBox(vehicleBbox);
    var x1, y1 := vehicle.x1, vehicle.y1;
    if cropEmpty {
      return [];
    }
    platesInfo := [];
    var i := 0;
    while i < |plateResults|
      invariant 0 <= i <= |plateResults|
      invariant platesInfo == Entries(vehicle, AllBoxes(plateResults[..i]), readPlate)
    {
      var boxes := plateResults[i];
      var j := 0;
      while j < |boxes|
        invariant 0 <= j <= |boxes|
        invariant platesInfo == Entries(vehicle, AllBoxes(plateResults[..i]) + boxes[..j], readPlate)
      {
        var plate := boxes[j];
        var px1, py1, px2, py2 := TruncateToInt(plate.x1), TruncateToInt(plate.y1),
                                  TruncateToInt(plate.x2), TruncateToInt(plate.y2);
        var plateX1, plateY1 := x1 + px1, y1 + py1;
        var plateX2, plateY2 := x1 + px2, y1 + py2;
        var ocr := readPlate(Box(plateX1, plateY1, plateX2, plateY2));
        assert boxes[..j + 1] == boxes[..j] + [plate];
        platesInfo := platesInfo + [PlateInfo(Box(plateX1, plateY1, plateX2, plateY2), ocr.text, ocr.conf)];
        j := j + 1;
      }
      assert boxes[..j] == boxes;
      assert plateResults[..i + 1][..i] == plateResults[..i];
      i := i + 1;
    }
    assert plateResults[..i] == plateResults;
    AllBoxesCount(plateResults);
  }

  /** Concatenating result lists concatenates their boxes. */
  lemma {:induction false} AllBoxesAppend(r1: seq<seq<RealBox>>, r2: seq<seq<RealBox>>)
    ensures AllBoxes(r1 + r2) == AllBoxes(r1) + AllBoxes(r2)
    decreases |r2|
  {
    if r2 == [] {
      assert r1 + r2 == r1;
    } else {
      var front := r2[..|r2| - 1];
      assert (r1 + r2)[..|r1 + r2| - 1] == r1 + front;
      AllBoxesAppend(r1, front);
      assert r2[..|r2| - 1] == front;
    }
  }

  /** The list holds exactly as many boxes as the detector reported. */
  lemma {:induction false} AllBoxesCount(results: seq<seq<RealBox>>)
    ensures |AllBoxes(results)| == TotalBoxes(results)
  {
    if results != [] {
      AllBoxesAppend([results[0]], results[1..]);
      assert [results[0]] + results[1..] == results;
      assert AllBoxes([results[0]]) == results[0] by {
        assert [results[0]][..0] == [];
      }
      AllBoxesCount(results[1..]);
    }
  }

  /** The k-th entry is the k-th reported box in frame coordinates, with the
      text and confidence the OCR read at exactly that frame box. */
  lemma EntryAt(vehicle: Box, results: seq<seq<RealBox>>, readPlate: Box -> OcrResult, k: int)
    requires 0 <= k < |AllBoxes(results)|
    ensures var e := Entries(vehicle, AllBoxes(results), readPlate)[k];
            && e.bbox == ToFrame(vehicle, AllBoxes(results)[k])
            && e.text == readPlate(e.bbox).text
            && e.conf == readPlate(e.bbox).conf
  {
  }

  /** Moving a plate box into the frame and back gives the crop-relative
      integer box the detector reported. */
  lemma ToFrameRoundTrip(vehicle: Box, plate: RealBox)
    ensures ToCrop(vehicle, ToFrame(vehicle, plate)) == ToIntBox(plate)
  {
  }
}
