/** The CSV event log: a file that gets a header row when it is first
    created and one appended row per logged plate. The file is modelled by
    whether it is present and the rows it holds; the text of a cell is kept
    symbolic (`str` of an integer, a float formatted with two decimals). */
module VehicleLog {

  /** One CSV cell: literal text, `str(n)` of an integer, or `f"{x:.2f}"`. */
  datatype Cell = Text(s: string) | Integer(n: int) | Fixed2(x: real)

  type Row = seq<Cell>

  /** The header row written when the file is created. */
  const Header: Row := [Text("timestamp"), Text("vehicle_id"), Text("plate"), Text("confidence"), Text("speed_kmh")]

  /** The parameters of `VehicleLogger.log` after `self`. */
  const LogParameters: seq<string> := ["vehicle_id", "plate", "conf", "speed_kmh"]

  /** The row `log` writes: the timestamp, then the id, the plate text, the
      confidence and the speed, the last two with two decimals. */
  function DataRow(timestamp: string, vehicleId: int, plate: string, conf: real, speedKmh: real): Row {
    [Text(timestamp), Integer(vehicleId), Text(plate), Fixed2(conf), Fixed2(speedKmh)]
  }

  /** The rows a file holds once a logger has been opened on it. */
  function Opened(present: bool, rows: seq<Row>): seq<Row> {
    if present then rows else [Header]
  }

  /** A file on disk at one path. */
  class CsvFile {
    var present: bool
    var rows: seq<Row>

    /** A file that does not exist holds no rows. */
    ghost predicate Valid() reads this {
      !present ==> rows == []
    }

    /** No file at the path yet. */
    constructor Absent()
      ensures Valid() && !present && rows == []
    {
      present := false;
      rows := [];
    }

    /** A file already present, with the rows it holds. */
    constructor Present(rows: seq<Row>)
      ensures Valid() && present && this.rows == rows
    {
      present := true;
      this.rows := rows;
    }
  }

  class VehicleLogger {
    /** The file at `filepath`. */
    const file: CsvFile

    /** Creates the file with the header row if it does not exist; an
        existing file is left as it is. */
    constructor (file: CsvFile)
      requires file.Valid()
      modifies file
      ensures this.file == file
      ensures file.Valid() && file.present
      ensures file.rows == Opened(old(file.present), old(file.rows))
    {
      this.file := file;
      new;
      if !file.present {
        file.present := true;
        file.rows := [Header];
      }
    }

    /** `log`: appends exactly one row at the end; the rows before it are
        untouched (append mode). The timestamp is the clock reading. */
    method Log(timestamp: string, vehicleId: int, plate: string, conf: real, speedKmh: real)
      requires file.Valid()
      modifies file
      ensures file.Valid() && file.present
      ensures file.rows == old(file.rows) + [DataRow(timestamp, vehicleId, plate, conf, speedKmh)]
    {
      file.present := true;
      file.rows := file.rows + [[Text(timestamp), Integer(vehicleId), Text(plate), Fixed2(conf), Fixed2(speedKmh)]];
    }
  }

  /** Every data row has one cell per header column, with the values in the
      header's order. */
  lemma DataRowMatchesHeader(timestamp: string, vehicleId: int, plate: string, conf: real, speedKmh: real)
    ensures var r := DataRow(timestamp, vehicleId, plate, conf, speedKmh);
            && |r| == |Header| == 5
            && r[0] == Text(timestamp) && r[1] == Integer(vehicleId) && r[2] == Text(plate)
            && r[3] == Fixed2(conf) && r[4] == Fixed2(speedKmh)
  {
  }

  /** Opening the log writes the header exactly when the file is absent, and
      opening it again adds nothing. */
  lemma OpenedIdempotent(present: bool, rows: seq<Row>)
    ensures Opened(true, Opened(present, rows)) == Opened(present, rows)
    ensures !present ==> Opened(present, rows) == [Header]
    ensures present ==> Opened(present, rows) == rows
  {
  }
}
