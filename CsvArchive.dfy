/** The CSV tile archive: one text line per tile,
    `x<col>y<col>z<col>encoded<line>`, with the separators and the
    binary-to-text encoder fixed when the archive is created. */
module CsvArchive {
  import opened Wrappers
  import opened Archive
  import opened Text

  /** An I/O failure, surfaced by the writer as an UncheckedIOException. */
  datatype IoError = StreamClosed

  /** The fourth field: empty for a null payload (the encoder is not
      applied), otherwise the encoder's text for the payload. */
  function EncodedField(data: Option<seq<byte>>, encoder: seq<byte> -> string): string {
    match data
    case None => ""
    case Some(d) => encoder(d)
  }

  /** The record without its line terminator: x, y, z, encoded, in that order. */
  function RecordBody(coord: TileCoord, encoded: string, col: string): string {
    IntToDecimal(coord.x as int) + col + (IntToDecimal(coord.y as int) + col
      + (IntToDecimal(coord.z as int) + col + encoded))
  }

  /** The line CsvTileWriter.write emits for one tile. */
  function Record(t: TileEncodingResult, col: string, line: string, encoder: seq<byte> -> string): (r: string)
    ensures |line| <= |r| && r[|r| - |line|..] == line
  {
    RecordBody(t.coord, EncodedField(t.tileData, encoder), col) + line
  }

  /** What a consumer reads back from one record. */
  datatype CsvFields = CsvFields(x: int, y: int, z: int, encoded: string)

  /** The consumer's reading of one record body: exactly four fields, the
      first three decimals. */
  function ParseBody(body: string, col: string): Option<CsvFields>
    requires |col| > 0
  {
    var parts := Split(body, col);
    if |parts| != 4 then None
    else
      match (ParseDecimal(parts[0]), ParseDecimal(parts[1]), ParseDecimal(parts[2]))
      case (Some(x), Some(y), Some(z)) => Some(CsvFields(x, y, z, parts[3]))
      case _ => None
  }

  /** The consumer's reading of one line-terminated record. */
  function ParseRecord(record: string, col: string, line: string): Option<CsvFields>
    requires |col| > 0
  {
    if |line| <= |record| && record[|record| - |line|..] == line
    then ParseBody(record[..|record| - |line|], col)
    else None
  }

  /** The separators cannot be confused with the data around them: no field
      can start a column separator (decimals hold only digits and '-', and
      the encoded field does not contain it), and the first character of the
      line separator occurs nowhere in the record body. */
  predicate SafeSeparators(col: string, line: string, encoded: string) {
    && |col| > 0 && !IsDigit(col[0]) && col[0] != '-'
    && !Contains(encoded, col)
    && |line| > 0 && !IsDigit(line[0]) && line[0] != '-'
    && Avoids(col, line[0]) && Avoids(encoded, line[0])
  }

  /** Three fields free of the separator's first character, then a last
      field free of the separator, split into exactly those four. */
  lemma SplitFourFields(a: string, b: string, c: string, d: string, col: string)
    requires |col| > 0 && Avoids(a, col[0]) && Avoids(b, col[0]) && Avoids(c, col[0])
    requires !Contains(d, col)
    ensures Split(a + col + (b + col + (c + col + d)), col) == [a, b, c, d]
  {
    SplitWithoutSeparator(d, col);
    SplitAfterField(c, col, d);
    SplitAfterField(b, col, c + col + d);
    SplitAfterField(a, col, b + col + (c + col + d));
  }

  /** The body of a record splits into exactly its four fields. */
  lemma SplitBody(coord: TileCoord, encoded: string, col: string)
    requires |col| > 0 && !IsDigit(col[0]) && col[0] != '-'
    requires !Contains(encoded, col)
    ensures Split(RecordBody(coord, encoded, col), col)
         == [IntToDecimal(coord.x as int), IntToDecimal(coord.y as int), IntToDecimal(coord.z as int), encoded]
  {
    DecimalAvoids(coord.x as int, col[0]);
    DecimalAvoids(coord.y as int, col[0]);
    DecimalAvoids(coord.z as int, col[0]);
    SplitFourFields(IntToDecimal(coord.x as int), IntToDecimal(coord.y as int), IntToDecimal(coord.z as int),
                    encoded, col);
  }

  /** One record body reads back as x, y, z and the encoded field. */
  lemma BodyRoundTrip(coord: TileCoord, encoded: string, col: string)
    requires |col| > 0 && !IsDigit(col[0]) && col[0] != '-'
    requires !Contains(encoded, col)
    ensures ParseBody(RecordBody(coord, encoded, col), col)
         == Some(CsvFields(coord.x as int, coord.y as int, coord.z as int, encoded))
  {
    SplitBody(coord, encoded, col);
    DecimalRoundTrip(coord.x as int);
    DecimalRoundTrip(coord.y as int);
    DecimalRoundTrip(coord.z as int);
  }

  /** Round trip of one record: a consumer splitting on the column separator
      recovers x, y, z and the encoded field. */
  lemma RecordRoundTrip(t: TileEncodingResult, col: string, line: string, encoder: seq<byte> -> string)
    requires SafeSeparators(col, line, EncodedField(t.tileData, encoder))
    ensures ParseRecord(Record(t, col, line, encoder), col, line)
         == Some(CsvFields(t.coord.x as int, t.coord.y as int, t.coord.z as int, EncodedField(t.tileData, encoder)))
  {
    var encoded := EncodedField(t.tileData, encoder);
    var r := Record(t, col, line, encoder);
    assert r[..|r| - |line|] == RecordBody(t.coord, encoded, col);
    BodyRoundTrip(t.coord, encoded, col);
  }

  /** A null payload: the encoder is never consulted, and the fourth field
      reads back empty rather than as a "null" marker. */
  lemma AbsentPayload(coord: TileCoord, col: string, line: string, e1: seq<byte> -> string, e2: seq<byte> -> string)
    requires SafeSeparators(col, line, "")
    ensures Record(TileEncodingResult(coord, None), col, line, e1) == Record(TileEncodingResult(coord, None), col, line, e2)
    ensures ParseRecord(Record(TileEncodingResult(coord, None), col, line, e1), col, line)
         == Some(CsvFields(coord.x as int, coord.y as int, coord.z as int, ""))
  {
    RecordRoundTrip(TileEncodingResult(coord, None), col, line, e1);
  }

  /** A present payload: the fourth field reads back as the encoder's text. */
  lemma PresentPayload(coord: TileCoord, data: seq<byte>, col: string, line: string, encoder: seq<byte> -> string)
    requires SafeSeparators(col, line, encoder(data))
    ensures ParseRecord(Record(TileEncodingResult(coord, Some(data)), col, line, encoder), col, line)
         == Some(CsvFields(coord.x as int, coord.y as int, coord.z as int, encoder(data)))
  {
    RecordRoundTrip(TileEncodingResult(coord, Some(data)), col, line, encoder);
  }

  /** Tile x=1, y=2, z=3 with two payload bytes and the default separators. */
  lemma DefaultSeparatorsExample(encoder: seq<byte> -> string)
    ensures Record(TileEncodingResult(TileCoord(1, 2, 3), Some([1, 2])), ",", "\n", encoder)
         == "1,2,3," + encoder([1, 2]) + "\n"
  {
  }

  /** The text of successive writes: each tile's record, in write order. */
  function Output(ts: seq<TileEncodingResult>, col: string, line: string, encoder: seq<byte> -> string): string
    decreases |ts|
  {
    if ts == [] then "" else Record(ts[0], col, line, encoder) + Output(ts[1..], col, line, encoder)
  }

  /** One more write extends the stream by exactly that tile's record, so a
      writer that has written ts, one write at a time, holds Output(ts). */
  lemma {:induction false} OutputAppend(ts: seq<TileEncodingResult>, t: TileEncodingResult,
                                        col: string, line: string, encoder: seq<byte> -> string)
    ensures Output(ts + [t], col, line, encoder) == Output(ts, col, line, encoder) + Record(t, col, line, encoder)
    decreases |ts|
  {
    if ts == [] {
      assert [t][1..] == [];
    } else {
      assert (ts + [t])[1..] == ts[1..] + [t];
      OutputAppend(ts[1..], t, col, line, encoder);
    }
  }

  /** Reads a whole stream of records: split into lines, the text after the
      last terminator must be empty, each line must parse. */
  function ParseOutput(out: string, col: string, line: string): Option<seq<CsvFields>>
    requires |col| > 0 && |line| > 0
  {
    var lines := Split(out, line);
    if lines[|lines| - 1] != "" then None else ParseBodies(lines[..|lines| - 1], col)
  }

  function ParseBodies(bodies: seq<string>, col: string): Option<seq<CsvFields>>
    requires |col| > 0
    decreases |bodies|
  {
    if bodies == [] then Some([])
    else
      match (ParseBody(bodies[0], col), ParseBodies(bodies[1..], col))
      case (Some(f), Some(fs)) => Some([f] + fs)
      case _ => None
  }

  function FieldsOf(ts: seq<TileEncodingResult>, encoder: seq<byte> -> string): (fs: seq<CsvFields>)
    ensures |fs| == |ts|
    decreases |ts|
  {
    if ts == [] then []
    else
      [CsvFields(ts[0].coord.x as int, ts[0].coord.y as int, ts[0].coord.z as int, EncodedField(ts[0].tileData, encoder))]
      + FieldsOf(ts[1..], encoder)
  }

  function BodiesOf(ts: seq<TileEncodingResult>, col: string, encoder: seq<byte> -> string): (bs: seq<string>)
    ensures |bs| == |ts|
    decreases |ts|
  {
    if ts == [] then [] else [RecordBody(ts[0].coord, EncodedField(ts[0].tileData, encoder), col)] + BodiesOf(ts[1..], col, encoder)
  }

  lemma BodyAvoidsLineStart(coord: TileCoord, encoded: string, col: string, line: string)
    requires SafeSeparators(col, line, encoded)
    ensures Avoids(RecordBody(coord, encoded, col), line[0])
  {
    DecimalAvoids(coord.x as int, line[0]);
    DecimalAvoids(coord.y as int, line[0]);
    DecimalAvoids(coord.z as int, line[0]);
  }

  /** Splitting the output on the line separator gives the record bodies,
      then the empty text after the last terminator. */
  lemma {:induction false} OutputLines(ts: seq<TileEncodingResult>, col: string, line: string, encoder: seq<byte> -> string)
    requires forall i :: 0 <= i < |ts| ==> SafeSeparators(col, line, EncodedField(ts[i].tileData, encoder))
    requires |line| > 0
    ensures Split(Output(ts, col, line, encoder), line) == BodiesOf(ts, col, encoder) + [""]
    decreases |ts|
  {
    if ts != [] {
      var encoded := EncodedField(ts[0].tileData, encoder);
      var body := RecordBody(ts[0].coord, encoded, col);
      var rest := Output(ts[1..], col, line, encoder);
      assert SafeSeparators(col, line, encoded);
      OutputLines(ts[1..], col, line, encoder);
      BodyAvoidsLineStart(ts[0].coord, encoded, col, line);
      SplitAfterField(body, line, rest);
    }
  }

  lemma {:induction false} BodiesRoundTrip(ts: seq<TileEncodingResult>, col: string, line: string, encoder: seq<byte> -> string)
    requires forall i :: 0 <= i < |ts| ==> SafeSeparators(col, line, EncodedField(ts[i].tileData, encoder))
    requires |col| > 0
    ensures ParseBodies(BodiesOf(ts, col, encoder), col) == Some(FieldsOf(ts, encoder))
    decreases |ts|
  {
    if ts != [] {
      var encoded := EncodedField(ts[0].tileData, encoder);
      assert SafeSeparators(col, line, encoded);
      BodyRoundTrip(ts[0].coord, encoded, col);
      BodiesRoundTrip(ts[1..], col, line, encoder);
      var bs := BodiesOf(ts, col, encoder);
      assert bs[0] == RecordBody(ts[0].coord, encoded, col);
      assert bs[1..] == BodiesOf(ts[1..], col, encoder);
    }
  }

  /** n writes give n line-terminated records, and a consumer reading the
      stream line by line and field by field recovers every tile's fields in
      write order. */
  lemma OutputRoundTrip(ts: seq<TileEncodingResult>, col: string, line: string, encoder: seq<byte> -> string)
    requires forall i :: 0 <= i < |ts| ==> SafeSeparators(col, line, EncodedField(ts[i].tileData, encoder))
    requires |col| > 0 && |line| > 0
    ensures |Split(Output(ts, col, line, encoder), line)| == |ts| + 1
    ensures ParseOutput(Output(ts, col, line, encoder), col, line) == Some(FieldsOf(ts, encoder))
  {
    OutputLines(ts, col, line, encoder);
    BodiesRoundTrip(ts, col, line, encoder);
    var lines := BodiesOf(ts, col, encoder) + [""];
    assert lines[..|lines| - 1] == BodiesOf(ts, col, encoder);
  }

  /** CsvTileWriter: appends one record per write to the text written so far. */
  class CsvTileWriter {
    const columnSeparator: string
    const lineSeparator: string
    const tileDataEncoder: seq<byte> -> string
    /** Everything handed to the underlying Writer so far. */
    var written: string
    var closed: bool

    constructor (columnSeparator: string, lineSeparator: string, tileDataEncoder: seq<byte> -> string)
      ensures this.columnSeparator == columnSeparator && this.lineSeparator == lineSeparator
      ensures this.tileDataEncoder == tileDataEncoder
      ensures written == "" && !closed
    {
      this.columnSeparator := columnSeparator;
      this.lineSeparator := lineSeparator;
      this.tileDataEncoder := tileDataEncoder;
      written := "";
      closed := false;
    }

    /** Appends exactly one record; earlier output is left as it was. A
        closed writer fails and writes nothing. */
    method Write(encodingResult: TileEncodingResult) returns (r: Outcome<IoError>)
      modifies this`written
      ensures r == (if closed then Fail(StreamClosed) else Pass)
      ensures written == if r.Pass?
        then old(written) + Record(encodingResult, columnSeparator, lineSeparator, tileDataEncoder)
        else old(written)
    {
      var data := encodingResult.tileData;
      var tileDataEncoded := if data.None? then "" else tileDataEncoder(data.value);
      if closed {
        return Fail(StreamClosed);
      }
      var coord := encodingResult.coord;
      var formatted := IntToDecimal(coord.x as int) + columnSeparator
        + (IntToDecimal(coord.y as int) + columnSeparator
        + (IntToDecimal(coord.z as int) + columnSeparator + tileDataEncoded)) + lineSeparator;
      written := written + formatted;
      r := Pass;
    }

    /** Closes the writer; closing again does nothing. */
    method Close()
      modifies this`closed
      ensures closed
    {
      closed := true;
    }
  }

  /** WriteableCsvArchive: captures the separators and the encoder once and
      hands the same three to every tile writer it creates. */
  class WriteableCsvArchive {
    const columnSeparator: string
    const lineSeparator: string
    const tileDataEncoder: seq<byte> -> string

    constructor (columnSeparator: string, lineSeparator: string, tileDataEncoder: seq<byte> -> string)
      ensures this.columnSeparator == columnSeparator && this.lineSeparator == lineSeparator
      ensures this.tileDataEncoder == tileDataEncoder
    {
      this.columnSeparator := columnSeparator;
      this.lineSeparator := lineSeparator;
      this.tileDataEncoder := tileDataEncoder;
    }

    method NewTileWriter() returns (w: CsvTileWriter)
      ensures fresh(w) && w.written == "" && !w.closed
      ensures w.columnSeparator == columnSeparator && w.lineSeparator == lineSeparator
      ensures w.tileDataEncoder == tileDataEncoder
    {
      w := new CsvTileWriter(columnSeparator, lineSeparator, tileDataEncoder);
    }
  }

  /** One write on a fresh writer from the archive emits exactly that
      tile's record, which a consumer reads back as the tile's fields. */
  method WriteOneTile(archive: WriteableCsvArchive, t: TileEncodingResult) returns (w: CsvTileWriter)
    requires SafeSeparators(archive.columnSeparator, archive.lineSeparator, EncodedField(t.tileData, archive.tileDataEncoder))
    ensures fresh(w) && w.closed
    ensures w.written == Record(t, archive.columnSeparator, archive.lineSeparator, archive.tileDataEncoder)
    ensures ParseRecord(w.written, archive.columnSeparator, archive.lineSeparator)
         == Some(CsvFields(t.coord.x as int, t.coord.y as int, t.coord.z as int, EncodedField(t.tileData, archive.tileDataEncoder)))
  {
    w := archive.NewTileWriter();
    var r := w.Write(t);
    w.Close();
    RecordRoundTrip(t, archive.columnSeparator, archive.lineSeparator, archive.tileDataEncoder);
  }

  /** Writing the next tile on an open writer that holds the records of ts
      leaves it holding the records of ts + [t]. */
  method WriteNext(w: CsvTileWriter, ghost ts: seq<TileEncodingResult>, t: TileEncodingResult)
    requires !w.closed && w.written == Output(ts, w.columnSeparator, w.lineSeparator, w.tileDataEncoder)
    modifies w
    ensures !w.closed && w.written == Output(ts + [t], w.columnSeparator, w.lineSeparator, w.tileDataEncoder)
  {
    var r := w.Write(t);
    OutputAppend(ts, t, w.columnSeparator, w.lineSeparator, w.tileDataEncoder);
  }
}
