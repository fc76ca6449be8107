/** The protobuf stream archive: archive metadata converted to the stream's
    message types, and a sequence of length-delimited entries, each a tagged
    union of Initialization, Tile and Finish. The wire bytes are not
    modelled; an entry stream is the sequence of messages written to it. */
module ProtoStreamArchive {
  import opened Wrappers
  import A = Archive

  /** StreamArchiveProto.VectorLayer.FieldType. Proto3 enums carry a zero
      value; it is listed so that "never produced" can be stated. */
  datatype FieldType = FieldTypeUnspecified | FieldTypeNumber | FieldTypeBoolean | FieldTypeString

  datatype Envelope = Envelope(minX: A.Double, maxX: A.Double, minY: A.Double, maxY: A.Double)

  datatype CoordinateXY = CoordinateXY(x: A.Double, y: A.Double)

  /** StreamArchiveProto.VectorLayer: `id` is a plain field, the optional
      fields have presence (None = not set). */
  datatype VectorLayer = VectorLayer(
    id: string,
    fields: map<string, FieldType>,
    description: Option<string>,
    minZoom: Option<A.int32>,
    maxZoom: Option<A.int32>)

  /** StreamArchiveProto.Metadata: optional fields have presence; the
      repeated and map fields are empty when nothing was added. */
  datatype Metadata = Metadata(
    name: Option<string>,
    description: Option<string>,
    attribution: Option<string>,
    version: Option<string>,
    archiveType: Option<string>,
    format: Option<string>,
    bounds: Option<Envelope>,
    center: Option<CoordinateXY>,
    zoom: Option<A.Double>,
    minZoom: Option<A.int32>,
    maxZoom: Option<A.int32>,
    vectorLayers: seq<VectorLayer>,
    others: map<string, string>)

  datatype TileEntry = TileEntry(z: A.int32, x: A.int32, y: A.int32, encodedData: seq<A.byte>)

  /** StreamArchiveProto.Entry: exactly one of its three cases is set. */
  datatype Entry =
    | Initialization(metadata: Metadata)
    | Tile(tile: TileEntry)
    | Finish(metadata: Metadata)

  /** setIfNotNull: a null value leaves the builder's field as it was. */
  function SetIfNotNull<T>(field: Option<T>, value: Option<T>): Option<T> {
    if value.Some? then value else field
  }

  function ExportFieldType(t: A.FieldType): (r: FieldType)
    ensures r != FieldTypeUnspecified
  {
    match t
    case NUMBER => FieldTypeNumber
    case BOOLEAN => FieldTypeBoolean
    case STRING => FieldTypeString
  }

  function ExportEnvelope(e: Option<A.Envelope>): (r: Option<Envelope>)
    ensures r.Some? <==> e.Some?
  {
    match e
    case None => None
    case Some(v) => Some(Envelope(v.minX, v.maxX, v.minY, v.maxY))
  }

  function ExportCoordinate(c: Option<A.CoordinateXY>): (r: Option<CoordinateXY>)
    ensures r.Some? <==> c.Some?
  {
    match c
    case None => None
    case Some(v) => Some(CoordinateXY(v.x, v.y))
  }

  function ExportFields(fields: map<string, A.FieldType>): (r: map<string, FieldType>)
    ensures r.Keys == fields.Keys
  {
    map k | k in fields :: ExportFieldType(fields[k])
  }

  /** toExportData(VectorLayer): the id always set, the optional parts only when present. */
  function ExportVectorLayer(vl: A.VectorLayer): VectorLayer {
    VectorLayer(
      vl.id,
      map[] + ExportFields(vl.fields),
      SetIfNotNull(None, vl.description),
      SetIfNotNull(None, vl.minzoom),
      SetIfNotNull(None, vl.maxzoom))
  }

  /** addVectorLayers applied to each layer in turn, after what is already there. */
  function AddVectorLayers(acc: seq<VectorLayer>, layers: seq<A.VectorLayer>): (r: seq<VectorLayer>)
    ensures |r| == |acc| + |layers| && r[..|acc|] == acc
    ensures forall i :: 0 <= i < |layers| ==> r[|acc| + i] == ExportVectorLayer(layers[i])
    decreases |layers|
  {
    if layers == [] then acc else AddVectorLayers(acc + [ExportVectorLayer(layers[0])], layers[1..])
  }

  /** toExportData(TileArchiveMetadata): every setter goes through
      setIfNotNull on a fresh builder (None = not set); the layers and the
      others entries are added only when their collection is non-null. */
  function ExportMetadata(m: A.TileArchiveMetadata): Metadata {
    Metadata(
      SetIfNotNull(None, m.name),
      SetIfNotNull(None, m.description),
      SetIfNotNull(None, m.attribution),
      SetIfNotNull(None, m.version),
      SetIfNotNull(None, m.archiveType),
      SetIfNotNull(None, m.format),
      SetIfNotNull(None, ExportEnvelope(m.bounds)),
      SetIfNotNull(None, ExportCoordinate(m.center)),
      SetIfNotNull(None, m.zoom),
      SetIfNotNull(None, m.minzoom),
      SetIfNotNull(None, m.maxzoom),
      if m.vectorLayers.Some? then AddVectorLayers([], m.vectorLayers.value) else [],
      if m.others.Some? then map[] + m.others.value else map[])
  }

  // ---- The reading direction, as a reference for what the export keeps ----

  function ImportFieldType(t: FieldType): Option<A.FieldType> {
    match t
    case FieldTypeUnspecified => None
    case FieldTypeNumber => Some(A.NUMBER)
    case FieldTypeBoolean => Some(A.BOOLEAN)
    case FieldTypeString => Some(A.STRING)
  }

  /** A message the export can produce: no field has the zero enum value. */
  predicate WellFormedLayer(vl: VectorLayer) {
    forall k :: k in vl.fields ==> vl.fields[k] != FieldTypeUnspecified
  }

  predicate WellFormed(pm: Metadata) {
    forall i :: 0 <= i < |pm.vectorLayers| ==> WellFormedLayer(pm.vectorLayers[i])
  }

  function ImportFields(fields: map<string, FieldType>): map<string, A.FieldType>
    requires forall k :: k in fields ==> fields[k] != FieldTypeUnspecified
  {
    map k | k in fields :: ImportFieldType(fields[k]).value
  }

  function ImportVectorLayer(vl: VectorLayer): A.VectorLayer
    requires WellFormedLayer(vl)
  {
    A.VectorLayer(vl.id, ImportFields(vl.fields), vl.description, vl.minZoom, vl.maxZoom)
  }

  function ImportVectorLayers(ls: seq<VectorLayer>): (r: seq<A.VectorLayer>)
    requires forall i :: 0 <= i < |ls| ==> WellFormedLayer(ls[i])
    ensures |r| == |ls|
    decreases |ls|
  {
    if ls == [] then [] else [ImportVectorLayer(ls[0])] + ImportVectorLayers(ls[1..])
  }

  /** An absent list or map reads back as null: the export writes a null and
      an empty list (or map) identically. */
  function ImportMetadata(pm: Metadata): A.TileArchiveMetadata
    requires WellFormed(pm)
  {
    A.TileArchiveMetadata(
      pm.name, pm.description, pm.attribution, pm.version, pm.archiveType, pm.format,
      match pm.bounds case None => None case Some(e) => Some(A.Envelope(e.minX, e.maxX, e.minY, e.maxY)),
      match pm.center case None => None case Some(c) => Some(A.CoordinateXY(c.x, c.y)),
      pm.zoom, pm.minZoom, pm.maxZoom,
      if pm.vectorLayers == [] then None else Some(ImportVectorLayers(pm.vectorLayers)),
      if pm.others == map[] then None else Some(pm.others))
  }

  /** The metadata with an empty list or map replaced by null. */
  function Canonical(m: A.TileArchiveMetadata): A.TileArchiveMetadata {
    m.(vectorLayers := if m.vectorLayers == Some([]) then None else m.vectorLayers,
       others := if m.others == Some(map[]) then None else m.others)
  }

  // ---- What the export promises ----

  /** Scalar fields are set exactly when non-null and then carry the value;
      bounds and center are set exactly when non-null and copy their numbers;
      vector layers follow the input list in order; others are copied. */
  lemma ExportMetadataFields(m: A.TileArchiveMetadata)
    ensures var r := ExportMetadata(m);
      && r.name == m.name && r.description == m.description && r.attribution == m.attribution
      && r.version == m.version && r.archiveType == m.archiveType && r.format == m.format
      && r.zoom == m.zoom && r.minZoom == m.minzoom && r.maxZoom == m.maxzoom
      && (r.bounds.Some? <==> m.bounds.Some?)
      && (m.bounds.Some? ==> r.bounds.value == Envelope(m.bounds.value.minX, m.bounds.value.maxX, m.bounds.value.minY, m.bounds.value.maxY))
      && (r.center.Some? <==> m.center.Some?)
      && (m.center.Some? ==> r.center.value == CoordinateXY(m.center.value.x, m.center.value.y))
      && (m.vectorLayers.None? ==> r.vectorLayers == [])
      && (m.vectorLayers.Some? ==>
            && |r.vectorLayers| == |m.vectorLayers.value|
            && forall i :: 0 <= i < |r.vectorLayers| ==> r.vectorLayers[i] == ExportVectorLayer(m.vectorLayers.value[i]))
      && r.others == m.others.GetOr(map[])
  {
    if m.vectorLayers.Some? {
      var r := AddVectorLayers([], m.vectorLayers.value);
      forall i | 0 <= i < |r| ensures r[i] == ExportVectorLayer(m.vectorLayers.value[i]) {
        assert r[0 + i] == ExportVectorLayer(m.vectorLayers.value[i]);
      }
    }
  }

  /** The layer's id is always set; every field key is kept with its type
      mapped one to one; description and zooms are set only when present. */
  lemma ExportVectorLayerFields(vl: A.VectorLayer)
    ensures var r := ExportVectorLayer(vl);
      && r.id == vl.id
      && r.fields.Keys == vl.fields.Keys
      && (forall k :: k in vl.fields ==> r.fields[k] == ExportFieldType(vl.fields[k]))
      && r.description == vl.description && r.minZoom == vl.minzoom && r.maxZoom == vl.maxzoom
      && WellFormedLayer(r)
  {
    assert map[] + ExportFields(vl.fields) == ExportFields(vl.fields);
  }

  /** The field-type mapping is total, one to one and never the zero value. */
  lemma ExportFieldTypeInjective(a: A.FieldType, b: A.FieldType)
    ensures ExportFieldType(a) == ExportFieldType(b) <==> a == b
    ensures ImportFieldType(ExportFieldType(a)) == Some(a)
  {
  }

  lemma ImportExportFields(fields: map<string, A.FieldType>)
    ensures forall k :: k in ExportFields(fields) ==> ExportFields(fields)[k] != FieldTypeUnspecified
    ensures ImportFields(ExportFields(fields)) == fields
  {
    var e := ExportFields(fields);
    forall k | k in e ensures e[k] != FieldTypeUnspecified && ImportFieldType(e[k]).value == fields[k] {
      ExportFieldTypeInjective(fields[k], fields[k]);
    }
  }

  lemma ImportExportVectorLayer(vl: A.VectorLayer)
    ensures WellFormedLayer(ExportVectorLayer(vl))
    ensures ImportVectorLayer(ExportVectorLayer(vl)) == vl
  {
    ExportVectorLayerFields(vl);
    ImportExportFields(vl.fields);
  }

  lemma {:induction false} ImportExportVectorLayers(ls: seq<A.VectorLayer>)
    ensures forall i :: 0 <= i < |AddVectorLayers([], ls)| ==> WellFormedLayer(AddVectorLayers([], ls)[i])
    ensures ImportVectorLayers(AddVectorLayers([], ls)) == ls
    decreases |ls|
  {
    var r := AddVectorLayers([], ls);
    forall i | 0 <= i < |r| ensures WellFormedLayer(r[i]) && ImportVectorLayer(r[i]) == ls[i] {
      assert r[0 + i] == ExportVectorLayer(ls[i]);
      ImportExportVectorLayer(ls[i]);
    }
    ImportPointwise(r, ls);
  }

  lemma {:induction false} ImportPointwise(r: seq<VectorLayer>, ls: seq<A.VectorLayer>)
    requires |r| == |ls|
    requires forall i :: 0 <= i < |r| ==> WellFormedLayer(r[i]) && ImportVectorLayer(r[i]) == ls[i]
    ensures ImportVectorLayers(r) == ls
    decreases |r|
  {
    if r != [] {
      ImportPointwise(r[1..], ls[1..]);
    }
  }

  /** Reading back the exported metadata gives the input, except that an
      empty list or map comes back as null. */
  lemma ImportExportMetadata(m: A.TileArchiveMetadata)
    ensures WellFormed(ExportMetadata(m))
    ensures ImportMetadata(ExportMetadata(m)) == Canonical(m)
  {
    ExportMetadataFields(m);
    var r := ExportMetadata(m);
    var c := Canonical(m);
    assert WellFormed(r) && ImportMetadata(r).vectorLayers == c.vectorLayers by {
      if m.vectorLayers.Some? {
        ImportExportVectorLayers(m.vectorLayers.value);
        assert r.vectorLayers == AddVectorLayers([], m.vectorLayers.value);
      }
    }
    assert m.others.Some? ==> map[] + m.others.value == m.others.value;
  }

  lemma ExportCanonical(m: A.TileArchiveMetadata)
    ensures ExportMetadata(Canonical(m)) == ExportMetadata(m)
  {
    ExportMetadataFields(m);
    ExportMetadataFields(Canonical(m));
  }

  /** Two metadata records give the same message exactly when they agree up
      to null versus empty lists and maps: nothing else is lost. */
  lemma ExportMetadataInjective(m1: A.TileArchiveMetadata, m2: A.TileArchiveMetadata)
    ensures ExportMetadata(m1) == ExportMetadata(m2) <==> Canonical(m1) == Canonical(m2)
  {
    ImportExportMetadata(m1);
    ImportExportMetadata(m2);
    ExportCanonical(m1);
    ExportCanonical(m2);
  }

  // ---- The streams ----

  /** An I/O failure, surfaced as an UncheckedIOException. */
  datatype IoError = StreamClosed

  /** An output stream of length-delimited entries. */
  class EntryStream {
    var entries: seq<Entry>
    var closed: bool

    constructor ()
      ensures entries == [] && !closed
    {
      entries := [];
      closed := false;
    }

    /** writeDelimitedTo: appends one entry; a closed stream fails and is left as it was. */
    method WriteDelimited(e: Entry) returns (r: Outcome<IoError>)
      modifies this`entries
      ensures r == (if closed then Fail(StreamClosed) else Pass)
      ensures entries == if r.Pass? then old(entries) + [e] else old(entries)
    {
      if closed {
        return Fail(StreamClosed);
      }
      entries := entries + [e];
      r := Pass;
    }

    method Close()
      modifies this`closed
      ensures closed
    {
      closed := true;
    }
  }

  /** WriteableProtoStreamArchive, over the primary output stream it was given. */
  class WriteableProtoStreamArchive {
    const primary: EntryStream

    constructor (primary: EntryStream)
      ensures this.primary == primary
    {
      this.primary := primary;
    }

    method WriteEntry(e: Entry) returns (r: Outcome<IoError>)
      modifies primary`entries
      ensures r == (if primary.closed then Fail(StreamClosed) else Pass)
      ensures primary.entries == if r.Pass? then old(primary.entries) + [e] else old(primary.entries)
    {
      r := primary.WriteDelimited(e);
    }

    /** Appends one Initialization entry carrying the converted metadata. */
    method Initialize(metadata: A.TileArchiveMetadata) returns (r: Outcome<IoError>)
      modifies primary`entries
      ensures r == (if primary.closed then Fail(StreamClosed) else Pass)
      ensures primary.entries == if r.Pass?
        then old(primary.entries) + [Initialization(ExportMetadata(metadata))]
        else old(primary.entries)
    {
      r := WriteEntry(Entry.Initialization(ExportMetadata(metadata)));
    }

    /** Appends one Finish entry carrying the converted metadata. */
    method Finish(metadata: A.TileArchiveMetadata) returns (r: Outcome<IoError>)
      modifies primary`entries
      ensures r == (if primary.closed then Fail(StreamClosed) else Pass)
      ensures primary.entries == if r.Pass?
        then old(primary.entries) + [Entry.Finish(ExportMetadata(metadata))]
        else old(primary.entries)
    {
      r := WriteEntry(Entry.Finish(ExportMetadata(metadata)));
    }

    method NewTileWriter(out: EntryStream) returns (w: ProtoTileArchiveWriter)
      ensures fresh(w) && w.out == out
    {
      w := new ProtoTileArchiveWriter(out);
    }
  }

  /** The entry written for one tile. */
  function TileEntryOf(t: A.TileEncodingResult): (e: Entry)
    requires t.tileData.Some?
    ensures e.Tile? && e.tile.z == t.coord.z && e.tile.x == t.coord.x && e.tile.y == t.coord.y
    ensures e.tile.encodedData == t.tileData.value
  {
    Tile(TileEntry(t.coord.z, t.coord.x, t.coord.y, t.tileData.value))
  }

  /** ProtoTileArchiveWriter: one Tile entry per write on its stream. */
  class ProtoTileArchiveWriter {
    const out: EntryStream

    constructor (out: EntryStream)
      ensures this.out == out
    {
      this.out := out;
    }

    method Write(encodingResult: A.TileEncodingResult) returns (r: Outcome<IoError>)
      requires encodingResult.tileData.Some?
      modifies out`entries
      ensures r == (if out.closed then Fail(StreamClosed) else Pass)
      ensures out.entries == if r.Pass? then old(out.entries) + [TileEntryOf(encodingResult)] else old(out.entries)
    {
      var coord := encodingResult.coord;
      var tile := TileEntry(coord.z, coord.x, coord.y, encodingResult.tileData.value);
      var entry := Tile(tile);
      r := out.WriteDelimited(entry);
    }

    method Close()
      modifies out`closed
      ensures out.closed
    {
      out.Close();
    }
  }

  /** A stream is framed when it is one Initialization, then only Tile
      entries, then one Finish. */
  predicate Framed(es: seq<Entry>) {
    && |es| >= 2 && es[0].Initialization? && es[|es| - 1].Finish?
    && forall i :: 0 < i < |es| - 1 ==> es[i].Tile?
  }

  /** Between one Initialization and one Finish, a stream is framed exactly
      when everything in between is a Tile entry. */
  lemma FramedBetween(init: Metadata, body: seq<Entry>, fin: Metadata)
    ensures Framed([Initialization(init)] + body + [Entry.Finish(fin)])
        <==> forall i :: 0 <= i < |body| ==> body[i].Tile?
  {
    var es := [Initialization(init)] + body + [Entry.Finish(fin)];
    assert forall i :: 0 <= i < |body| ==> es[i + 1] == body[i];
    if Framed(es) {
      forall i | 0 <= i < |body| ensures body[i].Tile? {
        assert es[i + 1].Tile?;
      }
    }
  }

  /** The entries written for a sequence of tiles, in order. */
  function TileEntries(ts: seq<A.TileEncodingResult>): (es: seq<Entry>)
    requires forall i :: 0 <= i < |ts| ==> ts[i].tileData.Some?
    ensures |es| == |ts| && forall i :: 0 <= i < |ts| ==> es[i] == TileEntryOf(ts[i])
    decreases |ts|
  {
    if ts == [] then [] else [TileEntryOf(ts[0])] + TileEntries(ts[1..])
  }

  lemma TileEntriesSnoc(ts: seq<A.TileEncodingResult>, i: nat)
    requires i < |ts| && forall j :: 0 <= j < |ts| ==> ts[j].tileData.Some?
    ensures TileEntries(ts[..i + 1]) == TileEntries(ts[..i]) + [TileEntryOf(ts[i])]
  {
    var a, b := TileEntries(ts[..i + 1]), TileEntries(ts[..i]) + [TileEntryOf(ts[i])];
    assert |a| == |b|;
    forall j | 0 <= j < |a|
      ensures a[j] == b[j]
    {
      assert ts[..i + 1][j] == ts[j];
      if j < i {
        assert ts[..i][j] == ts[j];
      }
    }
  }

  /** The stream of an archive whose tiles are written between Initialize
      and Finish is framed. */
  lemma TileArchiveFramed(init: Metadata, ts: seq<A.TileEncodingResult>, fin: Metadata)
    requires forall i :: 0 <= i < |ts| ==> ts[i].tileData.Some?
    ensures Framed([Initialization(init)] + TileEntries(ts) + [Entry.Finish(fin)])
  {
    FramedBetween(init, TileEntries(ts), fin);
  }

  /** One write per tile, in order: the writer's stream gains exactly the
      tiles' entries. */
  method WriteTiles(w: ProtoTileArchiveWriter, ts: seq<A.TileEncodingResult>)
    requires !w.out.closed
    requires forall i :: 0 <= i < |ts| ==> ts[i].tileData.Some?
    modifies w.out`entries
    ensures w.out.entries == old(w.out.entries) + TileEntries(ts)
  {
    var i := 0;
    while i < |ts|
      invariant 0 <= i <= |ts|
      invariant w.out.entries == old(w.out.entries) + TileEntries(ts[..i])
    {
      var r := w.Write(ts[i]);
      TileEntriesSnoc(ts, i);
      i := i + 1;
    }
    assert ts[..i] == ts;
  }

  /** Initialize, then one tile write per tile on the primary stream, then
      Finish: the stream holds the Initialization, the tiles' entries in
      write order and the Finish, so it is framed, and it stays open. */
  method WriteTileArchive(stream: EntryStream, metadata: A.TileArchiveMetadata, ts: seq<A.TileEncodingResult>)
    requires !stream.closed && stream.entries == []
    requires forall i :: 0 <= i < |ts| ==> ts[i].tileData.Some?
    modifies stream`entries
    ensures !stream.closed
    ensures stream.entries
         == [Initialization(ExportMetadata(metadata))] + TileEntries(ts) + [Entry.Finish(ExportMetadata(metadata))]
    ensures Framed(stream.entries)
  {
    ghost var m := ExportMetadata(metadata);
    var archive := new WriteableProtoStreamArchive(stream);
    var r1 := archive.Initialize(metadata);
    assert stream.entries == [Initialization(m)];
    var w := archive.NewTileWriter(stream);
    WriteTiles(w, ts);
    assert stream.entries == [Initialization(m)] + TileEntries(ts);
    var r3 := archive.Finish(metadata);
    TileArchiveFramed(m, ts, m);
  }
}
