/** Value types that the archive writers receive from the rest of the
    pipeline: tile coordinates, per-tile encoding results and the archive
    metadata record, with Java's nullable fields as Option. */
module Archive {
  import opened Wrappers

  /** A Java `byte`; only its bit pattern is ever copied, never interpreted. */
  newtype byte = b: int | 0 <= b < 256

  /** A Java `int`. */
  newtype int32 = n: int | -0x8000_0000 <= n < 0x8000_0000

  /** A Java `double`, carried as its IEEE-754 bit pattern: the writers only
      copy such values, they never compute with them. */
  datatype Double = Double(bits: bv64)

  /** TileCoord: column x, row y, zoom z. */
  datatype TileCoord = TileCoord(x: int32, y: int32, z: int32)

  /** TileEncodingResult: a tile's coordinate and its payload, which may be null. */
  datatype TileEncodingResult = TileEncodingResult(coord: TileCoord, tileData: Option<seq<byte>>)

  /** The JTS Envelope of the archive's bounds. */
  datatype Envelope = Envelope(minX: Double, maxX: Double, minY: Double, maxY: Double)

  /** The JTS CoordinateXY of the archive's center. */
  datatype CoordinateXY = CoordinateXY(x: Double, y: Double)

  /** LayerStats field type of a vector-layer attribute. */
  datatype FieldType = NUMBER | BOOLEAN | STRING

  /** LayerStats.VectorLayer: the schema of one vector layer. */
  datatype VectorLayer = VectorLayer(
    id: string,
    fields: map<string, FieldType>,
    description: Option<string>,
    minzoom: Option<int32>,
    maxzoom: Option<int32>)

  /** TileArchiveMetadata: every field may be null. `archiveType` is the
      record's `type` component (`type` is a Dafny keyword). */
  datatype TileArchiveMetadata = TileArchiveMetadata(
    name: Option<string>,
    description: Option<string>,
    attribution: Option<string>,
    version: Option<string>,
    archiveType: Option<string>,
    format: Option<string>,
    bounds: Option<Envelope>,
    center: Option<CoordinateXY>,
    zoom: Option<Double>,
    minzoom: Option<int32>,
    maxzoom: Option<int32>,
    vectorLayers: Option<seq<VectorLayer>>,
    others: Option<map<string, string>>)
}
