/** The PLY body decoder (`ReadDataBody` and `DataBody.AddPoint`,
    Scripts/Ply_PointCloudProvider.cs).

    The body is the byte stream after the header, read from position `start`.
    Floating-point values are kept as their raw little-endian bit patterns
    (`Single` for a 32-bit word, `Narrowed` for a 64-bit word the reader casts to
    float). For each vertex the decoder walks the property list once; a property
    overwrites the component it names, so `RecordPoint` below is, component by
    component, the value of the LAST property naming it, or the initial 0 / 255
    when no property names it (`LastWriterWins`, `RecordPointFromDefaults`). */
module PlyBody {
  import opened Wrappers
  import opened Bytes
  import opened PlyFormat
  import opened PlyHeader

  datatype Coord = Zero | Single(bits: nat) | Narrowed(bits: nat)

  datatype Vector3 = Vector3(x: Coord, y: Coord, z: Coord)

  datatype Color32 = Color32(r: Byte, g: Byte, b: Byte, a: Byte)

  /** The seven variables the decoder carries from property to property. */
  datatype Point = Point(pos: Vector3, col: Color32)

  /** One component's value. */
  datatype Sample = Coordinate(c: Coord) | Intensity(v: Byte)

  datatype BodyError =
    | NegativeCapacity   // the point lists were sized with a negative vertex count
    | EndOfStream        // a read ran past the end of the stream

  /** Coordinates start at zero and every colour channel at 255; the decoder
      carries these values from record to record. */
  const Initial: Point := Point(Vector3(Zero, Zero, Zero), Color32(255, 255, 255, 255))

  function Get(pt: Point, ch: Channel): Sample
  {
    match ch
    case X => Coordinate(pt.pos.x)
    case Y => Coordinate(pt.pos.y)
    case Z => Coordinate(pt.pos.z)
    case R => Intensity(pt.col.r)
    case G => Intensity(pt.col.g)
    case B => Intensity(pt.col.b)
    case A => Intensity(pt.col.a)
  }

  /** Stores a sample of the right kind into a component. */
  function Set(pt: Point, ch: Channel, s: Sample): (q: Point)
    requires s.Coordinate? <==> !IsColour(ch)
    ensures Get(q, ch) == s
    ensures forall other :: other != ch ==> Get(q, other) == Get(pt, other)
  {
    match ch
    case X => pt.(pos := pt.pos.(x := s.c))
    case Y => pt.(pos := pt.pos.(y := s.c))
    case Z => pt.(pos := pt.pos.(z := s.c))
    case R => pt.(col := pt.col.(r := s.v))
    case G => pt.(col := pt.col.(g := s.v))
    case B => pt.(col := pt.col.(b := s.v))
    case A => pt.(col := pt.col.(a := s.v))
  }

  lemma PointsAgreeEverywhere(p: Point, q: Point)
    requires forall ch :: Get(p, ch) == Get(q, ch)
    ensures p == q
  {
    assert Get(p, X) == Get(q, X) && Get(p, Y) == Get(q, Y) && Get(p, Z) == Get(q, Z);
    assert Get(p, R) == Get(q, R) && Get(p, G) == Get(q, G) && Get(p, B) == Get(q, B) && Get(p, A) == Get(q, A);
  }

  /** Offset of property `j` within a vertex record. */
  function Offset(props: seq<DataProperty>, j: nat): nat
    requires j <= |props|
  {
    if j == 0 then 0 else Offset(props, j - 1) + GetPropertySize(props[j - 1])
  }

  /** Bytes per vertex: the sum of the property sizes. */
  function RecordSize(props: seq<DataProperty>): nat
  {
    Offset(props, |props|)
  }

  /** Properties whose decoding reads the stream; the wider padding codes only
      move the position, which never fails. */
  predicate Reads(p: DataProperty)
  {
    p !in {Data16, Data32, Data64, Invalid}
  }

  /** The reads of properties 0 .. k-1 of a record at `pos` stay in the stream. */
  ghost predicate FitsUpTo(props: seq<DataProperty>, k: nat, data: seq<Byte>, pos: nat)
    requires k <= |props|
  {
    k == 0 ||
    (FitsUpTo(props, k - 1, data, pos) &&
     (Reads(props[k - 1]) ==> pos + Offset(props, k - 1) + GetPropertySize(props[k - 1]) <= |data|))
  }

  lemma {:induction false} FitsUpToPrefix(props: seq<DataProperty>, j: nat, k: nat, data: seq<Byte>, pos: nat)
    requires j <= k <= |props| && FitsUpTo(props, k, data, pos)
    ensures FitsUpTo(props, j, data, pos)
    decreases k
  {
    if j < k {
      FitsUpToPrefix(props, j, k - 1, data, pos);
    }
  }

  /** Under a fitting prefix, each reading property's bytes are in the stream. */
  lemma FitsAt(props: seq<DataProperty>, j: nat, k: nat, data: seq<Byte>, pos: nat)
    requires j < k <= |props| && FitsUpTo(props, k, data, pos)
    ensures FitsUpTo(props, j + 1, data, pos)
    ensures Reads(props[j]) ==> pos + Offset(props, j) + GetPropertySize(props[j]) <= |data|
  {
    FitsUpToPrefix(props, j + 1, k, data, pos);
  }

  /** Where record `i` starts when records follow each other from `start`. */
  function RecordStart(props: seq<DataProperty>, start: nat, i: nat): nat
  {
    start + i * RecordSize(props)
  }

  lemma RecordStartNext(props: seq<DataProperty>, start: nat, i: nat)
    ensures RecordStart(props, start, i + 1) == RecordStart(props, start, i) + RecordSize(props)
  {
  }

  ghost predicate Fits(props: seq<DataProperty>, data: seq<Byte>, pos: nat)
  {
    FitsUpTo(props, |props|, data, pos)
  }

  /** The value a component-writing property reads at `at`. */
  function SampleOf(p: DataProperty, data: seq<Byte>, at: nat): (s: Sample)
    requires WrittenChannel(p).Some? && at + GetPropertySize(p) <= |data|
    ensures s.Coordinate? <==> !IsColour(WrittenChannel(p).value)
  {
    match p
    case R8 | G8 | B8 | A8 => Intensity(data[at])
    case R16 | G16 | B16 | A16 => Intensity(HighByte(data[at..at + 2]))
    case SingleX | SingleY | SingleZ => Coordinate(Single(FromLe(data[at..at + 4])))
    case DoubleX | DoubleY | DoubleZ => Coordinate(Narrowed(FromLe(data[at..at + 8])))
  }

  /** A 16-bit colour keeps its high byte, which is the second byte of the
      little-endian pair. */
  lemma SixteenBitColourKeepsHighByte(p: DataProperty, data: seq<Byte>, at: nat)
    requires p in {R16, G16, B16, A16} && at + 2 <= |data|
    ensures SampleOf(p, data, at) == Intensity(data[at + 1])
  {
    var bs := data[at..at + 2];
    var lo, hi := data[at] as nat, data[at + 1] as nat;
    assert bs[1..][1..] == [];
    assert FromLe(bs[1..]) == hi + 256 * FromLe(bs[1..][1..]) == hi;
    assert FromLe(bs) == lo + 256 * hi;
    assert (lo + 256 * hi) / 256 == hi;
  }

  /** The upper eight bits of a 16-bit value stored as two little-endian bytes. */
  function HighByte(bs: seq<Byte>): Byte
    requires |bs| == 2
  {
    FromLeBound(bs);
    FromLe(bs) / 256
  }

  /** One step of the decoder: the property at offset `at` updates its component. */
  function Apply(pt: Point, p: DataProperty, data: seq<Byte>, at: nat): Point
    requires Reads(p) ==> at + GetPropertySize(p) <= |data|
  {
    match WrittenChannel(p)
    case None => pt
    case Some(ch) => Set(pt, ch, SampleOf(p, data, at))
  }

  /** The carried point after properties 0 .. k-1 of the record at `pos`. */
  function DecodeUpTo(pt: Point, props: seq<DataProperty>, k: nat, data: seq<Byte>, pos: nat): Point
    requires k <= |props| && FitsUpTo(props, k, data, pos)
  {
    if k == 0 then pt
    else Apply(DecodeUpTo(pt, props, k - 1, data, pos), props[k - 1], data, pos + Offset(props, k - 1))
  }

  /** The point one record yields, starting from the initial values. */
  function RecordPoint(props: seq<DataProperty>, data: seq<Byte>, pos: nat): Point
    requires Fits(props, data, pos)
  {
    DecodeUpTo(Initial, props, |props|, data, pos)
  }

  /** Index of the last of properties 0 .. k-1 that writes `ch`; -1 if none. */
  function LastWriter(props: seq<DataProperty>, k: nat, ch: Channel): (j: int)
    requires k <= |props|
    ensures -1 <= j < k
    ensures j >= 0 ==> WrittenChannel(props[j]) == Some(ch)
  {
    if k == 0 then -1
    else if WrittenChannel(props[k - 1]) == Some(ch) then k - 1
    else LastWriter(props, k - 1, ch)
  }

  /** No property after the last writer of `ch` names `ch`. */
  lemma {:induction false} LastWriterIsLast(props: seq<DataProperty>, k: nat, ch: Channel)
    requires k <= |props|
    ensures forall i :: LastWriter(props, k, ch) < i < k ==> WrittenChannel(props[i]) != Some(ch)
  {
    if k > 0 {
      LastWriterIsLast(props, k - 1, ch);
    }
  }

  /** What component `ch` holds after properties 0 .. k-1: the value read by
      the last of them that names it, or the incoming value when none does. */
  ghost function Winner(pt: Point, props: seq<DataProperty>, k: nat, data: seq<Byte>, pos: nat, ch: Channel): Sample
    requires k <= |props| && FitsUpTo(props, k, data, pos)
  {
    if k == 0 then Get(pt, ch)
    else if WrittenChannel(props[k - 1]) == Some(ch) then SampleOf(props[k - 1], data, pos + Offset(props, k - 1))
    else Winner(pt, props, k - 1, data, pos, ch)
  }

  /** `Winner` is the sample read by `LastWriter`, or the incoming value. */
  lemma {:induction false} WinnerIsLastWriter(pt: Point, props: seq<DataProperty>, k: nat, data: seq<Byte>, pos: nat, ch: Channel)
    requires k <= |props| && FitsUpTo(props, k, data, pos)
    ensures var j := LastWriter(props, k, ch);
      Winner(pt, props, k, data, pos, ch) ==
        if j < 0 then Get(pt, ch) else (FitsAt(props, j, k, data, pos); SampleOf(props[j], data, pos + Offset(props, j)))
  {
    if k > 0 && WrittenChannel(props[k - 1]) != Some(ch) {
      WinnerIsLastWriter(pt, props, k - 1, data, pos, ch);
    }
  }

  /** Each component ends up holding the value read by the last property that
      names it, or keeps its incoming value when none does. */
  lemma {:induction false} LastWriterWins(pt: Point, props: seq<DataProperty>, k: nat, data: seq<Byte>, pos: nat, ch: Channel)
    requires k <= |props| && FitsUpTo(props, k, data, pos)
    ensures Get(DecodeUpTo(pt, props, k, data, pos), ch) == Winner(pt, props, k, data, pos, ch)
  {
    if k > 0 {
      FitsAt(props, k - 1, k, data, pos);
      LastWriterWins(pt, props, k - 1, data, pos, ch);
      ApplyGet(DecodeUpTo(pt, props, k - 1, data, pos), props[k - 1], data, pos + Offset(props, k - 1), ch);
    }
  }

  /** Applying a property changes the component it writes and no other. */
  lemma ApplyGet(pt: Point, p: DataProperty, data: seq<Byte>, at: nat, ch: Channel)
    requires Reads(p) ==> at + GetPropertySize(p) <= |data|
    ensures WrittenChannel(p) == Some(ch) ==> Get(Apply(pt, p, data, at), ch) == SampleOf(p, data, at)
    ensures WrittenChannel(p) != Some(ch) ==> Get(Apply(pt, p, data, at), ch) == Get(pt, ch)
  {
  }

  /** A record's point does not depend on what the previous vertex left in the
      components this property list never writes, as long as those hold the
      initial values. */
  lemma CarryIsInitial(pt: Point, props: seq<DataProperty>, data: seq<Byte>, pos: nat)
    requires Fits(props, data, pos)
    requires forall ch :: LastWriter(props, |props|, ch) < 0 ==> Get(pt, ch) == Get(Initial, ch)
    ensures DecodeUpTo(pt, props, |props|, data, pos) == RecordPoint(props, data, pos)
  {
    forall ch
      ensures Get(DecodeUpTo(pt, props, |props|, data, pos), ch) == Get(RecordPoint(props, data, pos), ch)
    {
      LastWriterWins(pt, props, |props|, data, pos, ch);
      LastWriterWins(Initial, props, |props|, data, pos, ch);
      WinnerIsLastWriter(pt, props, |props|, data, pos, ch);
      WinnerIsLastWriter(Initial, props, |props|, data, pos, ch);
    }
    PointsAgreeEverywhere(DecodeUpTo(pt, props, |props|, data, pos), RecordPoint(props, data, pos));
  }

  /** After a whole record, every unwritten component holds its initial value. */
  lemma RecordPointFromDefaults(props: seq<DataProperty>, data: seq<Byte>, pos: nat, ch: Channel)
    requires Fits(props, data, pos)
    ensures var j := LastWriter(props, |props|, ch);
      Get(RecordPoint(props, data, pos), ch) ==
        if j < 0 then Get(Initial, ch) else (FitsAt(props, j, |props|, data, pos); SampleOf(props[j], data, pos + Offset(props, j)))
  {
    LastWriterWins(Initial, props, |props|, data, pos, ch);
    WinnerIsLastWriter(Initial, props, |props|, data, pos, ch);
  }

  // ---------------------------------------------------------------------------
  // The source's classes and loops

  /** `DataBody`: the decoded positions and colours, appended in step. */
  class DataBody {
    var vertices: seq<Vector3>
    var colors: seq<Color32>

    /** `new DataBody(vertexCount)`: the list capacity must not be negative. */
    constructor (vertexCount: int)
      requires vertexCount >= 0
      ensures vertices == [] && colors == []
    {
      vertices := [];
      colors := [];
    }

    /** `AddPoint`: appends one position and one colour. */
    method AddPoint(x: Coord, y: Coord, z: Coord, r: Byte, g: Byte, b: Byte, a: Byte)
      modifies this
      ensures vertices == old(vertices) + [Vector3(x, y, z)]
      ensures colors == old(colors) + [Color32(r, g, b, a)]
    {
      vertices := vertices + [Vector3(x, y, z)];
      colors := colors + [Color32(r, g, b, a)];
    }
  }

  /** One case of the decoder's dispatch on the property code: reads (or skips) one property at
      `position` and stores its value into the component it names. */
  method ReadProperty(carried: Point, prop: DataProperty, data: seq<Byte>, position: nat)
    returns (r: Result<Point, BodyError>)
    ensures r.Err? <==> Reads(prop) && position + GetPropertySize(prop) > |data|
    ensures r.Err? ==> r.error == EndOfStream
    ensures r.Ok? ==> r.value == Apply(carried, prop, data, position)
  {
    if Reads(prop) && position + GetPropertySize(prop) > |data| {
      return Err(EndOfStream);
    }
    var x, y, z := carried.pos.x, carried.pos.y, carried.pos.z;
    var r8, g8, b8, a8 := carried.col.r, carried.col.g, carried.col.b, carried.col.a;
    match prop {
      case R8 => r8 := data[position];
      case G8 => g8 := data[position];
      case B8 => b8 := data[position];
      case A8 => a8 := data[position];
      case R16 => r8 := HighByte(data[position..position + 2]);
      case G16 => g8 := HighByte(data[position..position + 2]);
      case B16 => b8 := HighByte(data[position..position + 2]);
      case A16 => a8 := HighByte(data[position..position + 2]);
      case SingleX => x := Single(FromLe(data[position..position + 4]));
      case SingleY => y := Single(FromLe(data[position..position + 4]));
      case SingleZ => z := Single(FromLe(data[position..position + 4]));
      case DoubleX => x := Narrowed(FromLe(data[position..position + 8]));
      case DoubleY => y := Narrowed(FromLe(data[position..position + 8]));
      case DoubleZ => z := Narrowed(FromLe(data[position..position + 8]));
      case Data8 =>
      case Data16 =>
      case Data32 =>
      case Data64 =>
      case Invalid =>
    }
    return Ok(Point(Vector3(x, y, z), Color32(r8, g8, b8, a8)));
  }

  /** The decoder's pass over the header's property list for one vertex: reads
      the record at `position`, starting from the values `carried` over from
      the previous vertex. */
  method ReadRecord(carried: Point, props: seq<DataProperty>, data: seq<Byte>, position: nat)
    returns (r: Result<Point, BodyError>)
    ensures r.Err? <==> !Fits(props, data, position)
    ensures r.Err? ==> r.error == EndOfStream
    ensures r.Ok? ==> r.value == DecodeUpTo(carried, props, |props|, data, position)
  {
    var pt := carried;
    var at := position;
    var j := 0;
    while j < |props|
      invariant 0 <= j <= |props|
      invariant at == position + Offset(props, j)
      invariant FitsUpTo(props, j, data, position)
      invariant pt == DecodeUpTo(carried, props, j, data, position)
    {
      var step := ReadProperty(pt, props[j], data, at);
      if step.Err? {
        if Fits(props, data, position) {
          FitsAt(props, j, |props|, data, position);
        }
        return step;
      }
      pt := step.value;
      at := at + GetPropertySize(props[j]);
      j := j + 1;
    }
    return Ok(pt);
  }

  /** `ReadDataBody`: `vertexCount` records read from `data` at `start`. It
      fails exactly when the count is negative or some record's reads run past
      the end of the stream; otherwise vertex `i` is the point of the record at
      `start + i * RecordSize`. */
  method ReadDataBody(header: DataHeader, data: seq<Byte>, start: nat) returns (r: Result<DataBody, BodyError>)
    ensures r.Err? <==>
      header.vertexCount < 0 ||
      exists i :: 0 <= i < header.vertexCount && !Fits(header.properties, data, RecordStart(header.properties, start, i))
    ensures r.Ok? ==>
      |r.value.vertices| == |r.value.colors| == header.vertexCount &&
      forall i :: 0 <= i < header.vertexCount ==>
        Fits(header.properties, data, RecordStart(header.properties, start, i)) &&
        Point(r.value.vertices[i], r.value.colors[i]) == RecordPoint(header.properties, data, RecordStart(header.properties, start, i))
  {
    var props := header.properties;
    if header.vertexCount < 0 { return Err(NegativeCapacity); }
    var body := new DataBody(header.vertexCount);

    var carried := Initial;
    var position := start;
    var i := 0;
    while i < header.vertexCount
      invariant 0 <= i <= header.vertexCount
      invariant position == RecordStart(props, start, i)
      invariant |body.vertices| == |body.colors| == i
      invariant forall v :: 0 <= v < i ==>
        Fits(props, data, RecordStart(props, start, v)) &&
        Point(body.vertices[v], body.colors[v]) == RecordPoint(props, data, RecordStart(props, start, v))
      invariant forall ch :: LastWriter(props, |props|, ch) < 0 ==> Get(carried, ch) == Get(Initial, ch)
    {
      var record := ReadRecord(carried, props, data, position);
      if record.Err? {
        assert !Fits(props, data, RecordStart(props, start, i));
        return Err(record.error);
      }
      CarryIsInitial(carried, props, data, position);
      carried := record.value;
      forall ch | LastWriter(props, |props|, ch) < 0
        ensures Get(carried, ch) == Get(Initial, ch)
      {
        LastWriterWins(Initial, props, |props|, data, position, ch);
        WinnerIsLastWriter(Initial, props, |props|, data, position, ch);
      }
      body.AddPoint(carried.pos.x, carried.pos.y, carried.pos.z, carried.col.r, carried.col.g, carried.col.b, carried.col.a);
      RecordStartNext(props, start, i);
      position := position + RecordSize(props);
      i := i + 1;
    }
    return Ok(body);
  }
}
