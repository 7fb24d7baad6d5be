/** The head-tracking line decoder (`ProcessDataReceived`,
    Scripts/OpenVRTracking.cs).

    The tracking process writes one line per pose: 16 hexadecimal digits of
    timestamp followed by 12 fields of 8 hexadecimal digits, each the bits of
    one float. On a little-endian host each value is byte-reversed after
    parsing. The 12 floats fill the top three rows of a 4 × 4 matrix, five of
    them negated, and the pose is handed to every subscriber of the event.

    Floats are kept as their 32 bits (an unsigned number); a negated float is marked `Negated`
    rather than computed. The host's byte order is a parameter. A subscriber is
    represented only by whether it throws. */
module Tracking {
  import opened Wrappers
  import opened Text
  import opened Bytes

  /** `nb_floats`, `long_size` and `float_size`: 12 floats, 16 hexadecimal
      digits for the timestamp (twice `sizeof(long)`), 8 per float. */
  const WordCount: nat := 12
  const TimestampDigits: nat := 16
  const WordDigits: nat := 8
  const LineLength: nat := 112

  /** Why a line cannot be decoded: `Substring` ran past the end of the line
      (`ArgumentOutOfRangeException`), or a field is not a hexadecimal number
      (`FormatException`). Neither is caught by the decoder. */
  datatype LineError = TooShort | NotHex

  /** The 32 bits of a float, as an unsigned number. */
  type Bits32 = b: nat | b < 0x1_0000_0000

  /** A matrix entry: a constant of the identity, a float's bits, or a float's
      bits negated. */
  datatype Entry = Zero | One | Word(bits: Bits32) | Negated(bits: Bits32)

  /** A 4 × 4 matrix, row by row. */
  type Matrix = seq<seq<Entry>>

  /** What the subscribers saw: how many were called, and whether one threw
      (the error is then logged). */
  datatype Delivery = Delivery(invoked: nat, errorLogged: bool)

  /** What one received line leads to. */
  datatype Outcome = NoData | Failed(error: LineError) | Delivered(timestamp: nat, matrix: Matrix, delivery: Delivery)

  // ---------------------------------------------------------------------------
  // Fields

  /** The hexadecimal field of `len` characters at `start`: too short when the
      line ends before it, not hexadecimal when a character is not a hex digit. */
  function Field(line: string, start: nat, len: nat): (r: Result<nat, LineError>)
    ensures r.Ok? ==> r.value < Pow16(len)
    ensures r == Err(TooShort) <==> |line| < start + len
  {
    if |line| < start + len then Err(TooShort)
    else
      match ParseHex(line[start..start + len])
      case None => Err(NotHex)
      case Some(v) => Ok(v)
  }

  /** Where float field `i` starts: after the 16 hex digits of the
      timestamp, eight hex digits per preceding float. */
  function WordStart(i: nat): nat
  {
    16 + 8 * i
  }

  /** The value the source ends up with for an `n`-byte field: parsed, then
      through `GetBytes`, `Array.Reverse` on a little-endian host, and back. On
      a big-endian host the two conversions use the same order and cancel. */
  function HostOrder(v: nat, n: nat, littleEndian: bool): nat
  {
    if littleEndian then ByteSwap(v, n) else v
  }

  lemma {:induction false} Pow16Pow256(n: nat)
    ensures Pow16(2 * n) == Pow256(n)
  {
    if n > 0 {
      Pow16Pow256(n - 1);
      assert Pow16(2 * n) == 16 * (16 * Pow16(2 * (n - 1)));
    }
  }

  lemma HostOrderBound(v: nat, n: nat, littleEndian: bool)
    requires v < Pow256(n)
    ensures HostOrder(v, n, littleEndian) < Pow256(n)
  {
    if littleEndian {
      ByteSwapBound(v, n);
    }
  }

  /** Converting to host order twice gives the value back. */
  lemma HostOrderInvolution(v: nat, n: nat, littleEndian: bool)
    requires v < Pow256(n)
    ensures HostOrder(HostOrder(v, n, littleEndian), n, littleEndian) == v
  {
    if littleEndian {
      ByteSwapInvolution(v, n);
    }
  }

  lemma WordBound()
    ensures Pow16(WordDigits) == Pow256(4) == 0x1_0000_0000
    ensures Pow16(TimestampDigits) == Pow256(8)
  {
    Pow16Pow256(4);
    Pow16Pow256(8);
  }

  /** The first `k` floats, read in order; the first field that fails decides
      the error. */
  function Words(line: string, littleEndian: bool, k: nat): (r: Result<seq<Bits32>, LineError>)
    ensures r.Ok? ==> |r.value| == k
  {
    if k == 0 then Ok([])
    else
      match Words(line, littleEndian, k - 1)
      case Err(e) => Err(e)
      case Ok(ws) =>
        match Field(line, WordStart(k - 1), WordDigits)
        case Err(e) => Err(e)
        case Ok(v) =>
          WordBound();
          HostOrderBound(v, 4, littleEndian);
          Ok(ws + [HostOrder(v, 4, littleEndian)])
  }

  /** The timestamp and the 12 floats of a line, timestamp first. */
  function Decode(line: string, littleEndian: bool): (r: Result<(nat, seq<Bits32>), LineError>)
    ensures r.Ok? ==> |r.value.1| == WordCount && r.value.0 < Pow256(8)
  {
    match Field(line, 0, TimestampDigits)
    case Err(e) => Err(e)
    case Ok(t) =>
      match Words(line, littleEndian, WordCount)
      case Err(e) => Err(e)
      case Ok(ws) =>
        WordBound();
        HostOrderBound(t, 8, littleEndian);
        Ok((HostOrder(t, 8, littleEndian), ws))
  }

  /** Float field `i` is there and is a hexadecimal number. */
  predicate WordParses(line: string, i: nat)
  {
    Field(line, WordStart(i), WordDigits).Ok?
  }

  /** Reading float `k` after `k` good ones. */
  lemma WordsNext(line: string, littleEndian: bool, k: nat)
    requires Words(line, littleEndian, k).Ok?
    ensures var f := Field(line, WordStart(k), WordDigits);
      (f.Err? ==> Words(line, littleEndian, k + 1) == Err(f.error)) &&
      (f.Ok? ==> HostOrder(f.value, 4, littleEndian) < 0x1_0000_0000 &&
                 Words(line, littleEndian, k + 1) == Ok(Words(line, littleEndian, k).value + [HostOrder(f.value, 4, littleEndian)]))
  {
    var f := Field(line, WordStart(k), WordDigits);
    if f.Ok? {
      WordBound();
      HostOrderBound(f.value, 4, littleEndian);
    }
  }

  /** Once a field has failed, reading more fields keeps that error. */
  lemma {:induction false} WordsErrorPersists(line: string, littleEndian: bool, k: nat, j: nat)
    requires k <= j && Words(line, littleEndian, k).Err?
    ensures Words(line, littleEndian, j) == Words(line, littleEndian, k)
    decreases j
  {
    if j > k {
      WordsErrorPersists(line, littleEndian, k, j - 1);
    }
  }

  /** Float fields `0` to `k - 1` all parse. */
  predicate FieldsParse(line: string, k: nat)
  {
    k == 0 || (FieldsParse(line, k - 1) && WordParses(line, k - 1))
  }

  lemma {:induction false} FieldsParseAll(line: string, k: nat)
    ensures FieldsParse(line, k) <==> forall i :: 0 <= i < k ==> WordParses(line, i)
  {
    if k > 0 {
      FieldsParseAll(line, k - 1);
      if FieldsParse(line, k) {
        forall i | 0 <= i < k
          ensures WordParses(line, i)
        {
          if i < k - 1 {
            assert WordParses(line, i);
          }
        }
      }
    }
  }

  lemma {:induction false} WordsOkFields(line: string, littleEndian: bool, k: nat)
    ensures Words(line, littleEndian, k).Ok? <==> FieldsParse(line, k)
  {
    if k > 0 {
      WordsOkFields(line, littleEndian, k - 1);
      if Words(line, littleEndian, k - 1).Ok? {
        WordsNext(line, littleEndian, k - 1);
      }
    }
  }

  /** The first `k` floats are read exactly when their `k` fields parse. */
  lemma WordsOkIff(line: string, littleEndian: bool, k: nat)
    ensures Words(line, littleEndian, k).Ok? <==> forall i :: 0 <= i < k ==> WordParses(line, i)
  {
    WordsOkFields(line, littleEndian, k);
    FieldsParseAll(line, k);
  }

  /** Once read, float `i` is field `i` in host order. */
  lemma {:induction false} WordsValues(line: string, littleEndian: bool, k: nat)
    requires Words(line, littleEndian, k).Ok?
    ensures forall i :: 0 <= i < k ==>
      WordParses(line, i) &&
      Words(line, littleEndian, k).value[i] == HostOrder(Field(line, WordStart(i), WordDigits).value, 4, littleEndian)
  {
    if k > 0 {
      var prev := Words(line, littleEndian, k - 1);
      assert prev.Ok?;
      WordsValues(line, littleEndian, k - 1);
      WordsNext(line, littleEndian, k - 1);
      var ws := Words(line, littleEndian, k).value;
      assert ws == prev.value + [ws[k - 1]];
      forall i | 0 <= i < k
        ensures WordParses(line, i) && ws[i] == HostOrder(Field(line, WordStart(i), WordDigits).value, 4, littleEndian)
      {
        if i < k - 1 {
          assert ws[i] == prev.value[i];
        }
      }
    }
  }

  /** A line decodes exactly when it is at least 112 characters long and its
      13 fields are hexadecimal numbers; a shorter line never decodes. */
  lemma DecodeOkIff(line: string, littleEndian: bool)
    ensures Decode(line, littleEndian).Ok? <==>
      |line| >= LineLength && Field(line, 0, TimestampDigits).Ok? &&
      forall i :: 0 <= i < WordCount ==> WordParses(line, i)
    ensures |line| < LineLength ==> Decode(line, littleEndian).Err?
  {
    WordsOkIff(line, littleEndian, WordCount);
    if |line| < LineLength {
      assert !WordParses(line, WordCount - 1);
    }
  }

  /** A decoded line: the timestamp is characters [0, 16) and float `i` is
      characters [16 + 8i, 24 + 8i), each parsed and put in host order. */
  lemma DecodeValues(line: string, littleEndian: bool)
    requires Decode(line, littleEndian).Ok?
    ensures var (t, ws) := Decode(line, littleEndian).value;
      Field(line, 0, TimestampDigits).Ok? &&
      t == HostOrder(Field(line, 0, TimestampDigits).value, 8, littleEndian) &&
      forall i :: 0 <= i < WordCount ==>
        WordParses(line, i) && ws[i] == HostOrder(Field(line, WordStart(i), WordDigits).value, 4, littleEndian)
  {
    WordsValues(line, littleEndian, WordCount);
  }

  // ---------------------------------------------------------------------------
  // What the tracking process writes

  /** The fields for floats `ws`, in host order, 8 digits each. */
  function EncodeWords(ws: seq<Bits32>, littleEndian: bool): (s: string)
    ensures |s| == WordDigits * |ws|
  {
    if ws == [] then []
    else EncodeWords(ws[..|ws| - 1], littleEndian) + HexOf(HostOrder(ws[|ws| - 1], 4, littleEndian), WordDigits)
  }

  /** A line for timestamp `t` and floats `ws`. */
  function Encode(t: nat, ws: seq<Bits32>, littleEndian: bool): string
  {
    HexOf(HostOrder(t, 8, littleEndian), TimestampDigits) + EncodeWords(ws, littleEndian)
  }

  lemma {:induction false} EncodeWordsAt(ws: seq<Bits32>, littleEndian: bool, i: nat)
    requires i < |ws|
    ensures var s := EncodeWords(ws, littleEndian);
      s[WordDigits * i..WordDigits * i + WordDigits] == HexOf(HostOrder(ws[i], 4, littleEndian), WordDigits)
  {
    var init := ws[..|ws| - 1];
    var s := EncodeWords(ws, littleEndian);
    assert s == EncodeWords(init, littleEndian) + HexOf(HostOrder(ws[|ws| - 1], 4, littleEndian), WordDigits);
    if i < |ws| - 1 {
      EncodeWordsAt(init, littleEndian, i);
      assert s[WordDigits * i..WordDigits * i + WordDigits] == EncodeWords(init, littleEndian)[WordDigits * i..WordDigits * i + WordDigits];
    }
  }

  /** One field of an encoded line reads back as the float written into it. */
  lemma FieldOfEncoded(t: nat, ws: seq<Bits32>, littleEndian: bool, rest: string, i: nat)
    requires |ws| == WordCount && i < WordCount
    ensures Field(Encode(t, ws, littleEndian) + rest, WordStart(i), WordDigits) == Ok(HostOrder(ws[i], 4, littleEndian))
  {
    var line := Encode(t, ws, littleEndian) + rest;
    var v := HostOrder(ws[i], 4, littleEndian);
    EncodeWordsAt(ws, littleEndian, i);
    assert line[WordStart(i)..WordStart(i) + WordDigits] == HexOf(v, WordDigits);
    WordBound();
    HostOrderBound(ws[i], 4, littleEndian);
    ParseHexOf(v, WordDigits);
  }

  /** The timestamp field of an encoded line reads back as the timestamp. */
  lemma TimestampOfEncoded(t: nat, ws: seq<Bits32>, littleEndian: bool, rest: string)
    requires t < Pow256(8)
    ensures var line := Encode(t, ws, littleEndian) + rest;
      Field(line, 0, TimestampDigits).Ok? &&
      HostOrder(Field(line, 0, TimestampDigits).value, 8, littleEndian) == t
  {
    var line := Encode(t, ws, littleEndian) + rest;
    var v := HostOrder(t, 8, littleEndian);
    WordBound();
    HostOrderBound(t, 8, littleEndian);
    assert line[0..TimestampDigits] == HexOf(v, TimestampDigits);
    ParseHexOf(v, TimestampDigits);
    HostOrderInvolution(t, 8, littleEndian);
  }

  /** The float fields of an encoded line read back as the floats. */
  lemma WordsOfEncoded(t: nat, ws: seq<Bits32>, littleEndian: bool, rest: string)
    requires |ws| == WordCount
    ensures Words(Encode(t, ws, littleEndian) + rest, littleEndian, WordCount) == Ok(ws)
  {
    var line := Encode(t, ws, littleEndian) + rest;
    forall i | 0 <= i < WordCount
      ensures WordParses(line, i)
    {
      FieldOfEncoded(t, ws, littleEndian, rest, i);
    }
    WordsOkIff(line, littleEndian, WordCount);
    WordsValues(line, littleEndian, WordCount);
    var decoded := Words(line, littleEndian, WordCount).value;
    forall i | 0 <= i < WordCount
      ensures decoded[i] == ws[i]
    {
      FieldOfEncoded(t, ws, littleEndian, rest, i);
      HostOrderInvolution(ws[i], 4, littleEndian);
    }
    assert decoded == ws;
  }

  /** Decoding a line the tracking process wrote gives back its timestamp and
      floats, whatever follows the 112 characters. */
  lemma DecodeEncoded(t: nat, ws: seq<Bits32>, littleEndian: bool, rest: string)
    requires t < Pow256(8) && |ws| == WordCount
    ensures Decode(Encode(t, ws, littleEndian) + rest, littleEndian) == Ok((t, ws))
  {
    TimestampOfEncoded(t, ws, littleEndian, rest);
    WordsOfEncoded(t, ws, littleEndian, rest);
  }

  // ---------------------------------------------------------------------------
  // The matrix

  /** The five entries that are negated. */
  predicate Flipped(r: nat, c: nat)
  {
    (r, c) in {(0, 2), (1, 2), (2, 0), (2, 1), (2, 3)}
  }

  /** Entry (r, c) of the matrix built from the 12 floats. */
  function PlacedEntry(ws: seq<Bits32>, r: nat, c: nat): Entry
    requires |ws| == WordCount && r < 4 && c < 4
  {
    if r == 3 then (if c == 3 then One else Zero)
    else if Flipped(r, c) then Negated(ws[4 * r + c])
    else Word(ws[4 * r + c])
  }

  /** The matrix built from the 12 floats. */
  function Placed(ws: seq<Bits32>): (m: Matrix)
    requires |ws| == WordCount
    ensures |m| == 4 && forall r :: 0 <= r < 4 ==> |m[r]| == 4
  {
    seq(4, r requires 0 <= r < 4 => seq(4, c requires 0 <= c < 4 => PlacedEntry(ws, r, c)))
  }

  /** The sign of axis `k` when the z axis is mirrored. */
  function AxisSign(k: nat): int
  {
    if k == 2 then -1 else 1
  }

  /** The negated entries are exactly those whose row and column signs differ
      under a z-axis mirror, i.e. the matrix is the tracked one with z
      mirrored on both sides (right-handed to left-handed). */
  lemma FlippedIsZMirror(r: nat, c: nat)
    requires r < 3 && c < 4
    ensures Flipped(r, c) <==> AxisSign(r) * AxisSign(c) == -1
  {
  }

  function Assign(m: Matrix, r: nat, c: nat, e: Entry): (m': Matrix)
    requires r < |m| && c < |m[r]|
    ensures |m'| == |m| && forall i :: 0 <= i < |m| ==> |m'[i]| == |m[i]|
  {
    m[r := m[r][c := e]]
  }

  const Identity: Matrix := [[One, Zero, Zero, Zero], [Zero, One, Zero, Zero], [Zero, Zero, One, Zero], [Zero, Zero, Zero, One]]

  /** The element-by-element matrix construction of the decoder. */
  method PlaceValues(values: array<Bits32>) returns (m: Matrix)
    requires values.Length == WordCount
    ensures m == Placed(values[..])
  {
    m := Identity;

    m := Assign(m, 0, 0, Word(values[0]));
    m := Assign(m, 0, 1, Word(values[1]));
    m := Assign(m, 0, 2, Negated(values[2]));
    m := Assign(m, 0, 3, Word(values[3]));

    m := Assign(m, 1, 0, Word(values[4]));
    m := Assign(m, 1, 1, Word(values[5]));
    m := Assign(m, 1, 2, Negated(values[6]));
    m := Assign(m, 1, 3, Word(values[7]));

    m := Assign(m, 2, 0, Negated(values[8]));
    m := Assign(m, 2, 1, Negated(values[9]));
    m := Assign(m, 2, 2, Word(values[10]));
    m := Assign(m, 2, 3, Negated(values[11]));

    ghost var p := Placed(values[..]);
    forall r | 0 <= r < 4
      ensures m[r] == p[r]
    {
    }
  }

  // ---------------------------------------------------------------------------
  // Subscribers

  /** Index of the first subscriber that throws, or the number of subscribers. */
  function FirstThrow(throws: seq<bool>): (k: nat)
    ensures k <= |throws|
    ensures k < |throws| ==> throws[k]
    ensures forall j :: 0 <= j < k ==> !throws[j]
  {
    if throws == [] then 0
    else if throws[0] then 0
    else 1 + FirstThrow(throws[1..])
  }

  /** Delivery of a pose to the subscribers of the head-pose event, guarded by
      an exception handler: subscribers are called
      in order until one throws; that exception is caught and logged. */
  function Deliver(throws: seq<bool>): Delivery
  {
    var k := FirstThrow(throws);
    if k < |throws| then Delivery(k + 1, true) else Delivery(|throws|, false)
  }

  /** An error is logged exactly when some subscriber throws; then the
      subscribers up to and including the first thrower are called, and
      otherwise all of them. */
  lemma DeliverCallsUpToFirstThrow(throws: seq<bool>)
    ensures var d := Deliver(throws);
      (d.errorLogged <==> exists j :: 0 <= j < |throws| && throws[j]) &&
      d.invoked <= |throws| &&
      (forall j :: 0 <= j < d.invoked - 1 ==> !throws[j]) &&
      (d.errorLogged ==> throws[d.invoked - 1]) &&
      (!d.errorLogged ==> d.invoked == |throws|)
  {
  }

  // ---------------------------------------------------------------------------
  // The decoder

  /** What one line leads to. */
  function Received(line: string, littleEndian: bool, throws: seq<bool>): Outcome
  {
    match Decode(line, littleEndian)
    case Err(e) => Failed(e)
    case Ok((t, ws)) => Delivered(t, Placed(ws), Deliver(throws))
  }

  /** Cuts the field out of the line and parses it as hexadecimal, failing as
      `Field` says. */
  method ParseField(line: string, start: nat, len: nat) returns (r: Result<nat, LineError>)
    ensures r == Field(line, start, len)
  {
    if |line| < start + len {
      return Err(TooShort);
    }
    var parsed := ParseHex(line[start..start + len]);
    if parsed.None? {
      return Err(NotHex);
    }
    return Ok(parsed.value);
  }

  /** `GetBytes`, `Array.Reverse` on a little-endian host, then `ToUInt64` or
      `ToSingle`. */
  method ToHostOrder(v: nat, n: nat, littleEndian: bool) returns (r: nat)
    ensures r == HostOrder(v, n, littleEndian)
  {
    r := v;
    if littleEndian {
      var bytes := GetBytes(v, n);
      ReverseInPlace(bytes);
      r := FromLe(bytes[..]);
    }
  }

  /** Reads float `k` of the line (hex digits `WordStart(k)` to
      `WordStart(k) + 8`), brings it to host byte order and stores it at
      `values[k]`: one more step of `Words`. */
  method ReadWord(line: string, littleEndian: bool, values: array<Bits32>, k: nat) returns (e: Option<LineError>)
    requires k < values.Length
    requires Words(line, littleEndian, k) == Ok(values[..k])
    modifies values
    ensures values[..k] == old(values[..k])
    ensures e.Some? ==> Words(line, littleEndian, k + 1) == Err(e.value)
    ensures e.None? ==> Words(line, littleEndian, k + 1) == Ok(values[..k + 1])
  {
    WordsNext(line, littleEndian, k);
    var word := ParseField(line, WordStart(k), WordDigits);
    if word.Err? {
      return Some(word.error);
    }
    var bits := ToHostOrder(word.value, 4, littleEndian);
    assert bits < 0x1_0000_0000;
    values[k] := bits;
    assert values[..k + 1] == values[..k] + [bits];
    return None;
  }

  /** The twelve floats after the timestamp, in host byte order; the first
      field that is missing or not hexadecimal stops the reading. */
  method ReadWords(line: string, littleEndian: bool) returns (r: Result<array<Bits32>, LineError>)
    ensures r.Ok? ==> fresh(r.value)
    ensures r.Err? <==> Words(line, littleEndian, WordCount).Err?
    ensures r.Err? ==> r.error == Words(line, littleEndian, WordCount).error
    ensures r.Ok? ==> r.value[..] == Words(line, littleEndian, WordCount).value
  {
    var values := new Bits32[WordCount];
    var i := 0;
    while i < WordCount
      invariant 0 <= i <= WordCount
      invariant Words(line, littleEndian, i) == Ok(values[..i])
    {
      var e := ReadWord(line, littleEndian, values, i);
      if e.Some? {
        WordsErrorPersists(line, littleEndian, i + 1, WordCount);
        return Err(e.value);
      }
      i := i + 1;
    }
    assert values[..] == values[..WordCount];
    return Ok(values);
  }

  /** `ProcessDataReceived`: a missing line does nothing; otherwise the fields
      are parsed in order and the pose is delivered. A subscriber's exception
      never leaves the decoder; a parse failure does. */
  method ProcessDataReceived(data: Option<string>, littleEndian: bool, throws: seq<bool>) returns (r: Outcome)
    ensures data.None? <==> r == NoData
    ensures data.Some? ==> r == Received(data.value, littleEndian, throws)
  {
    if data.None? {
      return NoData;
    }
    var line := data.value;

    var parsed := ParseField(line, 0, TimestampDigits);
    if parsed.Err? {
      return Failed(parsed.error);
    }
    var timestamp := ToHostOrder(parsed.value, 8, littleEndian);

    var values := ReadWords(line, littleEndian);
    if values.Err? {
      return Failed(values.error);
    }

    var m := PlaceValues(values.value);
    r := Delivered(timestamp, m, Deliver(throws));
  }
}
