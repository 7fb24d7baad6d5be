/** The PLY header parser (`ReadDataHeader`, Scripts/Ply_PointCloudProvider.cs).

    The header is given as the lines `StreamReader.ReadLine` returns, in order;
    running out of lines is the reader's `null`, on which the source fails.
    `ParseHeader` says declaratively what the parser accepts and returns: each
    line between the format line and "end_header" is judged on its own columns
    and on whether the most recent `element` line named something other than
    `vertex`. `ReadDataHeader` is the source's loop, proved to compute it. */
module PlyHeader {
  import opened Wrappers
  import opened Text
  import opened PlyFormat

  datatype DataHeader = DataHeader(properties: seq<DataProperty>, vertexCount: int)

  /** A parsed header and the byte offset at which the binary body starts. */
  datatype HeaderRead = HeaderRead(header: DataHeader, bodyOffset: nat)

  /** The header text as it sits in the file: every line followed by '\n'. */
  function LinesText(lines: seq<string>): string
  {
    if lines == [] then [] else LinesText(lines[..|lines| - 1]) + lines[|lines| - 1] + "\n"
  }

  /** What the reader adds up: one byte per character plus one for the newline. */
  function HeaderBytes(lines: seq<string>): nat
  {
    if lines == [] then 0 else HeaderBytes(lines[..|lines| - 1]) + |lines[|lines| - 1]| + 1
  }

  /** The byte count the reader accumulates is the length of the header text,
      so a file made of that text followed by the body has the body at that
      offset. */
  lemma {:induction false} HeaderBytesIsTextLength(lines: seq<string>, body: seq<char>)
    ensures HeaderBytes(lines) == |LinesText(lines)|
    ensures (LinesText(lines) + body)[HeaderBytes(lines)..] == body
  {
    if lines != [] {
      HeaderBytesIsTextLength(lines[..|lines| - 1], body);
    }
  }

  /** The skip flag after line `i` (index 1 is the format line, where it starts
      out false): set by an `element` line naming anything but `vertex`,
      cleared by `element vertex`, kept by every other line. */
  function SkipAfter(lines: seq<string>, i: nat): bool
    requires 1 <= i < |lines|
  {
    if i == 1 then false
    else
      var col := Split(lines[i]);
      if col[0] == "element" && |col| >= 2 then col[1] != "vertex" else SkipAfter(lines, i - 1)
  }

  /** The exception line `i` raises, if any. */
  function LineError(lines: seq<string>, i: nat): Option<HeaderError>
    requires 2 <= i < |lines|
  {
    var col := Split(lines[i]);
    if col[0] == "element" && |col| < 2 then Some(MissingField)
    else if col[0] == "element" && col[1] == "vertex" && |col| < 3 then Some(MissingField)
    else if col[0] == "element" && col[1] == "vertex" && ParseInt32(col[2]).None? then Some(BadCount)
    else if SkipAfter(lines, i) then None
    else if col[0] == "property" && |col| < 3 then Some(MissingField)
    else if col[0] == "property" && ClassifyProperty(col[1], col[2]).Err? then Some(ClassifyProperty(col[1], col[2]).error)
    else None
  }

  /** The property line `i` contributes, if any. */
  function LineProperty(lines: seq<string>, i: nat): Option<DataProperty>
    requires 2 <= i < |lines|
  {
    var col := Split(lines[i]);
    if !SkipAfter(lines, i) && col[0] == "property" && |col| >= 3 && ClassifyProperty(col[1], col[2]).Ok?
    then Some(ClassifyProperty(col[1], col[2]).value)
    else None
  }

  /** The properties declared by lines 2 .. k-1 outside skipped elements. */
  function LiveProperties(lines: seq<string>, k: nat): (props: seq<DataProperty>)
    requires 2 <= k <= |lines|
    ensures forall j :: 0 <= j < |props| ==> props[j] != Invalid
  {
    if k == 2 then []
    else
      match LineProperty(lines, k - 1)
      case Some(p) => LiveProperties(lines, k - 1) + [p]
      case None => LiveProperties(lines, k - 1)
  }

  /** The count of the last well-formed `element vertex` line among lines
      2 .. k-1, or -1 when there is none. */
  function VertexCount(lines: seq<string>, k: nat): int
    requires 2 <= k <= |lines|
  {
    if k == 2 then -1
    else
      var col := Split(lines[k - 1]);
      if col[0] == "element" && |col| >= 3 && col[1] == "vertex" && ParseInt32(col[2]).Some?
      then ParseInt32(col[2]).value
      else VertexCount(lines, k - 1)
  }

  /** Index of the first "end_header" line at or after `i`; |lines| if none. */
  function EndIndex(lines: seq<string>, i: nat): (e: nat)
    requires i <= |lines|
    ensures i <= e <= |lines|
    ensures e < |lines| ==> lines[e] == EndHeaderLine
    ensures forall j :: i <= j < e ==> lines[j] != EndHeaderLine
    decreases |lines| - i
  {
    if i == |lines| || lines[i] == EndHeaderLine then i else EndIndex(lines, i + 1)
  }

  /** The first exception raised by lines i .. e-1. */
  function FirstError(lines: seq<string>, i: nat, e: nat): Option<HeaderError>
    requires 2 <= i <= e <= |lines|
    decreases e - i
  {
    if i == e then None
    else
      match LineError(lines, i)
      case Some(err) => Some(err)
      case None => FirstError(lines, i + 1, e)
  }

  /** What the header parser returns for the given lines. */
  function ParseHeader(lines: seq<string>): (r: Result<HeaderRead, HeaderError>)
    ensures r.Ok? ==> 3 <= |lines| && lines[0] == MagicLine && lines[1] == FormatLine
    ensures |lines| >= 1 && lines[0] != MagicLine ==> r == Err(BadMagic)
    ensures |lines| >= 2 && lines[0] == MagicLine && lines[1] != FormatLine ==> r == Err(BadFormat)
    ensures r.Ok? ==> forall j :: 0 <= j < |r.value.header.properties| ==> GetPropertySize(r.value.header.properties[j]) > 0
  {
    if |lines| == 0 then Err(UnexpectedEnd)
    else if lines[0] != MagicLine then Err(BadMagic)
    else if |lines| == 1 then Err(UnexpectedEnd)
    else if lines[1] != FormatLine then Err(BadFormat)
    else Declarations(lines)
  }

  /** What the parser returns once the magic and format lines are accepted:
      the first exception of a declaration line before "end_header", running
      out of lines, or the properties and vertex count declared. */
  function Declarations(lines: seq<string>): (r: Result<HeaderRead, HeaderError>)
    requires 2 <= |lines|
    ensures r.Ok? ==> 3 <= |lines|
    ensures r.Ok? ==> forall j :: 0 <= j < |r.value.header.properties| ==> GetPropertySize(r.value.header.properties[j]) > 0
  {
    var e := EndIndex(lines, 2);
    match FirstError(lines, 2, e)
    case Some(err) => Err(err)
    case None =>
      if e == |lines| then Err(UnexpectedEnd)
      else Ok(HeaderRead(DataHeader(LiveProperties(lines, e), VertexCount(lines, e)), HeaderBytes(lines[..e + 1])))
  }

  /** The body starts right after the "end_header" line. */
  lemma BodyOffsetAfterEndHeader(lines: seq<string>)
    requires ParseHeader(lines).Ok?
    ensures var e := EndIndex(lines, 2);
      e < |lines| && lines[e] == EndHeaderLine &&
      ParseHeader(lines).value.bodyOffset == |LinesText(lines[..e + 1])|
  {
    HeaderBytesIsTextLength(lines[..EndIndex(lines, 2) + 1], []);
  }

  /** Lines of a skipped element contribute nothing, whatever they declare. */
  lemma SkippedPropertyIgnored(lines: seq<string>, i: nat)
    requires 2 <= i < |lines| && SkipAfter(lines, i)
    ensures LiveProperties(lines, i + 1) == LiveProperties(lines, i)
    ensures LineError(lines, i).Some? ==> Split(lines[i])[0] == "element"
  {
  }

  // ---------------------------------------------------------------------------
  // The source's loop

  /** The parser state carried from one declaration line to the next. */
  datatype DeclState = DeclState(skip: bool, properties: seq<DataProperty>, vertexCount: int)

  /** The parser state once lines 2 .. k-1 are read. */
  ghost function StateAt(lines: seq<string>, k: nat): DeclState
    requires 2 <= k <= |lines|
  {
    DeclState(SkipAfter(lines, k - 1), LiveProperties(lines, k), VertexCount(lines, k))
  }

  /** The body of the declaration loop for one line other than "end_header":
      `lines` and `i` are only there to state which line it is. */
  method ReadDeclaration(line: string, skip: bool, properties: seq<DataProperty>, vertexCount: int,
                         ghost lines: seq<string>, ghost i: nat)
    returns (r: Result<DeclState, HeaderError>)
    requires 2 <= i < |lines| && line == lines[i]
    requires skip == SkipAfter(lines, i - 1)
    requires properties == LiveProperties(lines, i) && vertexCount == VertexCount(lines, i)
    ensures r.Err? <==> LineError(lines, i).Some?
    ensures r.Err? ==> r.error == LineError(lines, i).value
    ensures r.Ok? ==> r.value == DeclState(SkipAfter(lines, i), LiveProperties(lines, i + 1), VertexCount(lines, i + 1))
  {
    var col := Split(line);
    var skip, vertexCount := skip, vertexCount;

    // Element declaration (unskippable)
    if col[0] == "element" {
      if |col| < 2 { return Err(MissingField); }
      if col[1] == "vertex" {
        if |col| < 3 { return Err(MissingField); }
        var count := ParseInt32(col[2]);
        if count.None? { return Err(BadCount); }
        vertexCount := count.value;
        skip := false;
      } else {
        skip := true;
      }
    }

    if skip { return Ok(DeclState(skip, properties, vertexCount)); }

    // Property declaration line
    if col[0] == "property" {
      if |col| < 3 { return Err(MissingField); }
      var prop := ClassifyProperty(col[1], col[2]);
      if prop.Err? { return Err(prop.error); }
      return Ok(DeclState(skip, properties + [prop.value], vertexCount));
    }
    return Ok(DeclState(skip, properties, vertexCount));
  }

  /** `ReadDataHeader`: reads the magic and format lines, then declaration lines
      up to "end_header", counting line length + 1 per line read. */
  method ReadDataHeader(lines: seq<string>) returns (r: Result<HeaderRead, HeaderError>)
    ensures r == ParseHeader(lines)
  {
    var next := 0;
    var readCount := 0;

    // Magic number line ("ply")
    if next == |lines| { return Err(UnexpectedEnd); }
    var line := lines[next];
    next := next + 1;
    readCount := readCount + |line| + 1;
    if line != MagicLine { return Err(BadMagic); }

    // Data format: binary little endian
    if next == |lines| { return Err(UnexpectedEnd); }
    line := lines[next];
    next := next + 1;
    readCount := readCount + |line| + 1;
    if line != FormatLine { return Err(BadFormat); }
    assert lines[..2][..1] == lines[..1] && lines[..1][..0] == [];
    assert HeaderBytes(lines[..1]) == HeaderBytes(lines[..1][..0]) + |lines[0]| + 1;
    assert HeaderBytes(lines[..2]) == HeaderBytes(lines[..2][..1]) + |lines[1]| + 1;

    r := ReadDeclarations(lines, readCount);
  }

  lemma HeaderBytesNext(lines: seq<string>, k: nat)
    requires k < |lines|
    ensures HeaderBytes(lines[..k + 1]) == HeaderBytes(lines[..k]) + |lines[k]| + 1
  {
    assert lines[..k + 1][..k] == lines[..k];
  }

  /** One declaration line before "end_header": either its exception is
      the parser's result, or the scan moves on by one line. */
  lemma DeclarationStep(lines: seq<string>, k: nat, e: nat)
    requires 2 <= k < e <= |lines| && EndIndex(lines, k) == e
    requires FirstError(lines, 2, e) == FirstError(lines, k, e)
    requires e == EndIndex(lines, 2)
    ensures LineError(lines, k).Some? ==> Declarations(lines) == Err(LineError(lines, k).value)
    ensures LineError(lines, k).None? ==>
      EndIndex(lines, k + 1) == e && FirstError(lines, 2, e) == FirstError(lines, k + 1, e)
  {
  }

  /** Running out of lines before "end_header" with no exception on the way. */
  lemma DeclarationsRunOut(lines: seq<string>, e: nat)
    requires 2 <= |lines| && e == EndIndex(lines, 2) == |lines|
    requires FirstError(lines, 2, e) == FirstError(lines, e, e)
    ensures Declarations(lines) == Err(UnexpectedEnd)
  {
  }

  /** Reaching "end_header" with no exception on the way. */
  lemma DeclarationsDone(lines: seq<string>, e: nat)
    requires 2 <= |lines| && e == EndIndex(lines, 2) < |lines|
    requires FirstError(lines, 2, e) == FirstError(lines, e, e)
    ensures Declarations(lines) == Ok(HeaderRead(DataHeader(StateAt(lines, e).properties, StateAt(lines, e).vertexCount), HeaderBytes(lines[..e + 1])))
  {
  }

  /** The declaration loop of `ReadDataHeader`, after the magic and format
      lines: one line at a time up to "end_header". */
  method ReadDeclarations(lines: seq<string>, startBytes: nat) returns (r: Result<HeaderRead, HeaderError>)
    requires 2 <= |lines|
    requires startBytes == HeaderBytes(lines[..2])
    ensures r == Declarations(lines)
  {
    var next := 2;
    var readCount := startBytes;
    ghost var e := EndIndex(lines, 2);
    var state := DeclState(false, [], -1);
    while true
      invariant 2 <= next <= e
      invariant EndIndex(lines, next) == e
      invariant FirstError(lines, 2, e) == FirstError(lines, next, e)
      invariant state == StateAt(lines, next)
      invariant readCount == HeaderBytes(lines[..next])
      decreases |lines| - next
    {
      if next == |lines| {
        DeclarationsRunOut(lines, e);
        return Err(UnexpectedEnd);
      }
      var line := lines[next];
      HeaderBytesNext(lines, next);
      readCount := readCount + |line| + 1;
      if line == EndHeaderLine { break; }
      var step := ReadDeclaration(line, state.skip, state.properties, state.vertexCount, lines, next);
      DeclarationStep(lines, next, e);
      if step.Err? { return Err(step.error); }
      state := step.value;
      next := next + 1;
    }
    DeclarationsDone(lines, e);
    r := Ok(HeaderRead(DataHeader(state.properties, state.vertexCount), readCount));
  }
}
