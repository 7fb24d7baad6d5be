/** Vocabulary of the PLY reader (Scripts/Ply_PointCloudProvider.cs): the
    `DataProperty` codes a vertex property is classified into, their byte sizes,
    and the classification of one `property <type> <name>` header line. */
module PlyFormat {
  import opened Wrappers

  datatype DataProperty =
    | Invalid
    | R8 | G8 | B8 | A8
    | R16 | G16 | B16 | A16
    | SingleX | SingleY | SingleZ
    | DoubleX | DoubleY | DoubleZ
    | Data8 | Data16 | Data32 | Data64

  /** The vertex component a property's value is stored into. */
  datatype Channel = X | Y | Z | R | G | B | A

  /** Why a header is refused (each is an exception in the reader). */
  datatype HeaderError =
    | UnexpectedEnd          // ReadLine returned null
    | BadMagic               // first line is not "ply"
    | BadFormat              // second line is not the binary little-endian format
    | MissingField           // a column the parser indexes is absent
    | BadCount               // the vertex count is not a 32-bit integer
    | InvalidPropertyType    // the type width does not suit the property name
    | UnsupportedPropertyType

  const MagicLine: string := "ply"
  const FormatLine: string := "format binary_little_endian 1.0"
  const EndHeaderLine: string := "end_header"

  /** Bytes a property occupies in each vertex record; 0 only for `Invalid`. */
  function GetPropertySize(p: DataProperty): (size: nat)
    ensures size == 0 <==> p == Invalid
    ensures size in {0, 1, 2, 4, 8}
  {
    match p
    case R8 => 1
    case G8 => 1
    case B8 => 1
    case A8 => 1
    case R16 => 2
    case G16 => 2
    case B16 => 2
    case A16 => 2
    case SingleX => 4
    case SingleY => 4
    case SingleZ => 4
    case DoubleX => 8
    case DoubleY => 8
    case DoubleZ => 8
    case Data8 => 1
    case Data16 => 2
    case Data32 => 4
    case Data64 => 8
    case Invalid => 0
  }

  /** The channel the body decoder writes a property into; `None` for the
      `Data*` codes it skips and for `Invalid`. */
  function WrittenChannel(p: DataProperty): Option<Channel>
  {
    match p
    case R8 | R16 => Some(R)
    case G8 | G16 => Some(G)
    case B8 | B16 => Some(B)
    case A8 | A16 => Some(A)
    case SingleX | DoubleX => Some(X)
    case SingleY | DoubleY => Some(Y)
    case SingleZ | DoubleZ => Some(Z)
    case _ => None
  }

  /** A property is known by its channel and its size. */
  lemma ChannelAndSizeDetermineProperty(p: DataProperty, q: DataProperty)
    requires WrittenChannel(p) == WrittenChannel(q)
    requires GetPropertySize(p) == GetPropertySize(q)
    ensures p == q
  {
  }

  /** Width in bytes of a PLY scalar type name; 0 for names the reader does not
      support (including `list`). */
  function TypeWidth(t: string): (w: nat)
    ensures w in {0, 1, 2, 4, 8}
  {
    if t in {"char", "uchar", "int8", "uint8"} then 1
    else if t in {"short", "ushort", "int16", "uint16"} then 2
    else if t in {"int", "uint", "float", "int32", "uint32", "float32"} then 4
    else if t in {"int64", "uint64", "double", "float64"} then 8
    else 0
  }

  /** The channel a property name selects; `None` for names the reader keeps
      only as padding. */
  function NamedChannel(name: string): Option<Channel>
  {
    if name == "red" then Some(R)
    else if name == "green" then Some(G)
    else if name == "blue" then Some(B)
    else if name == "alpha" then Some(A)
    else if name == "x" then Some(X)
    else if name == "y" then Some(Y)
    else if name == "z" then Some(Z)
    else None
  }

  predicate IsColour(ch: Channel)
  {
    ch in {R, G, B, A}
  }

  /** Colours may be 8 or 16 bits wide, coordinates 32 or 64 bits. */
  predicate WidthSuits(ch: Channel, width: nat)
  {
    if IsColour(ch) then width in {1, 2} else width in {4, 8}
  }

  /** The codes a property name alone can select. */
  predicate IsNameCode(p: DataProperty)
  {
    p.Invalid? || p.R8? || p.G8? || p.B8? || p.A8? || p.SingleX? || p.SingleY? || p.SingleZ?
  }

  /** The property code a name selects before its type is looked at: the
      8-bit colours and the single-precision coordinates, `Invalid` for any
      other name. */
  function NamedProperty(name: string): (p: DataProperty)
    ensures WrittenChannel(p) == NamedChannel(name)
    ensures IsNameCode(p)
  {
    match name
    case "red" => R8
    case "green" => G8
    case "blue" => B8
    case "alpha" => A8
    case "x" => SingleX
    case "y" => SingleY
    case "z" => SingleZ
    case _ => Invalid
  }

  /** Classification of `property <typeName> <name>`: the name picks a channel,
      the type a width; colours widen to 16 bits and coordinates to 64 bits,
      any other mismatch is refused, and so is an unknown type. */
  function ClassifyProperty(typeName: string, name: string): (r: Result<DataProperty, HeaderError>)
    ensures r.Ok? <==>
      TypeWidth(typeName) != 0 &&
      (NamedChannel(name).None? || WidthSuits(NamedChannel(name).value, TypeWidth(typeName)))
    ensures r.Ok? ==>
      GetPropertySize(r.value) == TypeWidth(typeName) && WrittenChannel(r.value) == NamedChannel(name)
    ensures r.Err? ==>
      r.error == (if TypeWidth(typeName) == 0 then UnsupportedPropertyType else InvalidPropertyType)
  {
    ClassifyWidth(TypeWidth(typeName), NamedProperty(name))
  }

  /** The type-name chain of the classification, on the width the name
      stands for: a named property keeps its code when the width suits it,
      widens (colours to 16 bits, coordinates to 64 bits) or is refused; an
      unnamed one becomes the `Data*` code of the width. */
  function ClassifyWidth(width: nat, prop: DataProperty): (r: Result<DataProperty, HeaderError>)
    requires IsNameCode(prop)
    ensures r.Ok? <==>
      width in {1, 2, 4, 8} && (WrittenChannel(prop).None? || WidthSuits(WrittenChannel(prop).value, width))
    ensures r.Ok? ==> GetPropertySize(r.value) == width && WrittenChannel(r.value) == WrittenChannel(prop)
    ensures r.Err? ==> r.error == (if width in {1, 2, 4, 8} then InvalidPropertyType else UnsupportedPropertyType)
  {
    if width == 1 then
      if prop == Invalid then Ok(Data8)
      else if GetPropertySize(prop) != 1 then Err(InvalidPropertyType)
      else Ok(prop)
    else if width == 2 then
      var wide :=
        match prop
        case Invalid => Data16
        case R8 => R16
        case G8 => G16
        case B8 => B16
        case A8 => A16
        case _ => prop;
      if GetPropertySize(wide) != 2 then Err(InvalidPropertyType) else Ok(wide)
    else if width == 4 then
      if prop == Invalid then Ok(Data32)
      else if GetPropertySize(prop) != 4 then Err(InvalidPropertyType)
      else Ok(prop)
    else if width == 8 then
      var wide :=
        match prop
        case Invalid => Data64
        case SingleX => DoubleX
        case SingleY => DoubleY
        case SingleZ => DoubleZ
        case _ => prop;
      if GetPropertySize(wide) != 8 then Err(InvalidPropertyType) else Ok(wide)
    else
      Err(UnsupportedPropertyType)
  }

  /** No classified property is `Invalid`, and unnamed properties become the
      `Data*` code of their width. */
  lemma UnnamedPropertiesArePadding(typeName: string, name: string)
    requires NamedChannel(name).None? && TypeWidth(typeName) != 0
    ensures ClassifyProperty(typeName, name).Ok?
    ensures ClassifyProperty(typeName, name).value ==
      match TypeWidth(typeName)
      case 1 => Data8
      case 2 => Data16
      case 4 => Data32
      case _ => Data64
  {
  }
}
