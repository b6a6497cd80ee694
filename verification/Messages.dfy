/** Schema-directed reading and writing of ROS messages (src/ros/message.rs). */
module Messages {
  import opened Basics
  import opened Utf8
  import opened Values

  // ASCII spellings of the names the conversion treats specially.
  const HEADER: Text := [104, 101, 97, 100, 101, 114]
  const STAMP: Text := [115, 116, 97, 109, 112]
  const NOW: Text := [110, 111, 119]
  const SEC: Text := [115, 101, 99]
  const NANOSEC: Text := [110, 97, 110, 111, 115, 101, 99]
  const SECS: Text := [115, 101, 99, 115]
  const NSECS: Text := [110, 115, 101, 99, 115]

  const TIME_TYPE := "builtin_interfaces/msg/Time"
  const HEADER_TYPE := "std_msgs/msg/Header"

  /** The introspection type ids 1 to 18. */
  datatype Kind =
    | Float32 | Float64 | LongDouble | CharKind | WChar | Boolean | Octet | UInt8 | Int8
    | UInt16 | Int16 | UInt32 | Int32 | UInt64 | Int64 | StringKind | WStringKind
    | Nested(schema: Schema)

  /** `Fixed` has a positive size; a bound of zero means none. */
  datatype Shape = Single | Fixed(size: nat) | Sequence(bound: nat)

  /** `blank` is the content of a freshly initialised element. */
  datatype Member = Member(name: Text, kind: Kind, shape: Shape, stringBound: nat, blank: Mem)

  datatype Schema = Schema(typeName: string, members: seq<Member>)

  /** Message memory as a tree of typed cells. */
  datatype Mem =
    | Int(v: int)
    | F32(bits32: nat)
    | F64(bits64: nat)
    | Flag(b: bool)
    | Chars(chars: seq<Byte>)
    | Units(units: seq<nat>)
    | Struct(fields: seq<Mem>)
    | Elements(items: seq<Mem>)

  function IntegerOf(kind: Kind): Option<Element> {
    match kind
    case CharKind => Some(Unsigned(1))
    case Octet => Some(Unsigned(1))
    case UInt8 => Some(Unsigned(1))
    case Int8 => Some(Signed(1))
    case WChar => Some(Unsigned(2))
    case UInt16 => Some(Unsigned(2))
    case Int16 => Some(Signed(2))
    case UInt32 => Some(Unsigned(4))
    case Int32 => Some(Signed(4))
    case UInt64 => Some(Unsigned(8))
    case Int64 => Some(Signed(8))
    case _ => None
  }

  predicate InRange(element: Element, v: int) {
    match element
    case Unsigned(size) => 0 <= v < Power256(size)
    case Signed(size) => -(Power256(size) as int) <= 2 * v < Power256(size)
    case FloatOf(_) => false
  }

  /** Arrays of these are base64 strings in JSON and byte strings in CBOR. */
  predicate IsBinary(kind: Kind) { kind.CharKind? || kind.UInt8? }

  // ------------------------------------------------------------------ reading

  function ReadObject(codec: Codec, schema: Schema, mem: Mem): Option<(Json, Cbor)>
    decreases schema, 0
  {
    if !mem.Struct? then None
    else
      match ReadMembers(codec, schema.members, mem.fields)
      case None => None
      case Some((fields, entries)) => Some((Obj(fields), CMap(entries)))
  }

  function ReadMembers(codec: Codec, members: seq<Member>, mems: seq<Mem>): Option<(seq<Field>, seq<Entry>)>
    decreases members, 0
  {
    if members == [] then Some(([], []))
    else if |mems| != |members| then None
    else
      var last := |members| - 1;
      match (ReadMembers(codec, members[..last], mems[..last]), ReadField(codec, members[last], mems[last]))
      case (Some((fields, entries)), Some((j, c))) =>
        Some((Insert(fields, members[last].name, j), entries + [Entry(CText(members[last].name), c)]))
      case (_, _) => None
  }

  function ReadField(codec: Codec, member: Member, mem: Mem): Option<(Json, Cbor)>
    decreases member, 0
  {
    if member.shape.Single? then ReadScalar(codec, member.kind, mem)
    else if !mem.Elements? then None
    else
      match ReadElements(codec, member.kind, mem.items)
      case None => None
      case Some((jsons, cbors)) =>
        var bytes := PackAll(member.kind, mem.items);
        Some((if IsBinary(member.kind) then Str(codec.base64(bytes)) else Arr(jsons),
              if IsBinary(member.kind) then CBytes(bytes)
              else if member.shape.Sequence? && TagOf(member.kind).Some?
              then CTag(TagOf(member.kind).value, CBytes(bytes))
              else CArray(cbors)))
  }

  function ReadElements(codec: Codec, kind: Kind, items: seq<Mem>): (r: Option<(seq<Json>, seq<Cbor>)>)
    ensures r.Some? ==> |r.value.0| == |items| && |r.value.1| == |items|
    decreases kind, 1 + |items|
  {
    if items == [] then Some(([], []))
    else
      var last := |items| - 1;
      match (ReadElements(codec, kind, items[..last]), ReadScalar(codec, kind, items[last]))
      case (Some((jsons, cbors)), Some((j, c))) => Some((jsons + [j], cbors + [c]))
      case (_, _) => None
  }

  function ReadScalar(codec: Codec, kind: Kind, mem: Mem): Option<(Json, Cbor)>
    decreases kind, 0
  {
    if IntegerOf(kind).Some? then
      if mem.Int? then Some((IntJson(mem.v), CborValue(IntJson(mem.v)))) else None
    else
      match (kind, mem)
      case (Float32, F32(bits)) => Some((FloatJson(codec.widen(bits)), CFloat(codec.widen(bits))))
      case (Float64, F64(bits)) => Some((FloatJson(bits), CFloat(bits)))
      case (Boolean, Flag(b)) => Some((Bool(b), CBool(b)))
      case (StringKind, Chars(chars)) => if codec.isUtf8(chars) then Some((Str(chars), CText(chars))) else None
      case (WStringKind, Units(units)) =>
        (match codec.fromUtf16(units)
         case None => None
         case Some(s) => Some((Str(s), CText(s))))
      case (Nested(schema), _) => ReadObject(codec, schema, mem)
      case (_, _) => None
  }

  /** The little-endian bytes of an element, for the kinds that have a typed array. */
  function Pack(kind: Kind, mem: Mem): seq<Byte> {
    if mem.Int? && IntegerOf(kind).Some? && !kind.WChar? then
      var size := IntegerOf(kind).value.size;
      var n := ToTwosComplement(size, mem.v);
      ToLittleEndian(size, if n >= 0 then n else 0)
    else if mem.F32? && kind.Float32? then ToLittleEndian(4, mem.bits32)
    else if mem.F64? && kind.Float64? then ToLittleEndian(8, mem.bits64)
    else []
  }

  function PackAll(kind: Kind, items: seq<Mem>): seq<Byte> {
    if items == [] then [] else Pack(kind, items[0]) + PackAll(kind, items[1..])
  }

  function TagOf(kind: Kind): Option<nat> {
    match kind
    case Float32 => Some(85)
    case Float64 => Some(86)
    case Octet => Some(72)
    case Int8 => Some(72)
    case UInt16 => Some(69)
    case Int16 => Some(77)
    case UInt32 => Some(70)
    case Int32 => Some(78)
    case UInt64 => Some(71)
    case Int64 => Some(79)
    case _ => None
  }

  // ------------------------------------------------------------------ writing

  type Now = (nat, nat)

  function Remove(fields: seq<Field>, key: Text): seq<Field> {
    if fields == [] then []
    else if fields[0].key == key then fields[1..]
    else [fields[0]] + Remove(fields[1..], key)
  }

  function OrInsert(fields: seq<Field>, key: Text, value: Json): seq<Field> {
    if HasKey(fields, key) then fields else Insert(fields, key, value)
  }

  function Stamp(now: Now): Json {
    Obj([Field(SEC, IntJson(now.0)), Field(NANOSEC, IntJson(now.1))])
  }

  /** ROS 1 spellings of a time are accepted unless the ROS 2 spelling is present. */
  function Alias(fields: seq<Field>, alias: Text, field: Text): seq<Field> {
    match Lookup(fields, alias)
    case None => fields
    case Some(value) => OrInsert(Remove(fields, alias), field, value)
  }

  function Zip(members: seq<Member>, list: seq<Json>): seq<Field>
    requires |list| <= |members|
  {
    if list == [] then []
    else Insert(Zip(members, list[..|list| - 1]), members[|list| - 1].name, list[|list| - 1])
  }

  /** The object form of a value: "now", positional arguments and aliases resolved. */
  function Normalize(schema: Schema, value: Json, now: Now): Option<seq<Field>> {
    var obj :=
      if schema.typeName == TIME_TYPE && value == Str(NOW) then Some(Stamp(now))
      else if value.Arr? then
        if |value.items| <= |schema.members| then Some(Obj(Zip(schema.members, value.items))) else None
      else Some(value);
    if obj.None? || !obj.value.Obj? then None
    else if schema.typeName == TIME_TYPE then
      Some(Alias(Alias(obj.value.fields, SECS, SEC), NSECS, NANOSEC))
    else Some(obj.value.fields)
  }

  predicate KnowsKeys(members: seq<Member>, fields: seq<Field>) {
    forall i :: 0 <= i < |fields| ==> KnowsKey(members, fields[i].key)
  }

  predicate KnowsKey(members: seq<Member>, key: Text) {
    exists k :: 0 <= k < |members| && members[k].name == key
  }

  predicate IsRootHeader(member: Member, root: bool) {
    && root && member.name == HEADER && member.shape.Single? && member.kind.Nested?
    && member.kind.schema.typeName == HEADER_TYPE
  }

  /** The memory a struct starts from; typed memory always has the right shape. */
  function FieldsOf(schema: Schema, mem: Mem): (fields: seq<Mem>)
    ensures |fields| == |schema.members|
  {
    if mem.Struct? && |mem.fields| == |schema.members| then mem.fields
    else seq(|schema.members|, i requires 0 <= i < |schema.members| => schema.members[i].blank)
  }

  function WriteObject(codec: Codec, schema: Schema, mem: Mem, value: Json, now: Now, root: bool): Option<Mem>
    decreases schema, 0
  {
    match Normalize(schema, value, now)
    case None => None
    case Some(fields) =>
      if !KnowsKeys(schema.members, fields) then None
      else
        match WriteMembers(codec, schema.members, FieldsOf(schema, mem), fields, now, root)
        case None => None
        case Some(mems) => Some(Struct(mems))
  }

  function WriteMembers(codec: Codec, members: seq<Member>, mems: seq<Mem>, fields: seq<Field>, now: Now, root: bool)
    : (r: Option<seq<Mem>>)
    requires |mems| == |members|
    ensures r.Some? ==> |r.value| == |members|
    decreases members, 0
  {
    if members == [] then Some([])
    else
      var last := |members| - 1;
      match (WriteMembers(codec, members[..last], mems[..last], fields, now, root),
             WriteMember(codec, members[last], mems[last], Lookup(fields, members[last].name), now, root))
      case (Some(before), Some(mem)) => Some(before + [mem])
      case (_, _) => None
  }

  /** A missing member keeps its memory, except that a root header gets a stamp. */
  function WriteMember(codec: Codec, member: Member, mem: Mem, value: Option<Json>, now: Now, root: bool): Option<Mem>
    decreases member, 1
  {
    if IsRootHeader(member, root) then
      var header := if value.Some? then value.value else Obj([]);
      if !header.Obj? then None
      else WriteField(codec, member, mem, Obj(OrInsert(header.fields, STAMP, Stamp(now))), now)
    else if value.None? then Some(mem)
    else WriteField(codec, member, mem, value.value, now)
  }

  function WriteField(codec: Codec, member: Member, mem: Mem, value: Json, now: Now): Option<Mem>
    decreases member, 0
  {
    if member.shape.Single? then WriteScalar(codec, member.kind, member.stringBound, mem, value, now)
    else
      match ArrayValues(codec, member.kind, value)
      case None => None
      case Some(values) =>
        if (member.shape.Fixed? && |values| != member.shape.size)
           || (member.shape.Sequence? && member.shape.bound != 0 && |values| > member.shape.bound)
        then None
        else
          var start := if member.shape.Fixed? && mem.Elements? && |mem.items| == |values| then mem.items
                       else seq(|values|, _ => member.blank);
          match WriteElements(codec, member.kind, member.stringBound, start, values, now)
          case None => None
          case Some(items) => Some(Elements(items))
  }

  function ArrayValues(codec: Codec, kind: Kind, value: Json): Option<seq<Json>> {
    if IsBinary(kind) && value.Str? then
      match codec.unbase64(value.s)
      case None => None
      case Some(bytes) => Some(ByteJsons(bytes))
    else if value.Arr? then Some(value.items)
    else None
  }

  function ByteJsons(bytes: seq<Byte>): seq<Json> {
    seq(|bytes|, i requires 0 <= i < |bytes| => IntJson(bytes[i]))
  }

  function WriteElements(codec: Codec, kind: Kind, stringBound: nat, mems: seq<Mem>, values: seq<Json>, now: Now)
    : Option<seq<Mem>>
    requires |mems| == |values|
    decreases kind, 1 + |values|
  {
    if values == [] then Some([])
    else
      var last := |values| - 1;
      match (WriteElements(codec, kind, stringBound, mems[..last], values[..last], now),
             WriteScalar(codec, kind, stringBound, mems[last], values[last], now))
      case (Some(before), Some(mem)) => Some(before + [mem])
      case (_, _) => None
  }

  /** `as_u64` and `as_i64`. */
  function AsInteger(element: Element, value: Json): Option<int> {
    match value
    case Num(PosInt(u)) => if element.Signed? && u >= 0x8000_0000_0000_0000 then None else Some(u)
    case Num(NegInt(i)) => if element.Signed? then Some(i) else None
    case _ => None
  }

  function AsFloat(codec: Codec, value: Json): Option<nat> {
    match value
    case Num(Float(bits)) => Some(bits)
    case Num(PosInt(u)) => Some(codec.floatOfInt(u))
    case Num(NegInt(i)) => Some(codec.floatOfInt(i))
    case _ => None
  }

  function WriteScalar(codec: Codec, kind: Kind, stringBound: nat, mem: Mem, value: Json, now: Now): Option<Mem>
    decreases kind, 0
  {
    if IntegerOf(kind).Some? then
      match AsInteger(IntegerOf(kind).value, value)
      case None => None
      case Some(v) => if InRange(IntegerOf(kind).value, v) then Some(Int(v)) else None
    else
      match kind
      case Float32 =>
        (match AsFloat(codec, value)
         case None => None
         case Some(bits) => if codec.fitsFloat32(bits) then Some(F32(codec.narrow(bits))) else None)
      case Float64 => (match AsFloat(codec, value) case None => None case Some(bits) => Some(F64(bits)))
      case Boolean => if value.Bool? then Some(Flag(value.b)) else None
      case StringKind =>
        if value.Str? && (stringBound == 0 || |value.s| <= stringBound) then Some(Chars(value.s)) else None
      case WStringKind =>
        if value.Str? && (stringBound == 0 || |codec.utf16(value.s)| <= stringBound)
        then Some(Units(codec.utf16(value.s))) else None
      case Nested(schema) => WriteObject(codec, schema, mem, value, now, false)
      case _ => None
  }
}
