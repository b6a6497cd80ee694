/** JSON and CBOR values and the conversions between them (src/wire.rs). */
module Values {
  import opened Basics
  import opened Utf8

  type Text = seq<Byte>

  /**
   What the standard codecs provide, kept abstract: float widths, base64 and UTF-16.
   Floats are bit patterns; only finiteness is looked at.
   */
  datatype Codec = Codec(
    widen: nat -> nat,
    narrow: nat -> nat,
    fitsFloat32: nat -> bool,
    floatOfInt: int -> nat,
    base64: seq<Byte> -> Text,
    unbase64: Text -> Option<seq<Byte>>,
    utf16: Text -> seq<nat>,
    fromUtf16: seq<nat> -> Option<Text>,
    isUtf8: seq<Byte> -> bool)
  {
    ghost predicate Lawful() {
      && (forall b: nat :: b < 0x1_0000_0000 ==>
            && widen(b) < 0x1_0000_0000_0000_0000
            && (Finite64(widen(b)) <==> Finite32(b))
            && (Finite32(b) ==> narrow(widen(b)) == b && fitsFloat32(widen(b))))
      && (forall bytes :: unbase64(base64(bytes)) == Some(bytes))
      && (forall units :: fromUtf16(units).Some? ==> utf16(fromUtf16(units).value) == units)
    }
  }

  predicate Finite64(bits: nat) { bits / 0x10_0000_0000_0000 % 0x800 != 0x7FF }
  predicate Finite32(bits: nat) { bits / 0x80_0000 % 0x100 != 0xFF }

  datatype Number = PosInt(u: nat) | NegInt(i: int) | Float(bits: nat)

  datatype Field = Field(key: Text, value: Json)

  datatype Json =
    | Null
    | Bool(b: bool)
    | Num(n: Number)
    | Str(s: Text)
    | Arr(items: seq<Json>)
    | Obj(fields: seq<Field>)

  datatype Entry = Entry(name: Cbor, content: Cbor)

  datatype Cbor =
    | CNull
    | CBool(cb: bool)
    | CText(cs: Text)
    | CFloat(cbits: nat)
    | CInteger(cn: int)
    | CBytes(bytes: seq<Byte>)
    | CArray(citems: seq<Cbor>)
    | CMap(entries: seq<Entry>)
    | CTag(tag: nat, inner: Cbor)
    | COther

  // ------------------------------------------------------------ JSON objects

  predicate HasKey(fields: seq<Field>, key: Text) {
    exists i :: 0 <= i < |fields| && fields[i].key == key
  }

  /** Order-preserving map insertion: an existing key keeps its place. */
  function Insert(fields: seq<Field>, key: Text, value: Json): seq<Field> {
    if fields == [] then [Field(key, value)]
    else if fields[0].key == key then [Field(key, value)] + fields[1..]
    else [fields[0]] + Insert(fields[1..], key, value)
  }

  function Lookup(fields: seq<Field>, key: Text): Option<Json> {
    if fields == [] then None
    else if fields[0].key == key then Some(fields[0].value)
    else Lookup(fields[1..], key)
  }

  lemma {:induction false} InsertNewAppends(fields: seq<Field>, key: Text, value: Json)
    requires !HasKey(fields, key)
    ensures Insert(fields, key, value) == fields + [Field(key, value)]
  {
    if fields != [] {
      assert fields[0].key != key;
      assert !HasKey(fields[1..], key);
      InsertNewAppends(fields[1..], key, value);
    }
  }

  predicate DistinctKeys(fields: seq<Field>) {
    forall i, j :: 0 <= i < j < |fields| ==> fields[i].key != fields[j].key
  }

  /** What `serde_json` guarantees of every value: number ranges, finite floats, distinct keys. */
  ghost predicate WellFormed(v: Json) {
    match v
    case Num(PosInt(u)) => u < 0x1_0000_0000_0000_0000
    case Num(NegInt(i)) => -0x8000_0000_0000_0000 <= i < 0
    case Num(Float(bits)) => Finite64(bits)
    case Arr(items) => forall i :: 0 <= i < |items| ==> WellFormed(items[i])
    case Obj(fields) => DistinctKeys(fields) && forall i :: 0 <= i < |fields| ==> WellFormed(fields[i].value)
    case _ => true
  }

  function IntJson(n: int): Json {
    if n < 0 then Num(NegInt(n)) else Num(PosInt(n))
  }

  /** Non-finite floats become null. */
  function FloatJson(bits: nat): Json {
    if Finite64(bits) then Num(Float(bits)) else Null
  }

  // ------------------------------------------------------------- conversions

  function CborValue(v: Json): Cbor {
    match v
    case Null => CNull
    case Bool(b) => CBool(b)
    case Str(s) => CText(s)
    case Num(PosInt(u)) => CInteger(u)
    case Num(NegInt(i)) => CInteger(i)
    case Num(Float(bits)) => CFloat(bits)
    case Arr(items) => CArray(CborValues(items))
    case Obj(fields) => CMap(CborEntries(fields))
  }

  function CborValues(items: seq<Json>): (r: seq<Cbor>)
    ensures |r| == |items|
  {
    if items == [] then [] else CborValues(items[..|items| - 1]) + [CborValue(items[|items| - 1])]
  }

  function CborEntries(fields: seq<Field>): (r: seq<Entry>)
    ensures |r| == |fields|
  {
    if fields == [] then []
    else
      var last := fields[|fields| - 1];
      CborEntries(fields[..|fields| - 1]) + [Entry(CText(last.key), CborValue(last.value))]
  }

  function JsonValue(codec: Codec, c: Cbor): Option<Json>
    decreases c
  {
    match c
    case CNull => Some(Null)
    case CBool(b) => Some(Bool(b))
    case CText(s) => Some(Str(s))
    case CFloat(bits) => Some(FloatJson(bits))
    case CInteger(n) =>
      if n < -0x8000_0000_0000_0000 || n >= 0x1_0000_0000_0000_0000 then None else Some(IntJson(n))
    case CBytes(bytes) => Some(Str(codec.base64(bytes)))
    case CArray(items) => (match JsonValues(codec, items) case None => None case Some(vs) => Some(Arr(vs)))
    case CMap(entries) => (match JsonFields(codec, entries) case None => None case Some(fs) => Some(Obj(fs)))
    case CTag(tag, inner) => TypedArray(codec, tag, inner)
    case COther => None
  }

  function JsonValues(codec: Codec, items: seq<Cbor>): (r: Option<seq<Json>>)
    ensures r.Some? ==> |r.value| == |items|
    decreases items
  {
    if items == [] then Some([])
    else
      match (JsonValues(codec, items[..|items| - 1]), JsonValue(codec, items[|items| - 1]))
      case (Some(before), Some(last)) => Some(before + [last])
      case (_, _) => None
  }

  /** Object keys must be texts. */
  function JsonField(codec: Codec, entry: Entry): Option<Field>
    decreases entry
  {
    var value := JsonValue(codec, entry.content);
    if entry.name.CText? && value.Some? then Some(Field(entry.name.cs, value.value)) else None
  }

  function JsonFields(codec: Codec, entries: seq<Entry>): Option<seq<Field>>
    decreases entries
  {
    if entries == [] then Some([])
    else
      match (JsonFields(codec, entries[..|entries| - 1]), JsonField(codec, entries[|entries| - 1]))
      case (Some(before), Some(field)) => Some(Insert(before, field.key, field.value))
      case (_, _) => None
  }

  // ------------------------------------------------------------ typed arrays

  /** Element size and reading of the typed-array tags (section 2.1 of RFC 8746). */
  datatype Element = Unsigned(size: nat) | Signed(size: nat) | FloatOf(size: nat)

  function ElementOf(tag: nat): Option<Element> {
    match tag
    case 69 => Some(Unsigned(2))
    case 70 => Some(Unsigned(4))
    case 71 => Some(Unsigned(8))
    case 72 => Some(Signed(1))
    case 77 => Some(Signed(2))
    case 78 => Some(Signed(4))
    case 79 => Some(Signed(8))
    case 85 => Some(FloatOf(4))
    case 86 => Some(FloatOf(8))
    case _ => None
  }

  function TypedArray(codec: Codec, tag: nat, inner: Cbor): Option<Json> {
    if !inner.CBytes? then None
    else if tag == 64 then Some(Str(codec.base64(inner.bytes)))
    else
      match ElementOf(tag)
      case None => None
      case Some(element) =>
        if element.size == 0 || |inner.bytes| % element.size != 0 then None
        else Some(Arr(Unpack(codec, element, inner.bytes)))
  }

  function Unpack(codec: Codec, element: Element, bytes: seq<Byte>): seq<Json>
    decreases |bytes|
  {
    if element.size == 0 || |bytes| < element.size then []
    else
      [ElementJson(codec, element, FromLittleEndian(bytes[..element.size]))]
      + Unpack(codec, element, bytes[element.size..])
  }

  function ElementJson(codec: Codec, element: Element, raw: nat): Json {
    match element
    case Unsigned(_) => Num(PosInt(raw))
    case Signed(size) => IntJson(FromTwosComplement(size, raw))
    case FloatOf(size) => FloatJson(if size == 4 then codec.widen(raw) else raw)
  }

  function Power256(size: nat): nat {
    if size == 0 then 1 else 256 * Power256(size - 1)
  }

  function ToLittleEndian(size: nat, n: nat): (bytes: seq<Byte>)
    ensures |bytes| == size
  {
    if size == 0 then [] else [n % 256] + ToLittleEndian(size - 1, n / 256)
  }

  function FromLittleEndian(bytes: seq<Byte>): nat {
    if bytes == [] then 0 else bytes[0] + 256 * FromLittleEndian(bytes[1..])
  }

  function ToTwosComplement(size: nat, v: int): int {
    if v < 0 then v + Power256(size) else v
  }

  function FromTwosComplement(size: nat, n: nat): int {
    if 2 * n >= Power256(size) then n - Power256(size) else n
  }

  lemma {:induction false} LittleEndianRoundTrip(size: nat, n: nat)
    requires n < Power256(size)
    ensures FromLittleEndian(ToLittleEndian(size, n)) == n
  {
    if size > 0 {
      LittleEndianRoundTrip(size - 1, n / 256);
    }
  }

  lemma TwosComplementRoundTrip(size: nat, v: int)
    requires size > 0 && -(Power256(size) as int) <= 2 * v < Power256(size)
    ensures 0 <= ToTwosComplement(size, v) < Power256(size)
    ensures FromTwosComplement(size, ToTwosComplement(size, v)) == v
  {
  }

  // -------------------------------------------------------------- round trip

  /** Converting any JSON value to CBOR and back is the identity. */
  lemma {:induction false} CborRoundTrip(codec: Codec, v: Json)
    requires WellFormed(v)
    ensures JsonValue(codec, CborValue(v)) == Some(v)
  {
    hide JsonValues, JsonFields, CborValues, CborEntries;
    match v
    case Arr(items) => ItemsRoundTrip(codec, items);
    case Obj(fields) => FieldsRoundTrip(codec, fields);
    case _ =>
  }

  lemma {:induction false} ItemsRoundTrip(codec: Codec, items: seq<Json>)
    requires forall i :: 0 <= i < |items| ==> WellFormed(items[i])
    ensures JsonValues(codec, CborValues(items)) == Some(items)
  {
    if items != [] {
      var last := |items| - 1;
      ItemsRoundTrip(codec, items[..last]);
      CborRoundTrip(codec, items[last]);
      assert CborValues(items)[..last] == CborValues(items[..last]);
      assert items[..last] + [items[last]] == items;
    }
  }

  lemma {:induction false} FieldsRoundTrip(codec: Codec, fields: seq<Field>)
    requires DistinctKeys(fields) && forall i :: 0 <= i < |fields| ==> WellFormed(fields[i].value)
    ensures JsonFields(codec, CborEntries(fields)) == Some(fields)
  {
    if fields != [] {
      var last := |fields| - 1;
      FieldsRoundTrip(codec, fields[..last]);
      CborRoundTrip(codec, fields[last].value);
      assert CborEntries(fields)[..last] == CborEntries(fields[..last]);
      assert !HasKey(fields[..last], fields[last].key);
      InsertNewAppends(fields[..last], fields[last].key, fields[last].value);
      assert fields[..last] + [fields[last]] == fields;
    }
  }

  /** No typed arrays, byte strings or other things that JSON does not have. */
  predicate IsPlain(c: Cbor)
    decreases c
  {
    match c
    case CArray(items) => forall i :: 0 <= i < |items| ==> IsPlain(items[i])
    case CMap(entries) => forall i :: 0 <= i < |entries| ==> IsPlainEntry(entries[i])
    case CBytes(_) => false
    case CTag(_, _) => false
    case COther => false
    case _ => true
  }

  predicate IsPlainEntry(e: Entry)
    decreases e
  {
    e.name.CText? && IsPlain(e.content)
  }

  /** What JSON becomes in CBOR is plain. */
  lemma {:induction false} CborIsPlain(v: Json)
    ensures IsPlain(CborValue(v))
    decreases v
  {
    match v
    case Arr(items) => CborItemsArePlain(items);
    case Obj(fields) => CborEntriesArePlain(fields);
    case _ =>
  }

  lemma {:induction false} CborItemsArePlain(items: seq<Json>)
    ensures forall c :: c in CborValues(items) ==> IsPlain(c)
    decreases items
  {
    hide IsPlain, CborValue;
    if items != [] {
      CborItemsArePlain(items[..|items| - 1]);
      CborIsPlain(items[|items| - 1]);
    }
  }

  lemma {:induction false} CborEntriesArePlain(fields: seq<Field>)
    ensures forall e :: e in CborEntries(fields) ==> IsPlainEntry(e)
    decreases fields
  {
    hide IsPlain, CborValue;
    if fields != [] {
      CborEntriesArePlain(fields[..|fields| - 1]);
      CborIsPlain(fields[|fields| - 1].value);
    }
  }

  // ---------------------------------------------------------- what is decoded

  /** Integers of 64 bits, texts as keys, and whole typed arrays of the known tags. */
  predicate Decodable(c: Cbor)
    decreases c
  {
    match c
    case CInteger(n) => -0x8000_0000_0000_0000 <= n < 0x1_0000_0000_0000_0000
    case CArray(items) => forall i :: 0 <= i < |items| ==> Decodable(items[i])
    case CMap(entries) => forall i :: 0 <= i < |entries| ==> DecodableEntry(entries[i])
    case CTag(tag, inner) =>
      inner.CBytes? && (tag == 64 || (ElementOf(tag).Some? && |inner.bytes| % ElementOf(tag).value.size == 0))
    case COther => false
    case _ => true
  }

  predicate DecodableEntry(e: Entry)
    decreases e
  {
    e.name.CText? && Decodable(e.content)
  }

  /** Exactly what is decodable is decoded. */
  lemma {:induction false} DecodesIff(codec: Codec, c: Cbor)
    ensures JsonValue(codec, c).Some? <==> Decodable(c)
    decreases c
  {
    match c
    case CArray(items) => ItemsDecodeIff(codec, items);
    case CMap(entries) => EntriesDecodeIff(codec, entries);
    case _ =>
  }

  lemma {:induction false} ItemsDecodeIff(codec: Codec, items: seq<Cbor>)
    ensures JsonValues(codec, items).Some? <==> forall i :: 0 <= i < |items| ==> Decodable(items[i])
    decreases items
  {
    hide Decodable, JsonValue;
    if items != [] {
      ItemsDecodeIff(codec, items[..|items| - 1]);
      DecodesIff(codec, items[|items| - 1]);
    }
  }

  lemma {:induction false} EntriesDecodeIff(codec: Codec, entries: seq<Entry>)
    ensures JsonFields(codec, entries).Some? <==> forall i :: 0 <= i < |entries| ==> DecodableEntry(entries[i])
    decreases entries
  {
    hide Decodable, JsonValue, Insert;
    if entries != [] {
      EntriesDecodeIff(codec, entries[..|entries| - 1]);
      EntryDecodesIff(codec, entries[|entries| - 1]);
    }
  }

  lemma {:induction false} EntryDecodesIff(codec: Codec, e: Entry)
    ensures JsonField(codec, e).Some? <==> DecodableEntry(e)
    decreases e
  {
    DecodesIff(codec, e.content);
  }
}
