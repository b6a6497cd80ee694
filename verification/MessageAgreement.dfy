/** When the CBOR form of a message decodes to its JSON form (src/ros/message.rs, src/wire.rs). */
module MessageAgreement {
  import opened Basics
  import opened Utf8
  import opened Values
  import opened Messages
  import opened MessageRoundTrip

  /** No octet sequence has an element of 128 or more, at any depth. */
  ghost predicate LowObject(schema: Schema, mem: Mem)
    decreases schema, 0
  {
    mem.Struct? && |mem.fields| == |schema.members| ==> LowMembers(schema.members, mem.fields)
  }

  ghost predicate LowMembers(members: seq<Member>, mems: seq<Mem>)
    requires |mems| == |members|
    decreases members, 1
  {
    forall i :: 0 <= i < |members| ==> LowMember(members[i], mems[i])
  }

  ghost predicate LowMember(member: Member, mem: Mem)
    decreases member, 0
  {
    if member.shape.Single? || !mem.Elements? then LowScalar(member.kind, mem)
    else if member.kind.Octet? && member.shape.Sequence? then
      forall i :: 0 <= i < |mem.items| ==> LowOctet(mem.items[i])
    else LowElements(member.kind, mem.items)
  }

  ghost predicate LowElements(kind: Kind, items: seq<Mem>)
    decreases kind, 1
  {
    forall i :: 0 <= i < |items| ==> LowScalar(kind, items[i])
  }

  ghost predicate LowScalar(kind: Kind, mem: Mem)
    decreases kind, 0
  {
    kind.Nested? ==> LowObject(kind.schema, mem)
  }

  predicate LowOctet(mem: Mem) { mem.Int? ==> mem.v < 128 }

  /** The value read decodes, and to the same JSON exactly under `low`. */
  ghost predicate AgreesWhen(codec: Codec, j: Json, c: Cbor, low: bool) {
    JsonValue(codec, c).Some? && (JsonValue(codec, c).value == j <==> low)
  }

  ghost predicate ScalarAgrees(codec: Codec, kind: Kind, mem: Mem) {
    && ScalarReads(codec, kind, mem)
    && var (j, c) := ReadScalar(codec, kind, mem).value; AgreesWhen(codec, j, c, LowScalar(kind, mem))
  }

  ghost predicate FieldAgrees(codec: Codec, member: Member, mem: Mem) {
    && Reads(codec, member, mem)
    && var (j, c) := ReadField(codec, member, mem).value; AgreesWhen(codec, j, c, LowMember(member, mem))
  }

  lemma PlainScalarAgrees(codec: Codec, kind: Kind, bound: nat, mem: Mem)
    requires TypedScalar(codec, kind, bound, mem) && !kind.Nested?
    ensures ScalarAgrees(codec, kind, mem)
  {
    hide FromLittleEndian, ToLittleEndian;
    Powers();
  }

  lemma {:induction false} ScalarAgreement(codec: Codec, kind: Kind, bound: nat, mem: Mem)
    requires codec.Lawful() && WellFormedKind(kind) && TypedScalar(codec, kind, bound, mem)
    ensures ScalarAgrees(codec, kind, mem)
    decreases kind, 0
  {
    if kind.Nested? {
      ObjectAgreement(codec, kind.schema, mem);
    } else {
      PlainScalarAgrees(codec, kind, bound, mem);
    }
  }

  // ------------------------------------------------------------ plain arrays

  lemma {:induction false} ValuesDecode(codec: Codec, cbors: seq<Cbor>)
    requires forall i :: 0 <= i < |cbors| ==> JsonValue(codec, cbors[i]).Some?
    ensures JsonValues(codec, cbors).Some?
    ensures forall i :: 0 <= i < |cbors| ==> Some(JsonValues(codec, cbors).value[i]) == JsonValue(codec, cbors[i])
  {
    if cbors != [] {
      ValuesDecode(codec, cbors[..|cbors| - 1]);
    }
  }

  lemma {:induction false} ArrayDecodes(codec: Codec, cbors: seq<Cbor>)
    requires JsonValues(codec, cbors).Some?
    ensures JsonValue(codec, CArray(cbors)) == Some(Arr(JsonValues(codec, cbors).value))
    ensures |JsonValues(codec, cbors).value| == |cbors|
  {
    DecodedLength(codec, cbors);
  }

  lemma {:induction false} DecodedLength(codec: Codec, cbors: seq<Cbor>)
    requires JsonValues(codec, cbors).Some?
    ensures |JsonValues(codec, cbors).value| == |cbors|
  {
    if cbors != [] { DecodedLength(codec, cbors[..|cbors| - 1]); }
  }

  lemma ArrayAgrees(codec: Codec, kind: Kind, items: seq<Mem>, jsons: seq<Json>, cbors: seq<Cbor>)
    requires |items| == |jsons| == |cbors|
    requires forall i :: 0 <= i < |items| ==> ScalarReadAs(codec, kind, items[i], jsons[i], cbors[i])
    requires forall i :: 0 <= i < |items| ==> ScalarAgrees(codec, kind, items[i])
    ensures AgreesWhen(codec, Arr(jsons), CArray(cbors), LowElements(kind, items))
  {
    hide ReadScalar, LowScalar, JsonValue, JsonValues;
    forall i | 0 <= i < |items|
      ensures AgreesWhen(codec, jsons[i], cbors[i], LowScalar(kind, items[i]))
    {
      assert ScalarReadAs(codec, kind, items[i], jsons[i], cbors[i]) && ScalarAgrees(codec, kind, items[i]);
    }
    ValuesDecode(codec, cbors);
    ArrayDecodes(codec, cbors);
    var decoded := JsonValues(codec, cbors).value;
    assert |decoded| == |cbors|;
    assert forall i :: 0 <= i < |items| ==> (decoded[i] == jsons[i] <==> LowScalar(kind, items[i]));
    if decoded != jsons {
      var i :| 0 <= i < |items| && decoded[i] != jsons[i];
      assert !LowScalar(kind, items[i]);
    }
  }

  // ------------------------------------------------------------ typed arrays

  /** Packing an element and reading it back under its tag, except that tag 72 reads octets as signed. */
  lemma PackedElement(codec: Codec, kind: Kind, bound: nat, mem: Mem)
    requires codec.Lawful() && TypedScalar(codec, kind, bound, mem) && TagOf(kind).Some?
    ensures ScalarReads(codec, kind, mem)
    ensures var element := ElementOf(TagOf(kind).value).value;
      var j := ElementJson(codec, element, FromLittleEndian(Pack(kind, mem)));
      && |Pack(kind, mem)| == element.size > 0
      && (j == ReadScalar(codec, kind, mem).value.0 <==> (kind.Octet? ==> LowOctet(mem)))
  {
    hide ToLittleEndian, FromLittleEndian, ToTwosComplement, FromTwosComplement, Power256;
    if mem.Int? {
      PackedInteger(codec, kind, bound, mem);
    } else if mem.F32? {
      SinglesAreWide();
      LittleEndianRoundTrip(4, mem.bits32);
    } else {
      SinglesAreWide();
      LittleEndianRoundTrip(8, mem.bits64);
    }
  }

  lemma SinglesAreWide()
    ensures Power256(4) == 0x1_0000_0000 && Power256(8) == 0x1_0000_0000_0000_0000
  {
    Powers();
  }

  lemma PackedInteger(codec: Codec, kind: Kind, bound: nat, mem: Mem)
    requires codec.Lawful() && TypedScalar(codec, kind, bound, mem) && TagOf(kind).Some? && mem.Int?
    ensures ScalarReads(codec, kind, mem)
    ensures var element := ElementOf(TagOf(kind).value).value;
      var j := ElementJson(codec, element, FromLittleEndian(Pack(kind, mem)));
      && |Pack(kind, mem)| == element.size > 0
      && (j == ReadScalar(codec, kind, mem).value.0 <==> (kind.Octet? ==> LowOctet(mem)))
  {
    Powers();
    var size := IntegerOf(kind).value.size;
    TwosComplementOrPlain(size, IntegerOf(kind).value, mem.v);
    LittleEndianRoundTrip(size, ToTwosComplement(size, mem.v));
  }

  lemma TwosComplementOrPlain(size: nat, element: Element, v: int)
    requires size > 0 && element.size == size && InRange(element, v)
    ensures 0 <= ToTwosComplement(size, v) < Power256(size)
    ensures element.Signed? ==> FromTwosComplement(size, ToTwosComplement(size, v)) == v
    ensures element.Unsigned? ==> ToTwosComplement(size, v) == v
  {
    if element.Signed? { TwosComplementRoundTrip(size, v); }
  }

  ghost predicate Unpacked(codec: Codec, kind: Kind, mem: Mem, j: Json) {
    TagOf(kind).Some? && ElementOf(TagOf(kind).value).Some? &&
    j == ElementJson(codec, ElementOf(TagOf(kind).value).value, FromLittleEndian(Pack(kind, mem)))
  }

  ghost predicate UnpackedAll(codec: Codec, kind: Kind, items: seq<Mem>, jsons: seq<Json>) {
    |jsons| == |items| && forall i :: 0 <= i < |items| ==> Unpacked(codec, kind, items[i], jsons[i])
  }

  lemma UnpackedCons(codec: Codec, kind: Kind, items: seq<Mem>, jsons: seq<Json>, j: Json)
    requires items != [] && Unpacked(codec, kind, items[0], j) && UnpackedAll(codec, kind, items[1..], jsons)
    ensures UnpackedAll(codec, kind, items, [j] + jsons)
  {
    forall i | 0 <= i < |items|
      ensures Unpacked(codec, kind, items[i], ([j] + jsons)[i])
    {
      if i > 0 { assert items[i] == items[1..][i - 1]; }
    }
  }

  /** The packed bytes are whole elements, and unpack to one value per element. */
  lemma {:induction false} UnpackPacked(codec: Codec, kind: Kind, bound: nat, items: seq<Mem>, element: Element)
    requires codec.Lawful() && TypedElements(codec, kind, bound, items)
    requires TagOf(kind).Some? && ElementOf(TagOf(kind).value) == Some(element)
    ensures element.size > 0 && |PackAll(kind, items)| % element.size == 0
    ensures UnpackedAll(codec, kind, items, Unpack(codec, element, PackAll(kind, items)))
  {
    hide TypedScalar, Pack, Unpack, Codec.Lawful, ReadScalar, LowOctet, ElementJson, FromLittleEndian,
      ElementOf, TagOf,
         UnpackedAll;
    ElementSizes(TagOf(kind).value);
    if items == [] {
      UnpackNothing(codec, kind, element);
    } else {
      assert TypedScalar(codec, kind, bound, items[0]);
      PackedElement(codec, kind, bound, items[0]);
      UnpackPacked(codec, kind, bound, items[1..], element);
      var first, rest := Pack(kind, items[0]), PackAll(kind, items[1..]);
      UnpackCons(codec, element, first, rest);
      OneMoreElement(element.size, |rest|);
      UnpackedCons(codec, kind, items, Unpack(codec, element, rest),
                   ElementJson(codec, element, FromLittleEndian(first)));
    }
  }

  lemma ElementSizes(tag: nat)
    ensures ElementOf(tag).Some? ==> ElementOf(tag).value.size in {1, 2, 4, 8}
  {
  }

  lemma UnpackNothing(codec: Codec, kind: Kind, element: Element)
    ensures UnpackedAll(codec, kind, [], Unpack(codec, element, []))
  {
  }

  lemma UnpackCons(codec: Codec, element: Element, first: seq<Byte>, rest: seq<Byte>)
    requires |first| == element.size > 0
    ensures Unpack(codec, element, first + rest)
         == [ElementJson(codec, element, FromLittleEndian(first))] + Unpack(codec, element, rest)
  {
    assert (first + rest)[..element.size] == first && (first + rest)[element.size..] == rest;
  }

  lemma OneMoreElement(size: nat, n: nat)
    requires size in {1, 2, 4, 8} && n % size == 0
    ensures (size + n) % size == 0
  {
  }

  lemma ElementAgrees(codec: Codec, kind: Kind, bound: nat, mem: Mem, j: Json, c: Cbor, decoded: Json)
    requires codec.Lawful() && TypedScalar(codec, kind, bound, mem)
    requires ScalarReadAs(codec, kind, mem, j, c) && Unpacked(codec, kind, mem, decoded)
    ensures decoded == j <==> (kind.Octet? ==> LowOctet(mem))
  {
    PackedElement(codec, kind, bound, mem);
  }

  lemma ElementsAgree(codec: Codec, kind: Kind, bound: nat, items: seq<Mem>, jsons: seq<Json>, cbors: seq<Cbor>,
                      decoded: seq<Json>)
    requires codec.Lawful() && TypedElements(codec, kind, bound, items)
    requires |items| == |jsons| == |cbors|
    requires forall i :: 0 <= i < |items| ==> ScalarReadAs(codec, kind, items[i], jsons[i], cbors[i])
    requires UnpackedAll(codec, kind, items, decoded)
    ensures decoded == jsons <==> (kind.Octet? ==> forall i :: 0 <= i < |items| ==> LowOctet(items[i]))
  {
    forall i | 0 <= i < |items|
      ensures decoded[i] == jsons[i] <==> (kind.Octet? ==> LowOctet(items[i]))
    {
      ElementAgrees(codec, kind, bound, items[i], jsons[i], cbors[i], decoded[i]);
    }
    if decoded != jsons {
      var i :| 0 <= i < |items| && decoded[i] != jsons[i];
    }
  }

  lemma TypedArrayUnpacks(codec: Codec, tag: nat, element: Element, bytes: seq<Byte>)
    requires tag != 64 && ElementOf(tag) == Some(element) && element.size > 0 && |bytes| % element.size == 0
    ensures JsonValue(codec, CTag(tag, CBytes(bytes))) == Some(Arr(Unpack(codec, element, bytes)))
  {
  }

  lemma NoBytesTag(kind: Kind)
    ensures TagOf(kind).Some? ==> TagOf(kind).value != 64
  {
  }

  lemma TypedArrayAgrees(codec: Codec, kind: Kind, bound: nat, items: seq<Mem>, jsons: seq<Json>, cbors: seq<Cbor>)
    requires codec.Lawful() && TypedElements(codec, kind, bound, items)
    requires TagOf(kind).Some? && ElementOf(TagOf(kind).value).Some?
    requires |items| == |jsons| == |cbors|
    requires forall i :: 0 <= i < |items| ==> ScalarReadAs(codec, kind, items[i], jsons[i], cbors[i])
    ensures AgreesWhen(codec, Arr(jsons), CTag(TagOf(kind).value, CBytes(PackAll(kind, items))),
                       kind.Octet? ==> forall i :: 0 <= i < |items| ==> LowOctet(items[i]))
  {
    hide TypedScalar, Pack, PackAll, Unpack, UnpackedAll, ScalarReadAs, Codec.Lawful, JsonValue, LowOctet,
      ElementOf, TagOf;
    NoBytesTag(kind);
    var element := ElementOf(TagOf(kind).value).value;
    UnpackPacked(codec, kind, bound, items, element);
    ElementsAgree(codec, kind, bound, items, jsons, cbors, Unpack(codec, element, PackAll(kind, items)));
    TypedArrayUnpacks(codec, TagOf(kind).value, element, PackAll(kind, items));
  }

  // -------------------------------------------------------- fields, objects

  lemma {:induction false} FieldAgreement(codec: Codec, member: Member, mem: Mem)
    requires codec.Lawful() && WellFormedMember(member) && TypedMember(codec, member, mem)
    ensures FieldAgrees(codec, member, mem)
    decreases member, 0
  {
    if member.shape.Single? {
      ScalarAgreement(codec, member.kind, member.stringBound, mem);
    } else {
      var kind, items := member.kind, mem.items;
      forall i | 0 <= i < |items|
        ensures ScalarReads(codec, kind, items[i]) && ScalarAgrees(codec, kind, items[i])
      {
        ScalarAgreement(codec, kind, member.stringBound, items[i]);
      }
      ReadElementsShape(codec, kind, items);
      ArrayFieldAgrees(codec, member, mem);
    }
  }

  /** Which of the three CBOR forms an array field takes. */
  lemma ArrayForm(codec: Codec, member: Member, mem: Mem)
    requires !member.shape.Single? && mem.Elements? && ReadElements(codec, member.kind, mem.items).Some?
    ensures Reads(codec, member, mem)
    ensures var (jsons, cbors) := ReadElements(codec, member.kind, mem.items).value;
      var (j, c) := ReadField(codec, member, mem).value;
      var bytes := PackAll(member.kind, mem.items);
      if IsBinary(member.kind) then j == Str(codec.base64(bytes)) && c == CBytes(bytes)
      else
        && j == Arr(jsons)
        && c == if member.shape.Sequence? && TagOf(member.kind).Some?
                then CTag(TagOf(member.kind).value, CBytes(bytes)) else CArray(cbors)
  {
  }

  lemma FlatElementsAreLow(kind: Kind, items: seq<Mem>)
    requires !kind.Nested?
    ensures LowElements(kind, items)
  {
  }

  lemma ArrayFormAgrees(codec: Codec, member: Member, items: seq<Mem>, jsons: seq<Json>, cbors: seq<Cbor>, c: Cbor)
    requires codec.Lawful() && TypedElements(codec, member.kind, member.stringBound, items)
    requires !member.shape.Single? && !IsBinary(member.kind)
    requires |items| == |jsons| == |cbors|
    requires forall i :: 0 <= i < |items| ==> ScalarReadAs(codec, member.kind, items[i], jsons[i], cbors[i])
    requires forall i :: 0 <= i < |items| ==> ScalarAgrees(codec, member.kind, items[i])
    requires c == if member.shape.Sequence? && TagOf(member.kind).Some?
                  then CTag(TagOf(member.kind).value, CBytes(PackAll(member.kind, items))) else CArray(cbors)
    ensures AgreesWhen(codec, Arr(jsons), c, LowMember(member, Elements(items)))
  {
    hide Codec.Lawful, TypedScalar, ScalarReadAs, ScalarAgrees, AgreesWhen, LowElements, PackAll;
    if !member.kind.Nested? { FlatElementsAreLow(member.kind, items); }
    if member.shape.Sequence? && TagOf(member.kind).Some? {
      TypedArrayAgrees(codec, member.kind, member.stringBound, items, jsons, cbors);
    } else {
      ArrayAgrees(codec, member.kind, items, jsons, cbors);
    }
  }

  lemma ArrayFieldAgrees(codec: Codec, member: Member, mem: Mem)
    requires codec.Lawful() && TypedMember(codec, member, mem) && !member.shape.Single?
    requires ElementsRead(codec, member.kind, mem.items)
    requires forall i :: 0 <= i < |mem.items| ==> ScalarAgrees(codec, member.kind, mem.items[i])
    ensures FieldAgrees(codec, member, mem)
  {
    ReadElementsShape(codec, member.kind, mem.items);
    ArrayForm(codec, member, mem);
    var (jsons, cbors) := ReadElements(codec, member.kind, mem.items).value;
    if IsBinary(member.kind) {
      FlatElementsAreLow(member.kind, mem.items);
    } else {
      ArrayFormAgrees(codec, member, mem.items, jsons, cbors, ReadField(codec, member, mem).value.1);
    }
  }

  ghost predicate DecodesTo(codec: Codec, entry: Entry, field: Field) {
    entry.name == CText(field.key) && JsonValue(codec, entry.content) == Some(field.value)
  }

  lemma {:induction false} FieldsDecode(codec: Codec, entries: seq<Entry>, fields: seq<Field>)
    requires |entries| == |fields| && DistinctKeys(fields)
    requires forall i :: 0 <= i < |entries| ==> DecodesTo(codec, entries[i], fields[i])
    ensures JsonFields(codec, entries) == Some(fields)
  {
    if entries != [] {
      var last := |entries| - 1;
      FieldsDecode(codec, entries[..last], fields[..last]);
      assert DecodesTo(codec, entries[last], fields[last]);
      assert !HasKey(fields[..last], fields[last].key);
      InsertNewAppends(fields[..last], fields[last].key, fields[last].value);
      assert fields[..last] + [fields[last]] == fields;
    }
  }

  /**
   The CBOR a message reads as decodes to the JSON it reads as, if and only if no octet
   sequence anywhere in it has an element of 128 or more (tag 72 is signed).
   */
  lemma {:induction false} ObjectAgreement(codec: Codec, schema: Schema, mem: Mem)
    requires codec.Lawful() && WellFormedSchema(schema) && TypedObject(codec, schema, mem)
    ensures ReadObject(codec, schema, mem).Some?
    ensures var (j, c) := ReadObject(codec, schema, mem).value;
      JsonValue(codec, c).Some? && (JsonValue(codec, c) == Some(j) <==> LowObject(schema, mem))
    decreases schema, 0
  {
    var members, mems := schema.members, mem.fields;
    forall i | 0 <= i < |members|
      ensures FieldAgrees(codec, members[i], mems[i]) && Reads(codec, members[i], mems[i])
    {
      FieldAgreement(codec, members[i], mems[i]);
    }
    MembersAgree(codec, members, mems);
  }

  function DecodedField(codec: Codec, field: Field, entry: Entry): Field {
    match JsonValue(codec, entry.content)
    case Some(value) => Field(field.key, value)
    case None => field
  }

  lemma MemberDecodes(codec: Codec, member: Member, mem: Mem, field: Field, entry: Entry)
    requires MemberReadAs(codec, member, mem, field, entry) && FieldAgrees(codec, member, mem)
    ensures DecodesTo(codec, entry, DecodedField(codec, field, entry))
    ensures DecodedField(codec, field, entry) == field <==> LowMember(member, mem)
  {
  }

  lemma MembersAgree(codec: Codec, members: seq<Member>, mems: seq<Mem>)
    requires |members| == |mems| && DistinctNames(members)
    requires forall i :: 0 <= i < |members| ==>
      Reads(codec, members[i], mems[i]) && FieldAgrees(codec, members[i], mems[i])
    ensures ReadMembers(codec, members, mems).Some?
    ensures var (fields, entries) := ReadMembers(codec, members, mems).value;
      AgreesWhen(codec, Obj(fields), CMap(entries), LowMembers(members, mems))
  {
    ReadMembersShape(codec, members, mems);
    var (fields, entries) := ReadMembers(codec, members, mems).value;
    EntriesAgree(codec, members, mems, fields, entries);
  }

  lemma EntriesAgree(codec: Codec, members: seq<Member>, mems: seq<Mem>, fields: seq<Field>, entries: seq<Entry>)
    requires |members| == |mems| == |fields| == |entries| && DistinctNames(members)
    requires forall i :: 0 <= i < |members| ==>
                           && MemberReadAs(codec, members[i], mems[i], fields[i], entries[i])
                           && FieldAgrees(codec, members[i], mems[i])
    ensures AgreesWhen(codec, Obj(fields), CMap(entries), LowMembers(members, mems))
  {
    var decoded := seq(|fields|, i requires 0 <= i < |fields| => DecodedField(codec, fields[i], entries[i]));
    forall i | 0 <= i < |fields|
      ensures decoded[i].key == members[i].name
      ensures DecodesTo(codec, entries[i], decoded[i])
      ensures decoded[i] == fields[i] <==> LowMember(members[i], mems[i])
    {
      MemberDecodes(codec, members[i], mems[i], fields[i], entries[i]);
    }
    FieldsDecode(codec, entries, decoded);
    if decoded != fields {
      var i :| 0 <= i < |fields| && decoded[i] != fields[i];
      assert !LowMember(members[i], mems[i]);
    }
  }

  /** A concrete disagreement: one octet of 200 in a sequence reads as 200 in JSON and -56 from CBOR. */
  lemma HighOctetDisagrees(codec: Codec)
    ensures var member := Member([100], Octet, Sequence(0), 0, Int(0));
      var (j, c) := ReadField(codec, member, Elements([Int(200)])).value;
      && j == Arr([Num(PosInt(200))])
      && JsonValue(codec, c) == Some(Arr([Num(NegInt(-56))]))
  {
    Powers();
    var items := [Int(200)];
    var bytes := PackAll(Octet, items);
    assert items[1..] == [] && Pack(Octet, items[0]) == ToLittleEndian(1, 200) == [200] + ToLittleEndian(0, 0);
    assert bytes == [200];
    assert bytes[..1] == [200] && bytes[1..] == [];
    assert FromLittleEndian([200]) == 200 + 256 * FromLittleEndian([]);
    assert Unpack(codec, Signed(1), bytes) == [IntJson(-56)] + Unpack(codec, Signed(1), []);
    assert items[..|items| - 1] == [] && ReadElements(codec, Octet, []) == Some(([], []));
    assert ReadScalar(codec, Octet, items[|items| - 1]) == Some((IntJson(200), CborValue(IntJson(200))));
    ReadElementsSnoc(codec, Octet, items);
    TypedArrayUnpacks(codec, 72, Signed(1), bytes);
    assert Unpack(codec, Signed(1), bytes) == [IntJson(-56)];
    assert ReadElements(codec, Octet, items).value.0 == [IntJson(200)];
    ArrayForm(codec, Member([100], Octet, Sequence(0), 0, Int(0)), Elements(items));
  }
}
