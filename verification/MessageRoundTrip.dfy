/** Reading and writing are inverse, and the two output formats agree (src/ros/message.rs). */
module MessageRoundTrip {
  import opened Basics
  import opened Utf8
  import opened Values
  import opened Messages

  /** Distinct member names, fixed arrays with a size, and the standard Time and Header types. */
  ghost predicate WellFormedSchema(schema: Schema)
    decreases schema
  {
    && DistinctNames(schema.members)
    && (schema.typeName == TIME_TYPE ==>
          !HasName(schema.members, SECS) && !HasName(schema.members, NSECS) && !HasName(schema.members, HEADER))
    && (schema.typeName == HEADER_TYPE ==> HasName(schema.members, STAMP))
    && forall i :: 0 <= i < |schema.members| ==> WellFormedMember(schema.members[i])
  }

  ghost predicate WellFormedMember(member: Member)
    decreases member
  {
    && (member.shape.Fixed? ==> member.shape.size > 0)
    && WellFormedKind(member.kind)
  }

  ghost predicate WellFormedKind(kind: Kind)
    decreases kind
  {
    kind.Nested? ==> WellFormedSchema(kind.schema)
  }

  ghost predicate DistinctNames(members: seq<Member>) {
    forall i, j :: 0 <= i < j < |members| ==> members[i].name != members[j].name
  }

  ghost predicate HasName(members: seq<Member>, name: Text) {
    exists k :: 0 <= k < |members| && members[k].name == name
  }

  /** Memory that has the schema's types, bounds and valid strings. */
  ghost predicate TypedObject(codec: Codec, schema: Schema, mem: Mem)
    decreases schema, 0
  {
    mem.Struct? && |mem.fields| == |schema.members| && TypedMembers(codec, schema.members, mem.fields)
  }

  ghost predicate TypedMembers(codec: Codec, members: seq<Member>, mems: seq<Mem>)
    requires |mems| == |members|
    decreases members, 1
  {
    forall i :: 0 <= i < |members| ==> TypedMember(codec, members[i], mems[i])
  }

  ghost predicate TypedMember(codec: Codec, member: Member, mem: Mem)
    decreases member, 0
  {
    if member.shape.Single? then TypedScalar(codec, member.kind, member.stringBound, mem)
    else
      && mem.Elements?
      && (member.shape.Fixed? ==> |mem.items| == member.shape.size)
      && (member.shape.Sequence? && member.shape.bound != 0 ==> |mem.items| <= member.shape.bound)
      && TypedElements(codec, member.kind, member.stringBound, mem.items)
  }

  ghost predicate TypedElements(codec: Codec, kind: Kind, bound: nat, items: seq<Mem>)
    decreases kind, 1
  {
    forall i :: 0 <= i < |items| ==> TypedScalar(codec, kind, bound, items[i])
  }

  ghost predicate TypedScalar(codec: Codec, kind: Kind, bound: nat, mem: Mem)
    decreases kind, 0
  {
    if IntegerOf(kind).Some? then mem.Int? && InRange(IntegerOf(kind).value, mem.v)
    else
      match kind
      case Float32 => mem.F32? && mem.bits32 < 0x1_0000_0000
      case Float64 => mem.F64? && mem.bits64 < 0x1_0000_0000_0000_0000
      case Boolean => mem.Flag?
      case StringKind => mem.Chars? && codec.isUtf8(mem.chars) && (bound == 0 || |mem.chars| <= bound)
      case WStringKind =>
        mem.Units? && codec.fromUtf16(mem.units).Some? && (bound == 0 || |mem.units| <= bound)
      case Nested(schema) => TypedObject(codec, schema, mem)
      case _ => false
  }

  /** No NaN or infinity anywhere. */
  ghost predicate Finite(mem: Mem) {
    match mem
    case F32(bits) => Finite32(bits)
    case F64(bits) => Finite64(bits)
    case Struct(fields) => forall i :: 0 <= i < |fields| ==> Finite(fields[i])
    case Elements(items) => forall i :: 0 <= i < |items| ==> Finite(items[i])
    case _ => true
  }

  // -------------------------------------------------------- shape of a read

  lemma Powers()
    ensures Power256(1) == 0x100 && Power256(2) == 0x1_0000
    ensures Power256(4) == 0x1_0000_0000 && Power256(8) == 0x1_0000_0000_0000_0000
  {
    assert Power256(3) == 256 * Power256(2);
    assert Power256(5) == 256 * Power256(4);
    assert Power256(6) == 256 * Power256(5);
    assert Power256(7) == 256 * Power256(6);
  }

  /** Typed memory always reads. */
  ghost predicate Reads(codec: Codec, member: Member, mem: Mem) {
    ReadField(codec, member, mem).Some?
  }

  /** What one member contributes to the JSON object and the CBOR map. */
  ghost predicate MemberReadAs(codec: Codec, member: Member, mem: Mem, field: Field, entry: Entry) {
    && field.key == member.name
    && entry.name == CText(member.name)
    && ReadField(codec, member, mem) == Some((field.value, entry.content))
  }

  lemma {:induction false} LookupAt(fields: seq<Field>, i: nat)
    requires DistinctKeys(fields) && i < |fields|
    ensures Lookup(fields, fields[i].key) == Some(fields[i].value)
  {
    if i > 0 {
      assert fields[0].key != fields[i].key;
      LookupAt(fields[1..], i - 1);
    }
  }

  lemma {:induction false} LookupAbsent(fields: seq<Field>, key: Text)
    requires !HasKey(fields, key)
    ensures Lookup(fields, key) == None
  {
    if fields != [] {
      assert fields[0].key != key && !HasKey(fields[1..], key);
      LookupAbsent(fields[1..], key);
    }
  }

  lemma ReadMembersLast(codec: Codec, members: seq<Member>, mems: seq<Mem>)
    requires |mems| == |members| > 0 && Reads(codec, members[|members| - 1], mems[|members| - 1])
    requires ReadMembers(codec, members[..|members| - 1], mems[..|members| - 1]).Some?
    requires !HasKey(ReadMembers(codec, members[..|members| - 1], mems[..|members| - 1]).value.0,
                     members[|members| - 1].name)
    ensures var last := |members| - 1;
      var (fields, entries) := ReadMembers(codec, members[..last], mems[..last]).value;
      var (j, c) := ReadField(codec, members[last], mems[last]).value;
      ReadMembers(codec, members, mems)
      == Some((fields + [Field(members[last].name, j)], entries + [Entry(CText(members[last].name), c)]))
  {
    hide ReadField, HasKey, Insert;
    var last := |members| - 1;
    InsertNewAppends(ReadMembers(codec, members[..last], mems[..last]).value.0, members[last].name,
                     ReadField(codec, members[last], mems[last]).value.0);
  }

  lemma NewKey(members: seq<Member>, fields: seq<Field>)
    requires members != [] && DistinctNames(members) && |fields| == |members| - 1
    requires forall i :: 0 <= i < |fields| ==> fields[i].key == members[i].name
    ensures !HasKey(fields, members[|members| - 1].name)
  {
  }

  /** An object reads as its members, one field and one entry each, in declaration order. */
  lemma {:induction false} ReadMembersShape(codec: Codec, members: seq<Member>, mems: seq<Mem>)
    requires |mems| == |members| && DistinctNames(members)
    requires forall i :: 0 <= i < |members| ==> Reads(codec, members[i], mems[i])
    ensures ReadMembers(codec, members, mems).Some?
    ensures var (fields, entries) := ReadMembers(codec, members, mems).value;
      && |fields| == |entries| == |members|
      && forall i :: 0 <= i < |members| ==> MemberReadAs(codec, members[i], mems[i], fields[i], entries[i])
  {
    hide ReadField, HasKey;
    if members != [] {
      var last := |members| - 1;
      ReadMembersShape(codec, members[..last], mems[..last]);
      var (fields, entries) := ReadMembers(codec, members[..last], mems[..last]).value;
      forall i | 0 <= i < last ensures fields[i].key == members[i].name {
        assert MemberReadAs(codec, members[..last][i], mems[..last][i], fields[i], entries[i]);
      }
      NewKey(members, fields);
      ReadMembersLast(codec, members, mems);
    }
  }

  ghost predicate ScalarReads(codec: Codec, kind: Kind, mem: Mem) {
    ReadScalar(codec, kind, mem).Some?
  }

  ghost predicate ElementsRead(codec: Codec, kind: Kind, items: seq<Mem>) {
    forall i :: 0 <= i < |items| ==> ScalarReads(codec, kind, items[i])
  }

  ghost predicate ScalarReadAs(codec: Codec, kind: Kind, mem: Mem, j: Json, c: Cbor) {
    ReadScalar(codec, kind, mem) == Some((j, c))
  }

  lemma ReadElementsSnoc(codec: Codec, kind: Kind, items: seq<Mem>)
    requires items != [] && ScalarReads(codec, kind, items[|items| - 1])
    requires ReadElements(codec, kind, items[..|items| - 1]).Some?
    ensures var (jsons, cbors) := ReadElements(codec, kind, items[..|items| - 1]).value;
      var (j, c) := ReadScalar(codec, kind, items[|items| - 1]).value;
      ReadElements(codec, kind, items) == Some((jsons + [j], cbors + [c]))
  {
  }

  lemma {:induction false} ReadElementsShape(codec: Codec, kind: Kind, items: seq<Mem>)
    requires ElementsRead(codec, kind, items)
    ensures ReadElements(codec, kind, items).Some?
    ensures var (jsons, cbors) := ReadElements(codec, kind, items).value;
      forall i :: 0 <= i < |items| ==> ScalarReadAs(codec, kind, items[i], jsons[i], cbors[i])
  {
    if items != [] {
      var last := |items| - 1;
      ReadElementsShape(codec, kind, items[..last]);
      ReadElementsSnoc(codec, kind, items);
    }
  }

  /** Byte arrays pack to their elements. */
  lemma {:induction false} PackedBytes(codec: Codec, kind: Kind, bound: nat, items: seq<Mem>)
    requires IsBinary(kind) && TypedElements(codec, kind, bound, items)
    ensures var bytes := PackAll(kind, items);
      |bytes| == |items| && forall i :: 0 <= i < |items| ==> items[i] == Int(bytes[i])
  {
    Powers();
    if items != [] {
      assert TypedScalar(codec, kind, bound, items[0]);
      assert TypedElements(codec, kind, bound, items[1..]);
      PackedBytes(codec, kind, bound, items[1..]);
      assert ToLittleEndian(1, items[0].v) == [items[0].v] + ToLittleEndian(0, 0);
    }
  }

  // ------------------------------------------------------------- round trip

  /** `Write(Read(mem)) == mem`, whatever the memory written into held before. */
  ghost predicate ScalarReturns(codec: Codec, kind: Kind, bound: nat, mem: Mem, before: Mem, now: Now) {
    && ReadScalar(codec, kind, mem).Some?
    && WriteScalar(codec, kind, bound, before, ReadScalar(codec, kind, mem).value.0, now) == Some(mem)
  }

  ghost predicate FieldReturns(codec: Codec, member: Member, mem: Mem, before: Mem, now: Now) {
    && Reads(codec, member, mem)
    && WriteField(codec, member, before, ReadField(codec, member, mem).value.0, now) == Some(mem)
  }

  lemma IntegerReturns(codec: Codec, kind: Kind, bound: nat, mem: Mem, before: Mem, now: Now)
    requires IntegerOf(kind).Some? && TypedScalar(codec, kind, bound, mem)
    ensures ScalarReturns(codec, kind, bound, mem, before, now)
  {
    Powers();
  }

  lemma {:induction false} ScalarRoundTrip(codec: Codec, kind: Kind, bound: nat, mem: Mem, before: Mem, now: Now)
    requires codec.Lawful() && WellFormedKind(kind) && TypedScalar(codec, kind, bound, mem) && Finite(mem)
    ensures ScalarReturns(codec, kind, bound, mem, before, now)
    decreases kind, 0
  {
    if IntegerOf(kind).Some? {
      IntegerReturns(codec, kind, bound, mem, before, now);
    } else {
      match kind
      case Nested(schema) => ObjectRoundTrip(codec, schema, mem, before, now, false);
      case _ =>
    }
  }

  lemma WriteElementsSnoc(codec: Codec, kind: Kind, bound: nat, before: seq<Mem>, jsons: seq<Json>, now: Now,
                          items: seq<Mem>)
    requires |before| == |jsons| == |items| > 0
    requires var last := |items| - 1;
      && WriteElements(codec, kind, bound, before[..last], jsons[..last], now) == Some(items[..last])
      && WriteScalar(codec, kind, bound, before[last], jsons[last], now) == Some(items[last])
    ensures WriteElements(codec, kind, bound, before, jsons, now) == Some(items)
  {
    assert items[..|items| - 1] + [items[|items| - 1]] == items;
  }

  lemma {:induction false} ElementsRoundTrip(codec: Codec, kind: Kind, bound: nat, items: seq<Mem>, before: seq<Mem>,
                                             jsons: seq<Json>, cbors: seq<Cbor>, now: Now)
    requires codec.Lawful() && WellFormedKind(kind) && TypedElements(codec, kind, bound, items)
    requires forall i :: 0 <= i < |items| ==> Finite(items[i])
    requires |before| == |items| == |jsons| == |cbors|
    requires forall i :: 0 <= i < |items| ==> ScalarReadAs(codec, kind, items[i], jsons[i], cbors[i])
    ensures WriteElements(codec, kind, bound, before, jsons, now) == Some(items)
    decreases kind, 1 + |items|
  {
    if items != [] {
      var last := |items| - 1;
      assert TypedElements(codec, kind, bound, items[..last]);
      ElementsRoundTrip(codec, kind, bound, items[..last], before[..last], jsons[..last], cbors[..last], now);
      ScalarRoundTrip(codec, kind, bound, items[last], before[last], now);
      WriteElementsSnoc(codec, kind, bound, before, jsons, now, items);
    }
  }

  lemma {:induction false} FieldRoundTrip(codec: Codec, member: Member, mem: Mem, before: Mem, now: Now)
    requires codec.Lawful() && WellFormedMember(member) && TypedMember(codec, member, mem) && Finite(mem)
    ensures FieldReturns(codec, member, mem, before, now)
    decreases member, 1
  {
    if member.shape.Single? {
      ScalarRoundTrip(codec, member.kind, member.stringBound, mem, before, now);
    } else {
      ArrayRoundTrip(codec, member, mem, before, now);
    }
  }

  /** Both array spellings, base64 or list, carry the elements' JSON values. */
  lemma ArrayReadsValues(codec: Codec, member: Member, mem: Mem)
    requires codec.Lawful() && TypedMember(codec, member, mem) && !member.shape.Single?
    requires ElementsRead(codec, member.kind, mem.items)
    ensures Reads(codec, member, mem)
    ensures ArrayValues(codec, member.kind, ReadField(codec, member, mem).value.0)
         == Some(ReadElements(codec, member.kind, mem.items).value.0)
  {
    ReadElementsShape(codec, member.kind, mem.items);
    if IsBinary(member.kind) {
      var (jsons, cbors) := ReadElements(codec, member.kind, mem.items).value;
      PackedBytes(codec, member.kind, member.stringBound, mem.items);
      BytesAsJsons(codec, member.kind, mem.items, PackAll(member.kind, mem.items), jsons, cbors);
    }
  }

  lemma {:induction false} ArrayRoundTrip(codec: Codec, member: Member, mem: Mem, before: Mem, now: Now)
    requires codec.Lawful() && WellFormedMember(member) && TypedMember(codec, member, mem) && Finite(mem)
    requires !member.shape.Single?
    ensures FieldReturns(codec, member, mem, before, now)
    decreases member, 0
  {
    hide ReadField, WriteElements, TypedScalar, ScalarReadAs, ReadScalar, WriteScalar, WellFormedKind;
    var n := |mem.items|;
    var start := if member.shape.Fixed? && before.Elements? && |before.items| == n then before.items
                 else seq(n, _ => member.blank);
    forall i | 0 <= i < n
      ensures ScalarReads(codec, member.kind, mem.items[i])
    {
      ScalarRoundTrip(codec, member.kind, member.stringBound, mem.items[i], before, now);
    }
    ReadElementsShape(codec, member.kind, mem.items);
    var (jsons, cbors) := ReadElements(codec, member.kind, mem.items).value;
    ElementsRoundTrip(codec, member.kind, member.stringBound, mem.items, start, jsons, cbors, now);
    ArrayReadsValues(codec, member, mem);
  }

  lemma BytesAsJsons(codec: Codec, kind: Kind, items: seq<Mem>, bytes: seq<Byte>, jsons: seq<Json>, cbors: seq<Cbor>)
    requires IsBinary(kind) && |bytes| == |items| == |jsons| == |cbors|
    requires forall i :: 0 <= i < |items| ==> items[i] == Int(bytes[i])
    requires forall i :: 0 <= i < |items| ==> ScalarReadAs(codec, kind, items[i], jsons[i], cbors[i])
    ensures ByteJsons(bytes) == jsons
  {
    forall i | 0 <= i < |items|
      ensures ByteJsons(bytes)[i] == jsons[i]
    {
      assert items[i] == Int(bytes[i]) && ScalarReadAs(codec, kind, items[i], jsons[i], cbors[i]);
    }
  }

  lemma {:induction false} InsertHasKey(fields: seq<Field>, key: Text, value: Json, other: Text)
    ensures HasKey(Insert(fields, key, value), other) <==> HasKey(fields, other) || other == key
  {
    var r := Insert(fields, key, value);
    if fields == [] {
      assert r[0] == Field(key, value);
    } else {
      HasKeySplit(fields, other);
      HasKeySplit(r, other);
      if fields[0].key != key {
        InsertHasKey(fields[1..], key, value, other);
        assert r[1..] == Insert(fields[1..], key, value);
      } else {
        assert r[1..] == fields[1..];
      }
    }
  }

  lemma HasKeySplit(fields: seq<Field>, key: Text)
    requires fields != []
    ensures HasKey(fields, key) <==> fields[0].key == key || HasKey(fields[1..], key)
  {
    if i :| 0 <= i < |fields| && fields[i].key == key {
      if i > 0 { assert fields[1..][i - 1].key == key; }
    }
    if i :| 0 <= i < |fields[1..]| && fields[1..][i].key == key {
      assert fields[i + 1].key == key;
    }
  }

  lemma {:induction false} ReadHasKeys(codec: Codec, members: seq<Member>, mems: seq<Mem>, name: Text)
    requires ReadMembers(codec, members, mems).Some? && HasName(members, name)
    ensures HasKey(ReadMembers(codec, members, mems).value.0, name)
  {
    var last := |members| - 1;
    var (fields, _) := ReadMembers(codec, members[..last], mems[..last]).value;
    InsertHasKey(fields, members[last].name, ReadField(codec, members[last], mems[last]).value.0, name);
    if members[last].name != name {
      var k :| 0 <= k < |members| && members[k].name == name;
      assert members[..last][k].name == name;
      ReadHasKeys(codec, members[..last], mems[..last], name);
    }
  }

  ghost predicate Carries(codec: Codec, member: Member, mem: Mem, fields: seq<Field>) {
    Reads(codec, member, mem) && Lookup(fields, member.name) == Some(ReadField(codec, member, mem).value.0)
  }

  lemma HeaderHasStamp(codec: Codec, member: Member, mem: Mem)
    requires WellFormedMember(member) && IsRootHeader(member, true) && Reads(codec, member, mem)
    ensures var j := ReadField(codec, member, mem).value.0; j.Obj? && HasKey(j.fields, STAMP)
  {
    assert ReadScalar(codec, member.kind, mem) == ReadObject(codec, member.kind.schema, mem);
    assert WellFormedSchema(member.kind.schema);
    ReadHasKeys(codec, member.kind.schema.members, mem.fields, STAMP);
  }

  lemma TypedPrefix(codec: Codec, members: seq<Member>, mems: seq<Mem>)
    requires |mems| == |members| > 0 && TypedMembers(codec, members, mems)
    ensures var last := |members| - 1;
      TypedMembers(codec, members[..last], mems[..last]) && TypedMember(codec, members[last], mems[last])
  {
  }

  lemma {:induction false} MembersRoundTrip(codec: Codec, members: seq<Member>, mems: seq<Mem>, before: seq<Mem>,
                                            fields: seq<Field>, now: Now, root: bool)
    requires codec.Lawful() && |mems| == |members| == |before| && TypedMembers(codec, members, mems)
    requires forall i :: 0 <= i < |members| ==> WellFormedMember(members[i]) && Finite(mems[i])
    requires forall i :: 0 <= i < |members| ==> Carries(codec, members[i], mems[i], fields)
    ensures WriteMembers(codec, members, before, fields, now, root) == Some(mems)
    decreases members, 0
  {
    hide ReadField, WriteField, Lookup, TypedMember, WellFormedMember, Finite, HasKey, TypedMembers, Reads;
    if members != [] {
      var last := |members| - 1;
      var member, mem := members[last], mems[last];
      TypedPrefix(codec, members, mems);
      MembersRoundTrip(codec, members[..last], mems[..last], before[..last], fields, now, root);
      FieldRoundTrip(codec, member, mem, before[last], now);
      if IsRootHeader(member, root) {
        HeaderHasStamp(codec, member, mem);
      }
      assert mems[..last] + [mem] == mems;
    }
  }

  /** Typed memory reads, member by member. */
  lemma {:induction false} MembersRead(codec: Codec, members: seq<Member>, mems: seq<Mem>, now: Now)
    requires codec.Lawful() && |mems| == |members| && TypedMembers(codec, members, mems)
    requires forall i :: 0 <= i < |members| ==> WellFormedMember(members[i]) && Finite(mems[i])
    ensures forall i :: 0 <= i < |members| ==> Reads(codec, members[i], mems[i])
    decreases members, 1
  {
    forall i | 0 <= i < |members|
      ensures Reads(codec, members[i], mems[i])
    {
      FieldRoundTrip(codec, members[i], mems[i], mems[i], now);
    }
  }

  /**
   Writing back what was read restores the message exactly: any schema, any memory to
   write into, any clock, with every element finite.
   */
  lemma {:induction false} ObjectRoundTrip(codec: Codec, schema: Schema, mem: Mem, before: Mem, now: Now, root: bool)
    requires codec.Lawful() && WellFormedSchema(schema) && TypedObject(codec, schema, mem) && Finite(mem)
    ensures ReadObject(codec, schema, mem).Some?
    ensures WriteObject(codec, schema, before, ReadObject(codec, schema, mem).value.0, now, root) == Some(mem)
    decreases schema, 0
  {
    var members, mems := schema.members, mem.fields;
    MembersRead(codec, members, mems, now);
    ReadMembersShape(codec, members, mems);
    var (fields, entries) := ReadMembers(codec, members, mems).value;
    assert DistinctKeys(fields);
    forall i | 0 <= i < |members|
      ensures Carries(codec, members[i], mems[i], fields)
    {
      assert MemberReadAs(codec, members[i], mems[i], fields[i], entries[i]);
      LookupAt(fields, i);
    }
    NothingToNormalize(schema, fields, now);
    MembersRoundTrip(codec, members, mems, FieldsOf(schema, before), fields, now, root);
  }

  /** The keys of a read object are the member names, so no alias applies. */
  lemma NothingToNormalize(schema: Schema, fields: seq<Field>, now: Now)
    requires WellFormedSchema(schema) && |fields| == |schema.members|
    requires forall i :: 0 <= i < |fields| ==> fields[i].key == schema.members[i].name
    ensures Normalize(schema, Obj(fields), now) == Some(fields)
    ensures KnowsKeys(schema.members, fields)
  {
    if schema.typeName == TIME_TYPE {
      assert !HasKey(fields, SECS) && !HasKey(fields, NSECS);
      LookupAbsent(fields, SECS);
      LookupAbsent(fields, NSECS);
    }
    MemberKeysAreKnown(schema.members, fields);
  }

  lemma MemberKeysAreKnown(members: seq<Member>, fields: seq<Field>)
    requires |fields| == |members| && forall i :: 0 <= i < |fields| ==> fields[i].key == members[i].name
    ensures KnowsKeys(members, fields)
  {
    forall i | 0 <= i < |fields| ensures KnowsKey(members, fields[i].key) {
      assert members[i].name == fields[i].key;
    }
  }
}
