/** What a write takes over, what it leaves, and when it fails (src/ros/message.rs). */
module MessageWriting {
  import opened Basics
  import opened Utf8
  import opened Values
  import opened Messages
  import opened MessageRoundTrip

  // ---------- member by member ----------

  /** The member's value is there and can be written, or it is not there and need not be. */
  predicate Takes(codec: Codec, member: Member, mem: Mem, fields: seq<Field>, now: Now) {
    HasKey(fields, member.name) ==>
      Lookup(fields, member.name).Some? && WriteField(codec, member, mem, Lookup(fields, member.name).value, now).Some?
  }

  /** The member holds its value, or what it held before. */
  predicate Took(codec: Codec, member: Member, mem: Mem, fields: seq<Field>, now: Now, after: Mem) {
    if HasKey(fields, member.name)
    then Lookup(fields, member.name).Some?
         && WriteField(codec, member, mem, Lookup(fields, member.name).value, now) == Some(after)
    else after == mem
  }

  lemma {:induction false} LookupIff(fields: seq<Field>, key: Text)
    ensures Lookup(fields, key).Some? <==> HasKey(fields, key)
  {
    if fields != [] {
      HasKeySplit(fields, key);
      LookupIff(fields[1..], key);
    }
  }

  lemma {:induction false} MembersWrittenIff(codec: Codec, members: seq<Member>, mems: seq<Mem>, fields: seq<Field>,
                                             now: Now)
    requires |mems| == |members|
    ensures WriteMembers(codec, members, mems, fields, now, false).Some?
            <==> forall i :: 0 <= i < |members| ==> Takes(codec, members[i], mems[i], fields, now)
    ensures WriteMembers(codec, members, mems, fields, now, false).Some? ==>
      forall i :: 0 <= i < |members| ==>
        Took(codec, members[i], mems[i], fields, now, WriteMembers(codec, members, mems, fields, now, false).value[i])
    decreases |members|
  {
    hide WriteField, Lookup, HasKey;
    if members != [] {
      var last := |members| - 1;
      MembersWrittenIff(codec, members[..last], mems[..last], fields, now);
      LookupIff(fields, members[last].name);
    }
  }

  /**
   Apart from a root header, a write succeeds exactly if the value is an object, or spelled like
   one, every key of it is a member's name, and every value it has can be written to its member;
   a member it lacks is no reason to fail. Then each member holds its value, or what it held before.
   */
  lemma WritesIff(codec: Codec, schema: Schema, mem: Mem, value: Json, now: Now)
    ensures var fields := Normalize(schema, value, now);
      var before := FieldsOf(schema, mem);
      var r := WriteObject(codec, schema, mem, value, now, false);
      && (r.Some? <==>
            && fields.Some?
            && (forall k :: 0 <= k < |fields.value| ==> KnowsKey(schema.members, fields.value[k].key))
            && (forall i :: 0 <= i < |schema.members| ==>
                  Takes(codec, schema.members[i], before[i], fields.value, now)))
      && (r.Some? ==>
            && r.value.Struct? && |r.value.fields| == |schema.members|
            && forall i :: 0 <= i < |schema.members| ==>
                 Took(codec, schema.members[i], before[i], fields.value, now, r.value.fields[i]))
  {
    hide Normalize, FieldsOf, Takes, Took;
    var fields := Normalize(schema, value, now);
    if fields.Some? { MembersWrittenIff(codec, schema.members, FieldsOf(schema, mem), fields.value, now); }
  }

  // ---------- part of a message ----------

  /** Some of the fields, in any order. */
  ghost predicate PartOf(part: seq<Field>, fields: seq<Field>) {
    DistinctKeys(part) && forall k :: 0 <= k < |part| ==> part[k] in fields
  }

  lemma {:induction false} LookupIn(part: seq<Field>, fields: seq<Field>, key: Text)
    requires PartOf(part, fields) && DistinctKeys(fields) && HasKey(part, key)
    ensures Lookup(part, key).Some? && Lookup(part, key) == Lookup(fields, key)
  {
    var k :| 0 <= k < |part| && part[k].key == key;
    LookupAt(part, k);
    var i :| 0 <= i < |fields| && fields[i] == part[k];
    LookupAt(fields, i);
  }

  lemma PartIsNormal(schema: Schema, part: seq<Field>, fields: seq<Field>, now: Now)
    requires WellFormedSchema(schema) && PartOf(part, fields) && |fields| == |schema.members|
    requires forall i :: 0 <= i < |fields| ==> fields[i].key == schema.members[i].name
    ensures Normalize(schema, Obj(part), now) == Some(part)
    ensures forall k :: 0 <= k < |part| ==> KnowsKey(schema.members, part[k].key)
  {
    forall k | 0 <= k < |part| ensures KnowsKey(schema.members, part[k].key) {
      var i :| 0 <= i < |fields| && fields[i] == part[k];
      assert schema.members[i].name == part[k].key;
    }
    if schema.typeName == TIME_TYPE {
      assert forall k :: 0 <= k < |part| ==> HasName(schema.members, part[k].key);
      LookupAbsent(part, SECS);
      LookupAbsent(part, NSECS);
    }
  }

  /**
   Writing back any of the fields of a read, in any order, over any memory, restores exactly those
   members and leaves the others as they were.
   */
  lemma PartialRoundTrip(codec: Codec, schema: Schema, mem: Mem, before: Mem, part: seq<Field>, now: Now)
    requires codec.Lawful() && WellFormedSchema(schema) && TypedObject(codec, schema, mem) && Finite(mem)
    requires ReadObject(codec, schema, mem).Some? && ReadObject(codec, schema, mem).value.0.Obj?
    requires PartOf(part, ReadObject(codec, schema, mem).value.0.fields)
    ensures var r := WriteObject(codec, schema, before, Obj(part), now, false);
      && r.Some? && r.value.Struct? && |r.value.fields| == |schema.members| == |mem.fields|
      && forall i :: 0 <= i < |schema.members| ==>
           r.value.fields[i] == if HasKey(part, schema.members[i].name) then mem.fields[i]
                                else FieldsOf(schema, before)[i]
  {
    var members, mems := schema.members, mem.fields;
    hide ReadField, WriteField, Lookup, TypedMember, WellFormedMember, Finite, HasKey, FieldsOf;
    TypedParts(codec, schema, mem);
    MembersRead(codec, members, mems, now);
    ReadMembersShape(codec, members, mems);
    var (fields, entries) := ReadMembers(codec, members, mems).value;
    assert DistinctKeys(fields) by {
      forall i | 0 <= i < |fields| ensures fields[i].key == members[i].name {
        assert MemberReadAs(codec, members[i], mems[i], fields[i], entries[i]);
      }
    }
    forall i | 0 <= i < |members|
      ensures fields[i].key == members[i].name && Carries(codec, members[i], mems[i], fields)
    {
      assert MemberReadAs(codec, members[i], mems[i], fields[i], entries[i]);
      LookupAt(fields, i);
    }
    PartWrites(codec, schema, mems, fields, before, part, now);
  }

  lemma TypedParts(codec: Codec, schema: Schema, mem: Mem)
    requires WellFormedSchema(schema) && TypedObject(codec, schema, mem) && Finite(mem)
    ensures mem.Struct? && |mem.fields| == |schema.members| && TypedMembers(codec, schema.members, mem.fields)
    ensures DistinctNames(schema.members)
    ensures forall i :: 0 <= i < |schema.members| ==> WellFormedMember(schema.members[i]) && Finite(mem.fields[i])
  {
  }

  lemma PartWrites(codec: Codec, schema: Schema, mems: seq<Mem>, fields: seq<Field>, before: Mem, part: seq<Field>,
                   now: Now)
    requires codec.Lawful() && WellFormedSchema(schema) && |mems| == |schema.members| == |fields|
    requires DistinctNames(schema.members) && TypedMembers(codec, schema.members, mems)
    requires forall i :: 0 <= i < |mems| ==> WellFormedMember(schema.members[i]) && Finite(mems[i])
    requires forall i :: 0 <= i < |fields| ==>
      fields[i].key == schema.members[i].name && Carries(codec, schema.members[i], mems[i], fields)
    requires PartOf(part, fields)
    ensures var r := WriteObject(codec, schema, before, Obj(part), now, false);
      && r.Some? && r.value.Struct? && |r.value.fields| == |schema.members|
      && forall i :: 0 <= i < |schema.members| ==>
           r.value.fields[i] == if HasKey(part, schema.members[i].name) then mems[i] else FieldsOf(schema, before)[i]
  {
    var members, old_ := schema.members, FieldsOf(schema, before);
    PartIsNormal(schema, part, fields, now);
    assert DistinctKeys(fields);
    hide ReadField, WriteField, Lookup, TypedMember, WellFormedMember, Finite, HasKey, FieldsOf, Normalize,
      WellFormedSchema;
    forall i | 0 <= i < |members| ensures HasKey(part, members[i].name) ==>
        Took(codec, members[i], old_[i], part, now, mems[i]) && Takes(codec, members[i], old_[i], part, now) {
      if HasKey(part, members[i].name) {
        LookupIn(part, fields, members[i].name);
        assert TypedMember(codec, members[i], mems[i]);
        FieldRoundTrip(codec, members[i], mems[i], old_[i], now);
      }
    }
    WritesIff(codec, schema, before, Obj(part), now);
  }

  // ---------- a root header ----------

  ghost predicate HasRootHeader(members: seq<Member>) {
    exists i :: 0 <= i < |members| && IsRootHeader(members[i], true)
  }

  /** The header that is given, or an empty one, with a stamp. */
  function StampedHeader(fields: seq<Field>, now: Now): Json {
    match Lookup(fields, HEADER)
    case Some(Obj(given)) => Obj(OrInsert(given, STAMP, Stamp(now)))
    case _ => Obj([Field(STAMP, Stamp(now))])
  }

  predicate HeaderIsObject(fields: seq<Field>) {
    Lookup(fields, HEADER).Some? ==> Lookup(fields, HEADER).value.Obj?
  }

  lemma {:induction false} LookupInserted(fields: seq<Field>, key: Text, value: Json, other: Text)
    ensures Lookup(Insert(fields, key, value), other) == if other == key then Some(value) else Lookup(fields, other)
  {
    if fields != [] && fields[0].key != key { LookupInserted(fields[1..], key, value, other); }
  }

  /** The fields of a root message, with its header stamped if it has one. */
  ghost function StampedFields(members: seq<Member>, fields: seq<Field>, now: Now): seq<Field> {
    if HasRootHeader(members) then Insert(fields, HEADER, StampedHeader(fields, now)) else fields
  }

  /** The header's value is stamped, and every other value is the same. */
  predicate IsStamped(member: Member, fields: seq<Field>, stamped: seq<Field>, now: Now) {
    Lookup(stamped, member.name)
    == if IsRootHeader(member, true) then Some(StampedHeader(fields, now)) else Lookup(fields, member.name)
  }

  lemma {:induction false} StampedMembers(codec: Codec, members: seq<Member>, mems: seq<Mem>, fields: seq<Field>,
                                          stamped: seq<Field>, now: Now)
    requires |mems| == |members| && HeaderIsObject(fields)
    requires forall i :: 0 <= i < |members| ==> IsStamped(members[i], fields, stamped, now)
    ensures WriteMembers(codec, members, mems, fields, now, true)
         == WriteMembers(codec, members, mems, stamped, now, false)
    decreases |members|
  {
    hide WriteField, Lookup, IsRootHeader;
    if members != [] {
      var last := |members| - 1;
      StampedMembers(codec, members[..last], mems[..last], fields, stamped, now);
      StampedMember(codec, members[last], mems[last], fields, stamped, now);
    }
  }

  lemma StampedMember(codec: Codec, member: Member, mem: Mem, fields: seq<Field>, stamped: seq<Field>, now: Now)
    requires HeaderIsObject(fields) && IsStamped(member, fields, stamped, now)
    ensures WriteMember(codec, member, mem, Lookup(fields, member.name), now, true)
         == WriteMember(codec, member, mem, Lookup(stamped, member.name), now, false)
  {
    hide WriteField, Lookup;
  }

  lemma {:induction false} OneFailsAll(codec: Codec, members: seq<Member>, mems: seq<Mem>, fields: seq<Field>,
                                       now: Now, root: bool, i: nat)
    requires |mems| == |members| && i < |members|
    requires WriteMember(codec, members[i], mems[i], Lookup(fields, members[i].name), now, root).None?
    ensures WriteMembers(codec, members, mems, fields, now, root).None?
    decreases |members|
  {
    hide WriteMember, Lookup;
    if i < |members| - 1 { OneFailsAll(codec, members[..|members| - 1], mems[..|members| - 1], fields, now, root, i); }
  }

  lemma StampedLookups(members: seq<Member>, fields: seq<Field>, now: Now)
    requires DistinctNames(members)
    ensures var stamped := StampedFields(members, fields, now);
      && (forall i :: 0 <= i < |members| ==> IsStamped(members[i], fields, stamped, now))
      && (KnowsKeys(members, stamped) <==> KnowsKeys(members, fields))
  {
    hide Lookup, StampedHeader, KnowsKeys;
    var stamped := StampedFields(members, fields, now);
    KeysKnownIff(members, fields);
    KeysKnownIff(members, stamped);
    if HasRootHeader(members) {
      var h :| 0 <= h < |members| && IsRootHeader(members[h], true);
      assert KnowsKey(members, HEADER);
      forall key ensures Lookup(stamped, key)
                      == if key == HEADER then Some(StampedHeader(fields, now)) else Lookup(fields, key) {
        LookupInserted(fields, HEADER, StampedHeader(fields, now), key);
      }
      assert forall i :: 0 <= i < |members| && members[i].name == HEADER ==> i == h;
    }
  }

  /**
   A root message is written as if its header had been given with a stamp: with the one it has,
   or else the current time, and no header is as good as an empty one. A header that is no object
   is refused. Without such a header, a root message is like any other.
   */
  lemma RootIsStamped(codec: Codec, schema: Schema, mem: Mem, value: Json, now: Now)
    requires WellFormedSchema(schema)
    ensures var fields := Normalize(schema, value, now);
      var r := WriteObject(codec, schema, mem, value, now, true);
      if fields.Some? && HasRootHeader(schema.members) then
        if HeaderIsObject(fields.value)
        then r == WriteObject(codec, schema, mem, Obj(StampedFields(schema.members, fields.value, now)), now, false)
        else r.None?
      else r == WriteObject(codec, schema, mem, value, now, false)
  {
    hide FieldsOf, WriteField, Lookup, WellFormedMember, Insert;
    var fields, before := Normalize(schema, value, now), FieldsOf(schema, mem);
    if fields.Some? {
      if !HasRootHeader(schema.members) {
        NoHeaderMembers(codec, schema.members, before, fields.value, now);
      } else if HeaderIsObject(fields.value) {
        StampedLookups(schema.members, fields.value, now);
        var stamped := StampedFields(schema.members, fields.value, now);
        StampedMembers(codec, schema.members, before, fields.value, stamped, now);
        assert HasName(schema.members, HEADER);
        hide StampedFields;
      } else {
        var h :| 0 <= h < |schema.members| && IsRootHeader(schema.members[h], true);
        OneFailsAll(codec, schema.members, before, fields.value, now, true, h);
      }
    }
  }

  lemma {:induction false} NoHeaderMembers(codec: Codec, members: seq<Member>, mems: seq<Mem>, fields: seq<Field>,
                                           now: Now)
    requires |mems| == |members| && !HasRootHeader(members)
    ensures WriteMembers(codec, members, mems, fields, now, true)
         == WriteMembers(codec, members, mems, fields, now, false)
    decreases |members|
  {
    hide WriteField, Lookup;
    if members != [] {
      var last := |members| - 1;
      assert !IsRootHeader(members[last], true);
      assert forall i :: 0 <= i < last ==> members[..last][i] == members[i];
      NoHeaderMembers(codec, members[..last], mems[..last], fields, now);
    }
  }

  // ---------- spellings of a value ----------

  /** "now" is the current time, spelled out. */
  lemma NowIsTheTime(codec: Codec, schema: Schema, mem: Mem, now: Now, root: bool)
    requires schema.typeName == TIME_TYPE
    ensures WriteObject(codec, schema, mem, Str(NOW), now, root)
         == WriteObject(codec, schema, mem, Obj([Field(SEC, IntJson(now.0)), Field(NANOSEC, IntJson(now.1))]), now,
                        root)
  {
    hide WriteMembers, Alias;
  }

  /** The list's values under the names of the first members. */
  function Named(members: seq<Member>, list: seq<Json>): seq<Field>
    requires |list| <= |members|
  {
    seq(|list|, i requires 0 <= i < |list| => Field(members[i].name, list[i]))
  }

  lemma {:induction false} ZipNames(members: seq<Member>, list: seq<Json>)
    requires |list| <= |members| && DistinctNames(members)
    ensures Zip(members, list) == Named(members, list)
    decreases |list|
  {
    if list != [] {
      var last := |list| - 1;
      ZipNames(members, list[..last]);
      var rest := Named(members, list[..last]);
      assert !HasKey(rest, members[last].name);
      InsertNewAppends(rest, members[last].name, list[last]);
    }
  }

  /** A list is the object that gives its values to the members in order; it may not be longer than they are. */
  lemma PositionsAreNames(codec: Codec, schema: Schema, mem: Mem, list: seq<Json>, now: Now, root: bool)
    requires WellFormedSchema(schema)
    ensures WriteObject(codec, schema, mem, Arr(list), now, root)
         == if |list| <= |schema.members|
            then WriteObject(codec, schema, mem, Obj(Named(schema.members, list)), now, root)
            else None
  {
    hide WriteMembers, Alias, WellFormedMember;
    if |list| <= |schema.members| { ZipNames(schema.members, list); }
  }

  /** Nothing else is a value for an object. */
  lemma OtherValuesFail(codec: Codec, schema: Schema, mem: Mem, value: Json, now: Now, root: bool)
    requires !value.Obj? && !value.Arr? && !(schema.typeName == TIME_TYPE && value == Str(NOW))
    ensures WriteObject(codec, schema, mem, value, now, root).None?
  {
  }

  predicate TimeKey(key: Text) { key == SEC || key == NANOSEC || key == SECS || key == NSECS }

  /** A time's part, by its own name or else by its old one. */
  function TimePart(fields: seq<Field>, key: Text, old_: Text): Option<Json> {
    if Lookup(fields, key).Some? then Lookup(fields, key) else Lookup(fields, old_)
  }

  function TimeFields(sec: Option<Json>, nanosec: Option<Json>): seq<Field> {
    (if sec.Some? then [Field(SEC, sec.value)] else []) + if nanosec.Some? then [Field(NANOSEC, nanosec.value)] else []
  }

  lemma {:induction false} LookupRemoved(fields: seq<Field>, key: Text, other: Text)
    requires DistinctKeys(fields)
    ensures Lookup(Remove(fields, key), other) == if other == key then None else Lookup(fields, other)
    ensures DistinctKeys(Remove(fields, key)) && forall k :: HasKey(Remove(fields, key), k) ==> HasKey(fields, k)
  {
    if fields != [] {
      var rest := Remove(fields[1..], key);
      assert DistinctKeys(fields[1..]);
      LookupRemoved(fields[1..], key, other);
      if fields[0].key == key {
        LookupIff(fields[1..], key);
        assert !HasKey(fields[1..], key);
        forall k | HasKey(fields[1..], k) ensures HasKey(fields, k) { HasKeySplit(fields, k); }
      } else {
        var r := [fields[0]] + rest;
        assert r[1..] == rest;
        assert !HasKey(fields[1..], fields[0].key);
        forall k | HasKey(r, k) ensures HasKey(fields, k) { HasKeySplit(r, k); HasKeySplit(fields, k); }
        forall i, j | 0 <= i < j < |r| ensures r[i].key != r[j].key {
          if i == 0 { assert HasKey(rest, r[j].key) by { assert rest[j - 1].key == r[j].key; } }
        }
      }
    }
  }

  lemma {:induction false} InsertKeepsDistinct(fields: seq<Field>, key: Text, value: Json)
    requires DistinctKeys(fields)
    ensures DistinctKeys(Insert(fields, key, value))
  {
    if HasKey(fields, key) {
      InsertThere(fields, key, value);
    } else {
      InsertNewAppends(fields, key, value);
    }
  }

  lemma {:induction false} InsertThere(fields: seq<Field>, key: Text, value: Json)
    requires HasKey(fields, key)
    ensures |Insert(fields, key, value)| == |fields|
    ensures forall i :: 0 <= i < |fields| ==> Insert(fields, key, value)[i].key == fields[i].key
  {
    if fields[0].key != key {
      HasKeySplit(fields, key);
      InsertThere(fields[1..], key, value);
    }
  }

  /** What resolving one old spelling does to the fields that can be looked up. */
  lemma AliasLookup(fields: seq<Field>, alias: Text, field: Text, other: Text)
    requires DistinctKeys(fields) && alias != field
    ensures DistinctKeys(Alias(fields, alias, field))
    ensures Lookup(Alias(fields, alias, field), other)
         == if other == alias then None
            else if other == field then TimePart(fields, field, alias)
            else Lookup(fields, other)
  {
    hide Remove, Insert;
    match Lookup(fields, alias)
    case None =>
    case Some(value) =>
      var rest := Remove(fields, alias);
      LookupRemoved(fields, alias, other);
      LookupRemoved(fields, alias, field);
      LookupIff(rest, field);
      LookupInserted(rest, field, value, other);
      InsertKeepsDistinct(rest, field, value);
  }

  lemma {:induction false} SameLookupSameWrite(codec: Codec, members: seq<Member>, mems: seq<Mem>, f: seq<Field>,
                                               g: seq<Field>, now: Now, root: bool)
    requires |mems| == |members|
    requires forall i :: 0 <= i < |members| ==> Lookup(f, members[i].name) == Lookup(g, members[i].name)
    ensures WriteMembers(codec, members, mems, f, now, root) == WriteMembers(codec, members, mems, g, now, root)
    decreases |members|
  {
    hide WriteMember, Lookup;
    if members != [] {
      SameLookupSameWrite(codec, members[..|members| - 1], mems[..|members| - 1], f, g, now, root);
    }
  }

  lemma KeysKnownIff(members: seq<Member>, fields: seq<Field>)
    ensures KnowsKeys(members, fields) <==> forall key :: Lookup(fields, key).Some? ==> KnowsKey(members, key)
  {
    hide KnowsKey, Lookup;
    forall k | 0 <= k < |fields| ensures Lookup(fields, fields[k].key).Some? {
      LookupIff(fields, fields[k].key);
    }
    forall key | Lookup(fields, key).Some? && KnowsKeys(members, fields) ensures KnowsKey(members, key) {
      LookupIff(fields, key);
      var k :| 0 <= k < |fields| && fields[k].key == key;
    }
  }

  /** A time may be spelled with the old names of its parts; the new ones count if both are there. */
  lemma OldTimesAreTimes(codec: Codec, schema: Schema, mem: Mem, fields: seq<Field>, now: Now, root: bool)
    requires WellFormedSchema(schema) && schema.typeName == TIME_TYPE
    requires DistinctKeys(fields) && forall k :: 0 <= k < |fields| ==> TimeKey(fields[k].key)
    ensures WriteObject(codec, schema, mem, Obj(fields), now, root)
         == WriteObject(codec, schema, mem,
                        Obj(TimeFields(TimePart(fields, SEC, SECS), TimePart(fields, NANOSEC, NSECS))), now, root)
  {
    var plain := TimeFields(TimePart(fields, SEC, SECS), TimePart(fields, NANOSEC, NSECS));
    var f := Alias(Alias(fields, SECS, SEC), NSECS, NANOSEC);
    var g := Alias(Alias(plain, SECS, SEC), NSECS, NANOSEC);
    forall key ensures Lookup(f, key) == Lookup(g, key) {
      TimeLookups(fields, key);
    }
    hide WriteMembers, Alias, TimeFields, Lookup, WellFormedMember, FieldsOf, KnowsKeys;
    SameLookupSameWrite(codec, schema.members, FieldsOf(schema, mem), f, g, now, root);
    KeysKnownIff(schema.members, f);
    KeysKnownIff(schema.members, g);
  }

  lemma TimeKeysDiffer()
    ensures SEC != NANOSEC && SEC != SECS && SEC != NSECS && NANOSEC != SECS && NANOSEC != NSECS && SECS != NSECS
  {
    assert SEC[0] == SECS[0] == 115 && NANOSEC[0] == NSECS[0] == 110;
    assert NANOSEC[1] == 97 && NSECS[1] == 115 && |SEC| == 3 && |SECS| == 4;
  }

  lemma PlainLookup(sec: Option<Json>, nanosec: Option<Json>, key: Text)
    ensures DistinctKeys(TimeFields(sec, nanosec))
    ensures Lookup(TimeFields(sec, nanosec), key)
         == if key == SEC then sec else if key == NANOSEC then nanosec else None
  {
    TimeKeysDiffer();
    hide Lookup, SEC, NANOSEC;
    var fields := TimeFields(sec, nanosec);
    LookupCons(Field(NANOSEC, if nanosec.Some? then nanosec.value else Null), [], key);
    if sec.Some? {
      LookupCons(Field(SEC, sec.value), TimeFields(None, nanosec), key);
      assert fields == [Field(SEC, sec.value)] + TimeFields(None, nanosec);
    }
    assert nanosec.Some? ==> TimeFields(None, nanosec) == [Field(NANOSEC, nanosec.value)] + [];
    assert nanosec.None? ==> TimeFields(None, nanosec) == [];
  }

  lemma LookupCons(f: Field, rest: seq<Field>, key: Text)
    ensures Lookup([f] + rest, key) == if f.key == key then Some(f.value) else Lookup(rest, key)
    ensures Lookup([], key) == None
  {
    assert ([f] + rest)[1..] == rest;
  }

  lemma TimeLookups(fields: seq<Field>, key: Text)
    requires DistinctKeys(fields) && forall k :: 0 <= k < |fields| ==> TimeKey(fields[k].key)
    ensures var plain := TimeFields(TimePart(fields, SEC, SECS), TimePart(fields, NANOSEC, NSECS));
      Lookup(Alias(Alias(fields, SECS, SEC), NSECS, NANOSEC), key)
      == Lookup(Alias(Alias(plain, SECS, SEC), NSECS, NANOSEC), key)
  {
    hide Alias, TimeFields, Lookup;
    TimeKeysDiffer();
    var sec, nanosec := TimePart(fields, SEC, SECS), TimePart(fields, NANOSEC, NSECS);
    var plain := TimeFields(sec, nanosec);
    forall other ensures Lookup(plain, other)
                      == if other == SEC then sec else if other == NANOSEC then nanosec else None {
      PlainLookup(sec, nanosec, other);
    }
    PlainLookup(sec, nanosec, key);
    TwoAliases(fields, key);
    TwoAliases(plain, key);
    if !TimeKey(key) { LookupIff(fields, key); }
  }

  /** What can be looked up once both old spellings are resolved. */
  lemma TwoAliases(fields: seq<Field>, key: Text)
    requires DistinctKeys(fields)
    ensures Lookup(Alias(Alias(fields, SECS, SEC), NSECS, NANOSEC), key)
         == if key == SECS || key == NSECS then None
            else if key == SEC then TimePart(fields, SEC, SECS)
            else if key == NANOSEC then TimePart(fields, NANOSEC, NSECS)
            else Lookup(fields, key)
  {
    hide Alias, Lookup;
    TimeKeysDiffer();
    AliasLookup(fields, SECS, SEC, key);
    AliasLookup(fields, SECS, SEC, NANOSEC);
    AliasLookup(fields, SECS, SEC, NSECS);
    AliasLookup(Alias(fields, SECS, SEC), NSECS, NANOSEC, key);
  }

  // ---------- what a write leaves is a message again ----------

  /** The codecs keep to the widths of what they produce. */
  ghost predicate Precise(codec: Codec) {
    && (forall bits: nat :: codec.narrow(bits) < 0x1_0000_0000)
    && (forall n: int :: codec.floatOfInt(n) < 0x1_0000_0000_0000_0000)
    && (forall s :: codec.isUtf8(s) ==> codec.fromUtf16(codec.utf16(s)).Some?)
  }

  /** What a parsed JSON value is: its texts are UTF-8, its floats have 64 bits. */
  ghost predicate Parsed(codec: Codec, v: Json) {
    match v
    case Str(s) => codec.isUtf8(s)
    case Num(Float(bits)) => bits < 0x1_0000_0000_0000_0000
    case Arr(items) => forall i :: 0 <= i < |items| ==> Parsed(codec, items[i])
    case Obj(fields) => forall i :: 0 <= i < |fields| ==> Parsed(codec, fields[i].value)
    case _ => true
  }

  ghost predicate AllParsed(codec: Codec, fields: seq<Field>) {
    forall i :: 0 <= i < |fields| ==> Parsed(codec, fields[i].value)
  }

  /** New elements start as the schema has them. */
  ghost predicate TypedBlanks(codec: Codec, schema: Schema)
    decreases schema
  {
    forall i :: 0 <= i < |schema.members| ==> TypedBlank(codec, schema.members[i])
  }

  ghost predicate TypedBlank(codec: Codec, member: Member)
    decreases member
  {
    TypedScalar(codec, member.kind, member.stringBound, member.blank) && BlanksIn(codec, member.kind)
  }

  ghost predicate BlanksIn(codec: Codec, kind: Kind)
    decreases kind
  {
    kind.Nested? ==> TypedBlanks(codec, kind.schema)
  }

  lemma {:induction false} LookupParsed(codec: Codec, fields: seq<Field>, key: Text)
    requires AllParsed(codec, fields)
    ensures Lookup(fields, key).Some? ==> Parsed(codec, Lookup(fields, key).value)
  {
    if fields != [] {
      assert AllParsed(codec, fields[1..]);
      LookupParsed(codec, fields[1..], key);
    }
  }

  lemma {:induction false} InsertParsed(codec: Codec, fields: seq<Field>, key: Text, value: Json)
    requires AllParsed(codec, fields) && Parsed(codec, value)
    ensures AllParsed(codec, Insert(fields, key, value))
  {
    hide Parsed;
    if fields != [] {
      assert AllParsed(codec, fields[1..]);
      InsertParsed(codec, fields[1..], key, value);
    }
  }

  lemma {:induction false} RemoveParsed(codec: Codec, fields: seq<Field>, key: Text)
    requires AllParsed(codec, fields)
    ensures AllParsed(codec, Remove(fields, key))
  {
    hide Parsed;
    if fields != [] {
      assert AllParsed(codec, fields[1..]);
      RemoveParsed(codec, fields[1..], key);
    }
  }

  lemma AliasParsed(codec: Codec, fields: seq<Field>, alias: Text, field: Text)
    requires AllParsed(codec, fields)
    ensures AllParsed(codec, Alias(fields, alias, field))
  {
    hide Parsed, Remove, Insert, Lookup, AllParsed;
    LookupParsed(codec, fields, alias);
    RemoveParsed(codec, fields, alias);
    if Lookup(fields, alias).Some? {
      InsertParsed(codec, Remove(fields, alias), field, Lookup(fields, alias).value);
    }
  }

  lemma {:induction false} ZipParsed(codec: Codec, members: seq<Member>, list: seq<Json>)
    requires |list| <= |members| && forall i :: 0 <= i < |list| ==> Parsed(codec, list[i])
    ensures AllParsed(codec, Zip(members, list))
    decreases |list|
  {
    hide Parsed, Insert;
    if list != [] {
      ZipParsed(codec, members, list[..|list| - 1]);
      InsertParsed(codec, Zip(members, list[..|list| - 1]), members[|list| - 1].name, list[|list| - 1]);
    }
  }

  lemma StampParsed(codec: Codec, now: Now)
    ensures Stamp(now).Obj? && AllParsed(codec, Stamp(now).fields) && Parsed(codec, Stamp(now))
  {
  }

  lemma NormalizedParsed(codec: Codec, schema: Schema, value: Json, now: Now)
    requires Parsed(codec, value)
    ensures Normalize(schema, value, now).Some? ==> AllParsed(codec, Normalize(schema, value, now).value)
  {
    hide Zip, Alias, Insert;
    StampParsed(codec, now);
    if value.Arr? && |value.items| <= |schema.members| { ZipParsed(codec, schema.members, value.items); }
    var fields := if value.Obj? then value.fields
                  else if value.Arr? && |value.items| <= |schema.members| then Zip(schema.members, value.items)
                  else Stamp(now).fields;
    assert AllParsed(codec, fields);
    hide Parsed, AllParsed;
    AliasParsed(codec, fields, SECS, SEC);
    AliasParsed(codec, Alias(fields, SECS, SEC), NSECS, NANOSEC);
  }

  lemma HeaderParsed(codec: Codec, value: Option<Json>, now: Now)
    requires value.Some? ==> Parsed(codec, value.value)
    ensures var header := if value.Some? then value.value else Obj([]);
      header.Obj? ==> Parsed(codec, Obj(OrInsert(header.fields, STAMP, Stamp(now))))
  {
    var header := if value.Some? then value.value else Obj([]);
    StampParsed(codec, now);
    if header.Obj? {
      assert AllParsed(codec, header.fields);
      InsertParsed(codec, header.fields, STAMP, Stamp(now));
    }
  }

  /** Each value that can be written becomes what the kind calls for, in range and within its bound. */
  lemma {:induction false} ScalarWritesTyped(codec: Codec, kind: Kind, bound: nat, mem: Mem, value: Json, now: Now)
    requires Precise(codec) && WellFormedKind(kind) && BlanksIn(codec, kind) && Parsed(codec, value)
    requires TypedScalar(codec, kind, bound, mem)
    ensures WriteScalar(codec, kind, bound, mem, value, now).Some? ==>
      TypedScalar(codec, kind, bound, WriteScalar(codec, kind, bound, mem, value, now).value)
    decreases kind, 0
  {
    match kind
    case Nested(schema) => WritesTyped(codec, schema, mem, value, now, false);
    case _ =>
  }

  lemma {:induction false} ElementsWriteTyped(codec: Codec, kind: Kind, bound: nat, mems: seq<Mem>, values: seq<Json>,
                                              now: Now)
    requires Precise(codec) && WellFormedKind(kind) && BlanksIn(codec, kind) && |mems| == |values|
    requires TypedElements(codec, kind, bound, mems) && forall i :: 0 <= i < |values| ==> Parsed(codec, values[i])
    ensures var r := WriteElements(codec, kind, bound, mems, values, now);
      r.Some? ==> |r.value| == |values| && TypedElements(codec, kind, bound, r.value)
    decreases kind, 1 + |values|
  {
    hide Parsed, TypedScalar, WriteScalar, BlanksIn, WellFormedKind, Precise;
    if values != [] {
      var last := |values| - 1;
      assert TypedElements(codec, kind, bound, mems[..last]);
      ElementsWriteTyped(codec, kind, bound, mems[..last], values[..last], now);
      assert TypedScalar(codec, kind, bound, mems[last]);
      ScalarWritesTyped(codec, kind, bound, mems[last], values[last], now);
    }
  }

  lemma ValuesParsed(codec: Codec, kind: Kind, value: Json)
    requires Parsed(codec, value)
    ensures var values := ArrayValues(codec, kind, value);
      values.Some? ==> forall i :: 0 <= i < |values.value| ==> Parsed(codec, values.value[i])
  {
  }

  lemma {:induction false} FieldWritesTyped(codec: Codec, member: Member, mem: Mem, value: Json, now: Now)
    requires Precise(codec) && WellFormedMember(member) && TypedBlank(codec, member) && Parsed(codec, value)
    requires TypedMember(codec, member, mem)
    ensures WriteField(codec, member, mem, value, now).Some? ==>
      TypedMember(codec, member, WriteField(codec, member, mem, value, now).value)
    decreases member, 0
  {
    hide Parsed, WriteScalar, WriteElements, TypedScalar, WellFormedKind, BlanksIn, ArrayValues, Precise;
    if member.shape.Single? {
      ScalarWritesTyped(codec, member.kind, member.stringBound, mem, value, now);
    } else {
      ValuesParsed(codec, member.kind, value);
      var values := ArrayValues(codec, member.kind, value);
      if values.Some? {
        var n := |values.value|;
        var start := if member.shape.Fixed? && mem.Elements? && |mem.items| == n then mem.items
                     else seq(n, _ => member.blank);
        assert TypedElements(codec, member.kind, member.stringBound, start);
        ElementsWriteTyped(codec, member.kind, member.stringBound, start, values.value, now);
      }
    }
  }

  lemma {:induction false} MemberWritesTyped(codec: Codec, member: Member, mem: Mem, value: Option<Json>, now: Now,
                                             root: bool)
    requires Precise(codec) && WellFormedMember(member) && TypedBlank(codec, member)
    requires value.Some? ==> Parsed(codec, value.value)
    requires TypedMember(codec, member, mem)
    ensures WriteMember(codec, member, mem, value, now, root).Some? ==>
      TypedMember(codec, member, WriteMember(codec, member, mem, value, now, root).value)
    decreases member, 1
  {
    hide Parsed, WriteField, TypedMember, TypedBlank, WellFormedMember, Precise, IsRootHeader, OrInsert;
    HeaderParsed(codec, value, now);
    if IsRootHeader(member, root) {
      var header := if value.Some? then value.value else Obj([]);
      if header.Obj? { FieldWritesTyped(codec, member, mem, Obj(OrInsert(header.fields, STAMP, Stamp(now))), now); }
    } else if value.Some? {
      FieldWritesTyped(codec, member, mem, value.value, now);
    }
  }

  lemma {:induction false} MembersWriteTyped(codec: Codec, members: seq<Member>, mems: seq<Mem>, fields: seq<Field>,
                                             now: Now, root: bool)
    requires Precise(codec) && |mems| == |members| && AllParsed(codec, fields)
    requires forall i :: 0 <= i < |members| ==>
      WellFormedMember(members[i]) && TypedBlank(codec, members[i]) && TypedMember(codec, members[i], mems[i])
    ensures var r := WriteMembers(codec, members, mems, fields, now, root);
      r.Some? ==> forall i :: 0 <= i < |members| ==> TypedMember(codec, members[i], r.value[i])
    decreases members, 0
  {
    hide Parsed, WriteMember, TypedMember, TypedBlank, WellFormedMember, Precise, Lookup, AllParsed;
    if members != [] {
      var last := |members| - 1;
      MembersWriteTyped(codec, members[..last], mems[..last], fields, now, root);
      LookupParsed(codec, fields, members[last].name);
      MemberWritesTyped(codec, members[last], mems[last], Lookup(fields, members[last].name), now, root);
    }
  }

  /**
   Whatever value is written over a message, what results is a message of the schema again: every
   number in its range, every text and array within its bound and fixed arrays of their size. So
   whatever would not be is refused.
   */
  lemma {:induction false} WritesTyped(codec: Codec, schema: Schema, mem: Mem, value: Json, now: Now, root: bool)
    requires Precise(codec) && WellFormedSchema(schema) && TypedBlanks(codec, schema) && Parsed(codec, value)
    requires TypedObject(codec, schema, mem)
    ensures WriteObject(codec, schema, mem, value, now, root).Some? ==>
      TypedObject(codec, schema, WriteObject(codec, schema, mem, value, now, root).value)
    decreases schema, 0
  {
    NormalizedParsed(codec, schema, value, now);
    var fields := Normalize(schema, value, now);
    hide Parsed, Normalize, TypedMember, TypedBlank, WellFormedMember, Precise, AllParsed;
    if fields.Some? { MembersWriteTyped(codec, schema.members, mem.fields, fields.value, now, root); }
  }

  /** Which values can be written to which kind, and what they become. */
  lemma ScalarsWriteIff(codec: Codec, kind: Kind, bound: nat, mem: Mem, value: Json, now: Now)
    requires value.Num? && value.n.NegInt? ==> value.n.i < 0
    ensures var r := WriteScalar(codec, kind, bound, mem, value, now);
      && (IntegerOf(kind).Some? ==> forall v: int ::
            (r == Some(Int(v)) <==> value == IntJson(v) && InRange(IntegerOf(kind).value, v)))
      && (IntegerOf(kind).Some? && r.Some? ==> r.value.Int?)
      && (kind.Float64? ==> (r.Some? <==> value.Num?))
      && (kind.Float32? ==> (r.Some? <==> value.Num? && codec.fitsFloat32(AsFloat(codec, value).value)))
      && (kind.Boolean? ==> forall b :: (r == Some(Flag(b)) <==> value == Bool(b)))
      && (kind.StringKind? ==> (r.Some? <==> value.Str? && (bound == 0 || |value.s| <= bound)))
      && (kind.StringKind? && r.Some? ==> r.value == Chars(value.s))
      && (kind.WStringKind? ==> (r.Some? <==> value.Str? && (bound == 0 || |codec.utf16(value.s)| <= bound)))
      && (kind.LongDouble? ==> r.None?)
  {
    Powers();
  }
}
