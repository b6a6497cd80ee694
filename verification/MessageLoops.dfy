/** Reading and writing messages member by member and element by element (src/ros/message.rs). */
module MessageLoops {
  import opened Basics
  import opened Utf8
  import opened Values
  import opened Messages

  lemma PrefixOfPrefix<T>(xs: seq<T>, i: nat, n: nat)
    requires i < n <= |xs|
    ensures xs[..n][..n - 1] == xs[..n - 1] && xs[..n][n - 1] == xs[n - 1]
  {
  }

  // ---------- reading ----------

  lemma {:induction false} UnreadableMember(codec: Codec, members: seq<Member>, mems: seq<Mem>, i: nat, n: nat)
    requires i < n <= |members| == |mems| && ReadField(codec, members[i], mems[i]).None?
    ensures ReadMembers(codec, members[..n], mems[..n]).None?
    decreases n
  {
    hide ReadField;
    PrefixOfPrefix(members, i, n);
    PrefixOfPrefix(mems, i, n);
    if i < n - 1 { UnreadableMember(codec, members, mems, i, n - 1); }
  }

  lemma NextMember(codec: Codec, members: seq<Member>, mems: seq<Mem>, i: nat)
    requires i < |members| == |mems| && ReadMembers(codec, members[..i], mems[..i]).Some?
    requires ReadField(codec, members[i], mems[i]).Some?
    ensures var (fields, entries) := ReadMembers(codec, members[..i], mems[..i]).value;
      var (j, c) := ReadField(codec, members[i], mems[i]).value;
      ReadMembers(codec, members[..i + 1], mems[..i + 1])
      == Some((Insert(fields, members[i].name, j), entries + [Entry(CText(members[i].name), c)]))
  {
    hide ReadField, Insert;
    PrefixOfPrefix(members, 0, i + 1);
    PrefixOfPrefix(mems, 0, i + 1);
  }

  /** `read_object`: both forms grow by one entry per member. */
  method ReadStruct(codec: Codec, schema: Schema, mem: Mem) returns (r: Option<(Json, Cbor)>)
    ensures r == ReadObject(codec, schema, mem)
    decreases schema, 0
  {
    hide ReadField;
    if !mem.Struct? { return None; }
    var members, mems := schema.members, mem.fields;
    if |mems| != |members| {
      assert ReadMembers(codec, members, mems).None? || members == [];
      if members != [] { return None; }
      return Some((Obj([]), CMap([])));
    }
    var fields: seq<Field> := [];
    var entries: seq<Entry> := [];
    var i := 0;
    while i < |members|
      invariant 0 <= i <= |members|
      invariant ReadMembers(codec, members[..i], mems[..i]) == Some((fields, entries))
    {
      var read := ReadMember(codec, members[i], mems[i]);
      if read.None? {
        UnreadableMember(codec, members, mems, i, |members|);
        assert members[..|members|] == members && mems[..|mems|] == mems;
        return None;
      }
      NextMember(codec, members, mems, i);
      fields := Insert(fields, members[i].name, read.value.0);
      entries := entries + [Entry(CText(members[i].name), read.value.1)];
      i := i + 1;
    }
    assert members[..|members|] == members && mems[..|mems|] == mems;
    return Some((Obj(fields), CMap(entries)));
  }

  lemma {:induction false} UnreadableElement(codec: Codec, kind: Kind, items: seq<Mem>, i: nat, n: nat)
    requires i < n <= |items| && ReadScalar(codec, kind, items[i]).None?
    ensures ReadElements(codec, kind, items[..n]).None?
    decreases n
  {
    hide ReadScalar;
    PrefixOfPrefix(items, i, n);
    if i < n - 1 { UnreadableElement(codec, kind, items, i, n - 1); }
  }

  lemma {:induction false} PackOneMore(kind: Kind, items: seq<Mem>, mem: Mem)
    ensures PackAll(kind, items + [mem]) == PackAll(kind, items) + Pack(kind, mem)
  {
    hide Pack;
    if items == [] {
      assert items + [mem] == [mem];
    } else {
      assert (items + [mem])[1..] == items[1..] + [mem];
      PackOneMore(kind, items[1..], mem);
    }
  }

  lemma NextElement(codec: Codec, kind: Kind, items: seq<Mem>, i: nat)
    requires i < |items| && ReadElements(codec, kind, items[..i]).Some? && ReadScalar(codec, kind, items[i]).Some?
    ensures var (jsons, cbors) := ReadElements(codec, kind, items[..i]).value;
      var (j, c) := ReadScalar(codec, kind, items[i]).value;
      ReadElements(codec, kind, items[..i + 1]) == Some((jsons + [j], cbors + [c]))
  {
    hide ReadScalar;
    PrefixOfPrefix(items, 0, i + 1);
  }

  lemma NextPacked(kind: Kind, items: seq<Mem>, i: nat)
    requires i < |items|
    ensures PackAll(kind, items[..i + 1]) == PackAll(kind, items[..i]) + Pack(kind, items[i])
  {
    hide Pack, PackAll;
    assert items[..i + 1] == items[..i] + [items[i]];
    PackOneMore(kind, items[..i], items[i]);
  }

  /** `read_field`: an array is read element by element, its packed bytes alongside. */
  method ReadMember(codec: Codec, member: Member, mem: Mem) returns (r: Option<(Json, Cbor)>)
    ensures r == ReadField(codec, member, mem)
    decreases member, 0
  {
    hide ReadScalar, Pack;
    if member.shape.Single? {
      r := ReadValue(codec, member.kind, mem);
      return;
    }
    if !mem.Elements? { return None; }
    var items := mem.items;
    var jsons: seq<Json> := [];
    var cbors: seq<Cbor> := [];
    var bytes: seq<Byte> := [];
    var i := 0;
    while i < |items|
      invariant 0 <= i <= |items|
      invariant ReadElements(codec, member.kind, items[..i]) == Some((jsons, cbors))
      invariant bytes == PackAll(member.kind, items[..i])
    {
      var read := ReadValue(codec, member.kind, items[i]);
      if read.None? {
        UnreadableElement(codec, member.kind, items, i, |items|);
        assert items[..|items|] == items;
        return None;
      }
      NextElement(codec, member.kind, items, i);
      NextPacked(member.kind, items, i);
      jsons, cbors := jsons + [read.value.0], cbors + [read.value.1];
      bytes := bytes + Pack(member.kind, items[i]);
      i := i + 1;
    }
    assert items[..|items|] == items;
    if IsBinary(member.kind) {
      return Some((Str(codec.base64(bytes)), CBytes(bytes)));
    }
    if member.shape.Sequence? && TagOf(member.kind).Some? {
      return Some((Arr(jsons), CTag(TagOf(member.kind).value, CBytes(bytes))));
    }
    return Some((Arr(jsons), CArray(cbors)));
  }

  method ReadValue(codec: Codec, kind: Kind, mem: Mem) returns (r: Option<(Json, Cbor)>)
    ensures r == ReadScalar(codec, kind, mem)
    decreases kind, 0
  {
    if kind.Nested? {
      r := ReadStruct(codec, kind.schema, mem);
    } else {
      r := ReadScalar(codec, kind, mem);
    }
  }

  // ---------- writing ----------

  lemma {:induction false} UnwritableMember(codec: Codec, members: seq<Member>, mems: seq<Mem>, fields: seq<Field>,
                                            now: Now, root: bool, i: nat, n: nat)
    requires i < n <= |members| == |mems|
    requires WriteMember(codec, members[i], mems[i], Lookup(fields, members[i].name), now, root).None?
    ensures WriteMembers(codec, members[..n], mems[..n], fields, now, root).None?
    decreases n
  {
    hide WriteMember, Lookup;
    PrefixOfPrefix(members, i, n);
    PrefixOfPrefix(mems, i, n);
    if i < n - 1 { UnwritableMember(codec, members, mems, fields, now, root, i, n - 1); }
  }

  lemma NextWritten(codec: Codec, members: seq<Member>, mems: seq<Mem>, fields: seq<Field>, now: Now, root: bool,
                    i: nat)
    requires i < |members| == |mems| && WriteMembers(codec, members[..i], mems[..i], fields, now, root).Some?
    requires WriteMember(codec, members[i], mems[i], Lookup(fields, members[i].name), now, root).Some?
    ensures WriteMembers(codec, members[..i + 1], mems[..i + 1], fields, now, root)
         == Some(WriteMembers(codec, members[..i], mems[..i], fields, now, root).value
                 + [WriteMember(codec, members[i], mems[i], Lookup(fields, members[i].name), now, root).value])
  {
    hide WriteMember, Lookup;
    PrefixOfPrefix(members, 0, i + 1);
    PrefixOfPrefix(mems, 0, i + 1);
  }

  lemma NothingWritten(codec: Codec, members: seq<Member>, mems: seq<Mem>, fields: seq<Field>, now: Now, root: bool)
    requires |members| == |mems|
    ensures WriteMembers(codec, members[..0], mems[..0], fields, now, root) == Some(mems[..0])
  {
  }

  /** `write_object`: members are written in declaration order over the memory there was. */
  method WriteStruct(codec: Codec, schema: Schema, mem: Mem, value: Json, now: Now,
                     root: bool) returns (r: Option<Mem>)
    ensures r == WriteObject(codec, schema, mem, value, now, root)
    decreases schema, 0
  {
    hide WriteMember, WriteMembers, Normalize, KnowsKeys, Lookup, FieldsOf;
    var fields := Normalize(schema, value, now);
    if fields.None? || !KnowsKeys(schema.members, fields.value) { return None; }
    var members, before := schema.members, FieldsOf(schema, mem);
    var mems := before;
    var i := 0;
    NothingWritten(codec, members, before, fields.value, now, root);
    while i < |members|
      invariant 0 <= i <= |members| == |mems|
      invariant WriteMembers(codec, members[..i], before[..i], fields.value, now, root) == Some(mems[..i])
      invariant forall k :: i <= k < |mems| ==> mems[k] == before[k]
    {
      var written := WriteOne(codec, members[i], mems[i], Lookup(fields.value, members[i].name), now, root);
      if written.None? {
        UnwritableMember(codec, members, before, fields.value, now, root, i, |members|);
        assert members[..|members|] == members && before[..|before|] == before;
        return None;
      }
      NextWritten(codec, members, before, fields.value, now, root, i);
      ghost var old_ := mems;
      mems := mems[i := written.value];
      assert mems[..i + 1] == old_[..i] + [written.value];
      i := i + 1;
    }
    assert members[..|members|] == members && before[..|before|] == before && mems[..|mems|] == mems;
    return Some(Struct(mems));
  }

  method WriteOne(codec: Codec, member: Member, mem: Mem, value: Option<Json>, now: Now,
                  root: bool) returns (r: Option<Mem>)
    ensures r == WriteMember(codec, member, mem, value, now, root)
    decreases member, 1
  {
    hide WriteField;
    var v := value;
    if IsRootHeader(member, root) {
      var header := if value.Some? then value.value else Obj([]);
      if !header.Obj? { return None; }
      v := Some(Obj(OrInsert(header.fields, STAMP, Stamp(now))));
    }
    if v.None? { return Some(mem); }
    r := WriteArrayOrValue(codec, member, mem, v.value, now);
  }

  lemma {:induction false} UnwritableElement(codec: Codec, kind: Kind, stringBound: nat, mems: seq<Mem>,
                                             values: seq<Json>,
                                             now: Now, i: nat, n: nat)
    requires i < n <= |values| == |mems| && WriteScalar(codec, kind, stringBound, mems[i], values[i], now).None?
    ensures WriteElements(codec, kind, stringBound, mems[..n], values[..n], now).None?
    decreases n
  {
    hide WriteScalar;
    PrefixOfPrefix(values, i, n);
    PrefixOfPrefix(mems, i, n);
    if i < n - 1 { UnwritableElement(codec, kind, stringBound, mems, values, now, i, n - 1); }
  }

  lemma NextElementWritten(codec: Codec, kind: Kind, stringBound: nat, mems: seq<Mem>, values: seq<Json>, now: Now,
                           i: nat)
    requires i < |values| == |mems| && WriteElements(codec, kind, stringBound, mems[..i], values[..i], now).Some?
    requires WriteScalar(codec, kind, stringBound, mems[i], values[i], now).Some?
    ensures WriteElements(codec, kind, stringBound, mems[..i + 1], values[..i + 1], now)
         == Some(WriteElements(codec, kind, stringBound, mems[..i], values[..i], now).value
                 + [WriteScalar(codec, kind, stringBound, mems[i], values[i], now).value])
  {
    hide WriteScalar;
    PrefixOfPrefix(values, 0, i + 1);
    PrefixOfPrefix(mems, 0, i + 1);
  }

  method WriteArray(codec: Codec, kind: Kind, stringBound: nat, start: seq<Mem>, values: seq<Json>, now: Now)
    returns (r: Option<seq<Mem>>)
    requires |start| == |values|
    ensures r == WriteElements(codec, kind, stringBound, start, values, now)
    decreases kind, 1
  {
    hide WriteScalar;
    var items := start;
    var i := 0;
    while i < |values|
      invariant 0 <= i <= |values| == |items|
      invariant WriteElements(codec, kind, stringBound, start[..i], values[..i], now) == Some(items[..i])
      invariant forall k :: i <= k < |items| ==> items[k] == start[k]
    {
      var written := WriteValue(codec, kind, stringBound, items[i], values[i], now);
      if written.None? {
        UnwritableElement(codec, kind, stringBound, start, values, now, i, |values|);
        assert values[..|values|] == values && start[..|start|] == start;
        return None;
      }
      NextElementWritten(codec, kind, stringBound, start, values, now, i);
      ghost var old_ := items;
      items := items[i := written.value];
      assert items[..i + 1] == old_[..i] + [written.value];
      i := i + 1;
    }
    assert values[..|values|] == values && start[..|start|] == start && items[..|items|] == items;
    return Some(items);
  }

  /** `write_field`: lengths are checked before the first element is written. */
  method WriteArrayOrValue(codec: Codec, member: Member, mem: Mem, value: Json, now: Now) returns (r: Option<Mem>)
    ensures r == WriteField(codec, member, mem, value, now)
    decreases member, 0
  {
    hide WriteScalar, WriteElements;
    if member.shape.Single? {
      r := WriteValue(codec, member.kind, member.stringBound, mem, value, now);
      return;
    }
    var values := ArrayValues(codec, member.kind, value);
    if values.None? { return None; }
    var list := values.value;
    if member.shape.Fixed? && |list| != member.shape.size { return None; }
    if member.shape.Sequence? && member.shape.bound != 0 && |list| > member.shape.bound { return None; }
    var start := if member.shape.Fixed? && mem.Elements? && |mem.items| == |list| then mem.items
                 else seq(|list|, _ => member.blank);
    var items := WriteArray(codec, member.kind, member.stringBound, start, list, now);
    if items.None? { return None; }
    return Some(Elements(items.value));
  }

  method WriteValue(codec: Codec, kind: Kind, stringBound: nat, mem: Mem, value: Json,
                    now: Now) returns (r: Option<Mem>)
    ensures r == WriteScalar(codec, kind, stringBound, mem, value, now)
    decreases kind, 0
  {
    if kind.Nested? {
      r := WriteStruct(codec, kind.schema, mem, value, now, false);
    } else {
      r := WriteScalar(codec, kind, stringBound, mem, value, now);
    }
  }
}
