/** The encoder's frame loop and the decoder with its table of assemblies (src/wire.rs). */
module FragmentDecoder {
  import opened Basics
  import opened Fragments
  import Chunking

  /** The text branch of `encode`: chunk, then number the pieces. */
  method Encode(json: Json, text: Text, fragment: Option<nat>, id: string) returns (frames: Option<seq<Message>>)
    requires fragment.Some? ==> fragment.value > 0
    ensures frames == EncodeText(json, text, fragment, id)
  {
    if fragment.None? || |text| <= fragment.value {
      return Some([TextMessage(text)]);
    }
    var chunks := Chunking.Split(text, fragment.value);
    if chunks.None? {
      return None;
    }
    var total := |chunks.value|;
    var result: seq<Message> := [];
    for i := total downto 0
      invariant result == FragmentFrames(json, id, chunks.value[i..], total, i)
    {
      assert chunks.value[i..][1..] == chunks.value[i + 1..];
      result := [TextMessage(json.print_(Fragment(Some(id), Some(total), Some(i), Some(chunks.value[i]))))] + result;
    }
    assert chunks.value[0..] == chunks.value;
    return Some(result);
  }

  class Decoder {
    var fragments: Assemblies
    const timeout: nat

    constructor (timeout: nat)
      ensures fragments == map[] && this.timeout == timeout
    {
      fragments := map[];
      this.timeout := timeout;
    }

    method DecodeMessage(json: Json, message: Message, limit: nat, now: nat) returns (result: Result)
      modifies this
      ensures (fragments, result) == Decode(json, old(fragments), message, limit, now, timeout)
    {
      fragments := map id | id in fragments && now < fragments[id].created + timeout :: fragments[id];
      var value: Value;
      match message {
        case OtherMessage => return Incomplete;
        case TextMessage(text) =>
          if |text| > limit { return Failed(MessageTooLarge); }
          var parsed := json.parse(text);
          if parsed.None? { return Failed(Unparsable); }
          value := parsed.value;
        case BinaryMessage(size, parsed) =>
          if size > limit { return Failed(MessageTooLarge); }
          if parsed.None? { return Failed(Unparsable); }
          value := parsed.value;
      }
      if value.NotAnObject? { return Failed(ObjectExpected); }
      if value.Operation? { return Complete(value); }
      if value.id.None? { return Failed(IdRequired); }
      if value.total.None? { return Failed(TotalRequired); }
      if value.num.None? { return Failed(NumRequired); }
      if value.data.None? { return Failed(DataRequired); }
      if !(value.total.value > 0 && value.total.value <= MAX_PARTS && value.num.value < value.total.value) {
        return Failed(InvalidIndices);
      }
      result := FilePart(json, value.id.value, value.total.value, value.num.value, value.data.value, limit, now);
    }

    method FilePart(json: Json, id: string, total: nat, num: nat, data: Text, limit: nat, now: nat)
      returns (result: Result)
      requires num < total
      modifies this
      ensures (fragments, result) == File(json, old(fragments), id, total, num, data, limit, now)
    {
      if !(|fragments| < MAX_ASSEMBLIES || id in fragments) {
        return Failed(TooManyAssemblies);
      }
      var existing := id in fragments;
      var a := if existing then fragments[id] else Assembly(Blank(total), 0, now);
      if |a.parts| != total {
        return Failed(TotalChanged);
      }
      if a.parts[num].None? {
        a := a.(bytes := a.bytes + |data|, parts := a.parts[num := Some(data)]);
      }
      fragments := fragments[id := a];
      if a.bytes > limit {
        fragments := fragments - {id};
        assert fragments == old(fragments) - {id};
        return Failed(AssembledTooLarge);
      }
      var whole, text := Collect(a.parts);
      if whole {
        fragments := fragments - {id};
        assert fragments == old(fragments) - {id};
        var value := json.parse(text);
        if value.None? { return Failed(Unparsable); }
        if value.value.Operation? { return Complete(value.value); }
        return Failed(InvalidAssembledOperation);
      }
      return Incomplete;
    }

    /** Are all parts present, and if so their concatenation. */
    static method Collect(parts: seq<Option<Text>>) returns (whole: bool, text: Text)
      ensures whole <==> IsWhole(parts)
      ensures whole ==> text == Flatten(parts)
    {
      text := [];
      for i := |parts| downto 0
        invariant IsWhole(parts[i..])
        invariant text == Flatten(parts[i..])
      {
        if parts[i].None? {
          return false, [];
        }
        assert parts[i..][1..] == parts[i + 1..];
        assert forall k :: 0 < k < |parts[i..]| ==> parts[i..][k] == parts[i + 1..][k - 1];
        text := parts[i].value + text;
      }
      assert parts[0..] == parts;
      return true, text;
    }
  }
}
