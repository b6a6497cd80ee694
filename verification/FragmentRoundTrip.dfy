/** Encoded fragments reassemble to the original, in any order and among other traffic (src/wire.rs). */
module FragmentRoundTrip {
  import opened Basics
  import opened Fragments
  import Chunking
  import Utf8

  datatype Arrival = Arrival(message: Message, now: nat)

  function DecodeAll(json: Json, a: Assemblies, arrivals: seq<Arrival>, limit: nat, timeout: nat)
    : (r: (Assemblies, seq<Result>))
    ensures |r.1| == |arrivals|
    decreases |arrivals|
  {
    if arrivals == [] then (a, [])
    else
      var last := |arrivals| - 1;
      var (before, results) := DecodeAll(json, a, arrivals[..last], limit, timeout);
      var (after, result) := Decode(json, before, arrivals[last].message, limit, arrivals[last].now, timeout);
      (after, results + [result])
  }

  /** The fragments of one text, and the conditions under which they travel. */
  datatype Transfer = Transfer(json: Json, id: string, chunks: seq<Text>, limit: nat, timeout: nat, since: nat)
  {
    ghost predicate Ready() {
      && 0 < |chunks| <= MAX_PARTS
      && |Chunking.Join(chunks)| <= limit
    }

    ghost predicate Covers(got: set<nat>) {
      forall i :: 0 <= i < |chunks| ==> i in got
    }

    ghost predicate Genuine(m: Message, i: nat) {
      && i < |chunks|
      && Parsed(json, m, limit) == Some(Fragment(Some(id), Some(|chunks|), Some(i), Some(chunks[i])))
    }

    ghost predicate Foreign(m: Message) {
      var value := Parsed(json, m, limit);
      value.Some? && value.value.Fragment? ==> value.value.id != Some(id)
    }

    /** The part of this text a message brings, if any. */
    ghost function Part(m: Message): set<nat> {
      set i | 0 <= i < |chunks| && Genuine(m, i)
    }

    ghost predicate Timely(arrival: Arrival) {
      && since <= arrival.now < since + timeout
      && (Foreign(arrival.message) || exists i: nat :: Genuine(arrival.message, i))
    }

    /** The text's own assembly is there, or fewer than 16 others are live just now. */
    ghost predicate RoomFor(a: Assemblies, now: nat) {
      id in Live(a, now, timeout) || |Live(a, now, timeout)| < MAX_ASSEMBLIES
    }

    /** What arrives now is no part of this text, or finds room. */
    ghost predicate Fits(a: Assemblies, arrival: Arrival) {
      Timely(arrival) && (Foreign(arrival.message) || RoomFor(a, arrival.now))
    }

    /** The decoder holds exactly the parts in `got`, and has room for them. */
    ghost predicate Holds(a: Assemblies, got: set<nat>) {
      && Valid(a, limit)
      && (got == {} <==> id !in a)
      && (id in a ==>
            && |a[id].parts| == |chunks|
            && since <= a[id].created
            && forall i :: 0 <= i < |chunks| ==> a[id].parts[i] == if i in got then Some(chunks[i]) else None)
    }
  }

  ghost function PartsOf(t: Transfer, arrivals: seq<Arrival>): set<nat>
    decreases |arrivals|
  {
    if arrivals == [] then {}
    else PartsOf(t, arrivals[..|arrivals| - 1]) + t.Part(arrivals[|arrivals| - 1].message)
  }

  lemma {:induction false} JoinDropLast(chunks: seq<Text>)
    requires chunks != []
    ensures Chunking.Join(chunks) == Chunking.Join(chunks[..|chunks| - 1]) + chunks[|chunks| - 1]
  {
    if |chunks| > 1 {
      JoinDropLast(chunks[1..]);
      assert chunks[1..][..|chunks| - 2] == chunks[..|chunks| - 1][1..];
    }
  }

  /** Parts of a text never count more bytes than the text. */
  lemma {:induction false} PresentWithin(parts: seq<Option<Text>>, chunks: seq<Text>)
    requires |parts| == |chunks|
    requires forall i :: 0 <= i < |chunks| ==> parts[i].None? || parts[i] == Some(chunks[i])
    ensures Present(parts) <= |Chunking.Join(chunks)|
  {
    if parts != [] {
      PresentWithin(parts[..|parts| - 1], chunks[..|parts| - 1]);
      JoinDropLast(chunks);
    }
  }

  lemma {:induction false} FlattenWhole(parts: seq<Option<Text>>, chunks: seq<Text>)
    requires |parts| == |chunks|
    requires forall i :: 0 <= i < |chunks| ==> parts[i] == Some(chunks[i])
    ensures Flatten(parts) == Chunking.Join(chunks)
  {
    if parts != [] {
      FlattenWhole(parts[1..], chunks[1..]);
    }
  }

  lemma LiveKeepsTransfer(t: Transfer, a: Assemblies, got: set<nat>, now: nat)
    requires t.Holds(a, got) && t.since <= now < t.since + t.timeout
    ensures t.Holds(Live(a, now, t.timeout), got)
  {
    LiveKeepsValid(a, t.limit, now, t.timeout);
  }

  /** What the assembly of this text looks like once part `i` is added. */
  lemma AddedPart(t: Transfer, a: Assemblies, got: set<nat>, i: nat, now: nat)
    requires t.Ready() && t.Holds(a, got) && i < |t.chunks|
    ensures var n := |t.chunks|;
      var x := if t.id in a then a[t.id] else Assembly(Blank(n), 0, now);
      && |x.parts| == n
      && var y := Add(x, i, t.chunks[i]);
      && |y.parts| == n
      && y.bytes <= t.limit
      && (forall k :: 0 <= k < n ==> y.parts[k] == if k in got + {i} then Some(t.chunks[k]) else None)
      && y.created == x.created
  {
    var n := |t.chunks|;
    var x := if t.id in a then a[t.id] else Assembly(Blank(n), 0, now);
    PresentBlank(n);
    AddKeepsBooks(x, i, t.chunks[i]);
    PresentWithin(Add(x, i, t.chunks[i]).parts, t.chunks);
  }

  /** With room for it, a part is added; the assembly then ends if it is whole. */
  lemma FilingAdds(t: Transfer, a: Assemblies, got: set<nat>, i: nat, now: nat)
    requires t.Ready() && t.Holds(a, got) && i < |t.chunks|
    requires t.id in a || |a| < MAX_ASSEMBLIES
    ensures var n := |t.chunks|;
      var x := if t.id in a then a[t.id] else Assembly(Blank(n), 0, now);
      var y := Add(x, i, t.chunks[i]);
      File(t.json, a, t.id, n, i, t.chunks[i], t.limit, now)
      == if IsWhole(y.parts) then (a - {t.id}, Assembled(t.json, Flatten(y.parts))) else (a[t.id := y], Incomplete)
  {
    hide Valid, Chunking.Join, Flatten, Present, Add, IsWhole;
    AddedPart(t, a, got, i, now);
  }

  lemma StillHeld(t: Transfer, a: Assemblies, got: set<nat>, i: nat, y: Assembly)
    requires t.Holds(a, got) && Valid(a[t.id := y], t.limit) && |y.parts| == |t.chunks| && t.since <= y.created
    requires forall k :: 0 <= k < |t.chunks| ==> y.parts[k] == if k in got + {i} then Some(t.chunks[k]) else None
    ensures t.Holds(a[t.id := y], got + {i})
  {
    hide Valid;
    assert i in got + {i};
  }

  lemma Released(t: Transfer, a: Assemblies, got: set<nat>)
    requires t.Holds(a, got) && Valid(a - {t.id}, t.limit)
    ensures t.Holds(a - {t.id}, {})
  {
    hide Valid;
  }

  lemma HeldFacts(t: Transfer, a: Assemblies, got: set<nat>)
    requires t.Holds(a, got)
    ensures Valid(a, t.limit) && (t.id in a ==> t.since <= a[t.id].created)
  {
    hide Valid;
  }

  lemma FilingPart(t: Transfer, a: Assemblies, got: set<nat>, i: nat, now: nat)
    requires t.Ready() && t.Holds(a, got) && i < |t.chunks| && t.since <= now
    requires t.id in a || |a| < MAX_ASSEMBLIES
    ensures var (a', result) := File(t.json, a, t.id, |t.chunks|, i, t.chunks[i], t.limit, now);
      && (t.Covers(got + {i}) ==> result == Assembled(t.json, Chunking.Join(t.chunks)) && t.Holds(a', {}))
      && (!t.Covers(got + {i}) ==> result == Incomplete && t.Holds(a', got + {i}))
  {
    hide File, Valid, Chunking.Join, Flatten, Present, Add, Transfer.Holds;
    var n := |t.chunks|;
    var x := if t.id in a then a[t.id] else Assembly(Blank(n), 0, now);
    HeldFacts(t, a, got);
    AddedPart(t, a, got, i, now);
    var y := Add(x, i, t.chunks[i]);
    FilingAdds(t, a, got, i, now);
    FileKeepsValid(t.json, a, t.id, n, i, t.chunks[i], t.limit, now);
    if t.Covers(got + {i}) {
      FlattenWhole(y.parts, t.chunks);
      Released(t, a, got);
    } else {
      var k :| 0 <= k < n && k !in got + {i};
      assert y.parts[k].None?;
      StillHeld(t, a, got, i, y);
    }
  }

  lemma ForeignFiling(a: Assemblies, json: Json, other: string, id: string, total: nat, num: nat, data: Text,
                      limit: nat, now: nat)
    requires other != id && num < total
    ensures var a' := File(json, a, other, total, num, data, limit, now).0;
      && (id in a' <==> id in a)
      && (id in a ==> a'[id] == a[id])
  {
  }

  lemma ForeignStep(t: Transfer, a: Assemblies, got: set<nat>, m: Message, now: nat)
    requires t.Holds(a, got) && t.Foreign(m) && t.since <= now < t.since + t.timeout
    ensures t.Holds(Decode(t.json, a, m, t.limit, now, t.timeout).0, got)
  {
    hide Valid;
    LiveKeepsTransfer(t, a, got, now);
    DecodeKeepsValid(t.json, a, m, t.limit, now, t.timeout);
    var live := Live(a, now, t.timeout);
    match Parsed(t.json, m, t.limit)
    case Some(Fragment(Some(other), Some(total), Some(num), Some(data))) =>
      if total > 0 && total <= MAX_PARTS && num < total {
        ForeignFiling(live, t.json, other, t.id, total, num, data, t.limit, now);
      }
    case _ =>
      assert Decode(t.json, a, m, t.limit, now, t.timeout).0 == live;
  }

  lemma GenuineIsPart(t: Transfer, m: Message, i: nat)
    requires t.Genuine(m, i)
    ensures t.Part(m) == {i}
  {
  }

  lemma GenuineIsFiled(t: Transfer, a: Assemblies, m: Message, i: nat, now: nat)
    requires t.Ready() && t.Genuine(m, i)
    ensures Decode(t.json, a, m, t.limit, now, t.timeout)
         == File(t.json, Live(a, now, t.timeout), t.id, |t.chunks|, i, t.chunks[i], t.limit, now)
  {
  }

  lemma GenuineStep(t: Transfer, a: Assemblies, got: set<nat>, m: Message, i: nat, now: nat)
    requires t.Ready() && t.Holds(a, got) && t.Genuine(m, i) && t.since <= now < t.since + t.timeout
    requires t.RoomFor(a, now)
    ensures var (a', result) := Decode(t.json, a, m, t.limit, now, t.timeout);
      && (t.Covers(got + {i}) ==> result == Assembled(t.json, Chunking.Join(t.chunks)) && t.Holds(a', {}))
      && (!t.Covers(got + {i}) ==> result == Incomplete && t.Holds(a', got + {i}))
  {
    LiveKeepsTransfer(t, a, got, now);
    GenuineIsFiled(t, a, m, i, now);
    FilingPart(t, Live(a, now, t.timeout), got, i, now);
  }

  lemma ArrivalStep(t: Transfer, a: Assemblies, got: set<nat>, m: Message, now: nat)
    requires t.Ready() && t.Holds(a, got) && t.Fits(a, Arrival(m, now))
    requires !t.Covers(got + t.Part(m))
    ensures var (a', result) := Decode(t.json, a, m, t.limit, now, t.timeout);
      && t.Holds(a', got + t.Part(m))
      && forall i: nat :: t.Genuine(m, i) ==> result == Incomplete
  {
    if i: nat :| t.Genuine(m, i) {
      GenuineIsPart(t, m, i);
      GenuineStep(t, a, got, m, i, now);
    } else {
      ForeignStep(t, a, got, m, now);
      assert got + t.Part(m) == got;
    }
  }

  lemma CoversMonotone(t: Transfer, small: set<nat>, big: set<nat>)
    requires small <= big && !t.Covers(big)
    ensures !t.Covers(small)
  {
  }

  ghost predicate Unanswered(t: Transfer, arrivals: seq<Arrival>, results: seq<Result>) {
    && |results| == |arrivals|
    && forall k, i: nat :: 0 <= k < |arrivals| && t.Genuine(arrivals[k].message, i) ==> results[k] == Incomplete
  }

  lemma UnansweredSnoc(t: Transfer, arrivals: seq<Arrival>, results: seq<Result>, arrival: Arrival, result: Result)
    requires Unanswered(t, arrivals, results)
    requires forall i: nat :: t.Genuine(arrival.message, i) ==> result == Incomplete
    ensures Unanswered(t, arrivals + [arrival], results + [result])
  {
  }

  /** Everything that arrives fits at its moment; foreign assemblies may come and go. */
  ghost predicate Travels(t: Transfer, a: Assemblies, arrivals: seq<Arrival>)
    decreases |arrivals|
  {
    arrivals != [] ==>
      var last := |arrivals| - 1;
      && Travels(t, a, arrivals[..last])
      && t.Fits(DecodeAll(t.json, a, arrivals[..last], t.limit, t.timeout).0, arrivals[last])
  }

  ghost predicate Accumulated(t: Transfer, a: Assemblies, got: set<nat>, arrivals: seq<Arrival>) {
    var (a', results) := DecodeAll(t.json, a, arrivals, t.limit, t.timeout);
    t.Holds(a', got + PartsOf(t, arrivals)) && Unanswered(t, arrivals, results)
  }

  lemma PartsSnoc(t: Transfer, got: set<nat>, prefix: seq<Arrival>, arrival: Arrival)
    ensures got + PartsOf(t, prefix + [arrival]) == (got + PartsOf(t, prefix)) + t.Part(arrival.message)
  {
    assert (prefix + [arrival])[..|prefix|] == prefix;
  }

  lemma DecodeSnoc(t: Transfer, a: Assemblies, prefix: seq<Arrival>, arrival: Arrival)
    ensures var (before, results) := DecodeAll(t.json, a, prefix, t.limit, t.timeout);
      var (after, result) := Decode(t.json, before, arrival.message, t.limit, arrival.now, t.timeout);
      DecodeAll(t.json, a, prefix + [arrival], t.limit, t.timeout) == (after, results + [result])
  {
    assert (prefix + [arrival])[..|prefix|] == prefix;
  }

  lemma AccumulateOne(t: Transfer, a: Assemblies, got: set<nat>, prefix: seq<Arrival>, arrival: Arrival)
    requires t.Ready() && Accumulated(t, a, got, prefix)
    requires t.Fits(DecodeAll(t.json, a, prefix, t.limit, t.timeout).0, arrival)
    requires !t.Covers(got + PartsOf(t, prefix + [arrival]))
    ensures Accumulated(t, a, got, prefix + [arrival])
  {
    PartsSnoc(t, got, prefix, arrival);
    DecodeSnoc(t, a, prefix, arrival);
    var (before, results) := DecodeAll(t.json, a, prefix, t.limit, t.timeout);
    ArrivalStep(t, before, got + PartsOf(t, prefix), arrival.message, arrival.now);
    var result := Decode(t.json, before, arrival.message, t.limit, arrival.now, t.timeout).1;
    UnansweredSnoc(t, prefix, results, arrival, result);
  }

  /** Until the last missing part arrives, every part of the text is answered with `None`. */
  lemma {:induction false} PartsAccumulate(t: Transfer, a: Assemblies, got: set<nat>, arrivals: seq<Arrival>)
    requires t.Ready() && t.Holds(a, got) && Travels(t, a, arrivals)
    requires !t.Covers(got + PartsOf(t, arrivals))
    ensures Accumulated(t, a, got, arrivals)
    decreases |arrivals|
  {
    if arrivals == [] {
      assert got + {} == got;
    } else {
      assert arrivals == arrivals[..|arrivals| - 1] + [arrivals[|arrivals| - 1]];
      CoversMonotone(t, got + PartsOf(t, arrivals[..|arrivals| - 1]), got + PartsOf(t, arrivals));
      PartsAccumulate(t, a, got, arrivals[..|arrivals| - 1]);
      AccumulateOne(t, a, got, arrivals[..|arrivals| - 1], arrivals[|arrivals| - 1]);
    }
  }

  /** And the last missing part yields exactly the text, whatever came before or between. */
  lemma LastPartCompletes(t: Transfer, a: Assemblies, got: set<nat>, before: seq<Arrival>, final: Arrival, i: nat)
    requires t.Ready() && t.Holds(a, got) && Travels(t, a, before + [final])
    requires !t.Covers(got + PartsOf(t, before))
    requires t.Genuine(final.message, i)
    requires t.Covers(got + PartsOf(t, before) + {i})
    ensures var (a', results) := DecodeAll(t.json, a, before + [final], t.limit, t.timeout);
      && results[|before|] == Assembled(t.json, Chunking.Join(t.chunks))
      && t.Holds(a', {})
      && results[..|before|] == DecodeAll(t.json, a, before, t.limit, t.timeout).1
  {
    assert (before + [final])[..|before|] == before;
    PartsAccumulate(t, a, got, before);
    var held := DecodeAll(t.json, a, before, t.limit, t.timeout).0;
    GenuineStep(t, held, got + PartsOf(t, before), final.message, i, final.now);
  }

  /** Frame `i` of an encoded text is a genuine part, if the decoder accepts its size. */
  lemma {:induction false} FramesAreGenuine(json: Json, id: string, chunks: seq<Text>, total: nat, from: nat, i: nat)
    requires json.Lawful() && i < |chunks|
    ensures |FragmentFrames(json, id, chunks, total, from)| == |chunks|
    ensures var frame := FragmentFrames(json, id, chunks, total, from)[i];
      && frame.TextMessage?
      && json.parse(frame.text) == Some(Fragment(Some(id), Some(total), Some(from + i), Some(chunks[i])))
    decreases |chunks|
  {
    if i > 0 {
      FramesAreGenuine(json, id, chunks[1..], total, from + 1, i - 1);
    } else if |chunks| > 1 {
      FramesAreGenuine(json, id, chunks[1..], total, from + 1, 0);
    }
  }

  /** The transfer of one encoded operation. */
  function TransferOf(json: Json, content: nat, fragment: nat, id: string, limit: nat, timeout: nat,
                      since: nat): Transfer
    requires Chunking.Chunks(json.print_(Operation(content)), 0, fragment).Some?
  {
    Transfer(json, id, Chunking.Chunks(json.print_(Operation(content)), 0, fragment).value,
             limit, timeout, since)
  }

  /** Encoding with a fragment limit below the text size makes every frame a genuine part. */
  lemma EncodingStartsTransfer(json: Json, content: nat, fragment: nat, id: string, limit: nat, timeout: nat,
                               since: nat)
    returns (frames: seq<Message>)
    requires json.Lawful()
    requires fragment < |json.print_(Operation(content))| <= limit
    requires EncodeText(json, json.print_(Operation(content)), Some(fragment), id).Some?
    requires var frames := EncodeText(json, json.print_(Operation(content)), Some(fragment), id).value;
      && |frames| <= MAX_PARTS
      && forall k :: 0 <= k < |frames| && frames[k].TextMessage? ==> |frames[k].text| <= limit
    ensures Some(frames) == EncodeText(json, json.print_(Operation(content)), Some(fragment), id)
    ensures var t := TransferOf(json, content, fragment, id, limit, timeout, since);
      && t.Ready()
      && Chunking.Join(t.chunks) == json.print_(Operation(content))
      && |frames| == |t.chunks|
      && forall k :: 0 <= k < |frames| ==> t.Genuine(frames[k], k)
  {
    var text := json.print_(Operation(content));
    var t := TransferOf(json, content, fragment, id, limit, timeout, since);
    frames := FragmentFrames(json, id, t.chunks, |t.chunks|, 0);
    Chunking.ChunksAreASplit(text, 0, fragment);
    assert text[0..] == text;
    FramesAreGenuine(json, id, t.chunks, |t.chunks|, 0, 0);
    forall k | 0 <= k < |t.chunks|
      ensures t.Genuine(frames[k], k)
    {
      FramesAreGenuine(json, id, t.chunks, |t.chunks|, 0, k);
    }
  }

  /**
   The round trip: encode a value's text in fragments, deliver them in any order, with
   repeats, among frames of other ids, to any decoder that holds nothing under this id; the
   last missing one yields the value, the others nothing. All the decoder needs is room for
   one more assembly when the text's first part arrives.
   */
  lemma RoundTrip(json: Json, content: nat, fragment: nat, id: string, limit: nat, timeout: nat, since: nat,
                  a: Assemblies, before: seq<Arrival>, final: Arrival, i: nat)
    requires json.Lawful() && Valid(a, limit) && id !in a
    requires fragment < |json.print_(Operation(content))| <= limit
    requires EncodeText(json, json.print_(Operation(content)), Some(fragment), id).Some?
    requires var frames := EncodeText(json, json.print_(Operation(content)), Some(fragment), id).value;
      && |frames| <= MAX_PARTS
      && (forall k :: 0 <= k < |frames| && frames[k].TextMessage? ==> |frames[k].text| <= limit)
      && i < |frames| && final.message == frames[i]
    requires var t := TransferOf(json, content, fragment, id, limit, timeout, since);
      && Travels(t, a, before + [final])
      && !t.Covers(PartsOf(t, before))
      && t.Covers(PartsOf(t, before) + {i})
    ensures var t := TransferOf(json, content, fragment, id, limit, timeout, since);
      var (a', results) := DecodeAll(json, a, before + [final], limit, timeout);
      && results[|before|] == Complete(Operation(content))
      && id !in a'
      && Unanswered(t, before, results[..|before|])
  {
    var t := TransferOf(json, content, fragment, id, limit, timeout, since);
    var frames := EncodingStartsTransfer(json, content, fragment, id, limit, timeout, since);
    assert t.Genuine(frames[i], i);
    assert {} + PartsOf(t, before) == PartsOf(t, before);
    assert (before + [final])[..|before|] == before;
    PartsAccumulate(t, a, {}, before);
    LastPartCompletes(t, a, {}, before, final, i);
  }
}
