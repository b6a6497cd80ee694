/** What each message decodes to, and that whatever is encoded is decoded again (src/wire.rs). */
module FragmentOutcomes {
  import opened Basics
  import opened Fragments
  import opened FragmentRoundTrip
  import Chunking

  // ---------- what a fragment meets ----------

  predicate HasAllFields(v: Value) {
    v.Fragment? && v.id.Some? && v.total.Some? && v.num.Some? && v.data.Some?
  }

  /** All fields are there, and the indices make sense. */
  predicate WellNumbered(v: Value) {
    HasAllFields(v) && 0 < v.total.value <= 65536 && v.num.value < v.total.value
  }

  /** Its assembly is there, or may be started: fewer than 16 are live. */
  predicate HasPlace(live: Assemblies, id: string) {
    id in live || |live| < 16
  }

  /** The parts of its text that are there already. */
  function PartsBefore(live: Assemblies, v: Value): seq<Option<Text>>
    requires HasAllFields(v)
  {
    if v.id.value in live then live[v.id.value].parts else Blank(v.total.value)
  }

  predicate SameTotal(live: Assemblies, v: Value)
    requires HasAllFields(v)
  {
    |PartsBefore(live, v)| == v.total.value
  }

  /** With it, the text as far as it is there; the first copy of a part counts. */
  function PartsWith(live: Assemblies, v: Value): seq<Option<Text>>
    requires WellNumbered(v) && SameTotal(live, v)
  {
    var before := PartsBefore(live, v);
    if before[v.num.value].Some? then before else before[v.num.value := v.data]
  }

  predicate Overflows(live: Assemblies, v: Value, limit: nat)
    requires WellNumbered(v) && SameTotal(live, v)
  {
    Present(PartsWith(live, v)) > limit
  }

  /** The fragment is taken in. */
  predicate IsFiled(live: Assemblies, v: Value, limit: nat) {
    WellNumbered(v) && HasPlace(live, v.id.value) && SameTotal(live, v) && !Overflows(live, v, limit)
  }

  /** ... and is the last one missing. */
  predicate IsLast(live: Assemblies, v: Value, limit: nat) {
    IsFiled(live, v, limit) && IsWhole(PartsWith(live, v))
  }

  function WholeText(live: Assemblies, v: Value): Text
    requires WellNumbered(v) && SameTotal(live, v)
  {
    Flatten(PartsWith(live, v))
  }

  predicate TooLarge(m: Message, limit: nat) {
    (m.TextMessage? && |m.text| > limit) || (m.BinaryMessage? && m.size > limit)
  }

  lemma FilingIs(json: Json, live: Assemblies, v: Value, limit: nat, now: nat)
    requires Valid(live, limit) && WellNumbered(v) && HasPlace(live, v.id.value) && SameTotal(live, v)
    ensures var id := v.id.value;
      var (after, result) := File(json, live, id, v.total.value, v.num.value, v.data.value, limit, now);
      if Overflows(live, v, limit) then after == live - {id} && result == Failed(AssembledTooLarge)
      else if IsWhole(PartsWith(live, v)) then after == live - {id} && result == Assembled(json, WholeText(live, v))
      else
        && id in after && after == live[id := after[id]] && result == Incomplete
        && after[id].parts == PartsWith(live, v) && after[id].created == if id in live then live[id].created else now
  {
    hide Present, IsWhole, Flatten, Assembled;
    var id := v.id.value;
    ValidParts(live, id, limit);
    PresentBlank(v.total.value);
    var x := if id in live then live[id] else Assembly(Blank(v.total.value), 0, now);
    AddKeepsBooks(x, v.num.value, v.data.value);
  }

  lemma FailedFiling(json: Json, live: Assemblies, v: Value, limit: nat, now: nat)
    requires Valid(live, limit) && WellNumbered(v) && !(HasPlace(live, v.id.value) && SameTotal(live, v))
    ensures File(json, live, v.id.value, v.total.value, v.num.value, v.data.value, limit, now)
         == (live, Failed(if HasPlace(live, v.id.value) then TotalChanged else TooManyAssemblies))
  {
  }

  /**
   When a message is answered with a value: it carries one that is no fragment, or the last missing
   fragment of a text that is one. When with nothing yet: it is of no kind that carries anything, or a
   fragment that is taken in and leaves parts missing. In every other case it is refused.
   */
  lemma DecodedIff(json: Json, a: Assemblies, m: Message, limit: nat, now: nat, timeout: nat)
    requires Valid(a, limit)
    ensures var live := Live(a, now, timeout);
      var (after, r) := Decode(json, a, m, limit, now, timeout);
      var p := Parsed(json, m, limit);
      && (r.Complete? <==>
            p.Some? && (p.value.Operation?
                        || (IsLast(live, p.value, limit) && json.parse(WholeText(live, p.value)).Some?
                            && json.parse(WholeText(live, p.value)).value.Operation?)))
      && (r.Complete? ==> r.value == if p.value.Operation? then p.value else json.parse(WholeText(live, p.value)).value)
      && (r.Incomplete? <==>
            m.OtherMessage? || (p.Some? && IsFiled(live, p.value, limit) && !IsLast(live, p.value, limit)))
      && (p.Some? && p.value.Operation? ==> after == live)
  {
    hide Valid, Live, File, IsWhole, Flatten, Present, Overflows;
    var live := Live(a, now, timeout);
    LiveKeepsValid(a, limit, now, timeout);
    var p := Parsed(json, m, limit);
    if p.Some? && WellNumbered(p.value) {
      if HasPlace(live, p.value.id.value) && SameTotal(live, p.value) {
        FilingIs(json, live, p.value, limit, now);
      } else {
        FailedFiling(json, live, p.value, limit, now);
      }
    }
  }

  /** Why a message is refused. */
  lemma RefusedIff(json: Json, a: Assemblies, m: Message, limit: nat, now: nat, timeout: nat)
    requires Valid(a, limit)
    ensures var live := Live(a, now, timeout);
      var r := Decode(json, a, m, limit, now, timeout).1;
      var p := Parsed(json, m, limit);
      && (r == Failed(MessageTooLarge) <==> TooLarge(m, limit))
      && (r == Failed(Unparsable) <==>
            (!m.OtherMessage? && !TooLarge(m, limit) && p.None?)
            || (p.Some? && IsLast(live, p.value, limit) && json.parse(WholeText(live, p.value)).None?))
      && (r == Failed(ObjectExpected) <==> p.Some? && p.value.NotAnObject?)
      && (r == Failed(IdRequired) <==> p.Some? && p.value.Fragment? && p.value.id.None?)
      && (r == Failed(TotalRequired) <==> p.Some? && p.value.Fragment? && p.value.id.Some? && p.value.total.None?)
      && (r == Failed(NumRequired) <==>
            p.Some? && p.value.Fragment? && p.value.id.Some? && p.value.total.Some? && p.value.num.None?)
      && (r == Failed(DataRequired) <==>
            p.Some? && p.value.Fragment? && p.value.id.Some? && p.value.total.Some? && p.value.num.Some?
            && p.value.data.None?)
      && (r == Failed(InvalidIndices) <==> p.Some? && HasAllFields(p.value) && !WellNumbered(p.value))
      && (r == Failed(TooManyAssemblies) <==> p.Some? && WellNumbered(p.value) && !HasPlace(live, p.value.id.value))
      && (r == Failed(TotalChanged) <==>
            p.Some? && WellNumbered(p.value) && HasPlace(live, p.value.id.value) && !SameTotal(live, p.value))
      && (r == Failed(AssembledTooLarge) <==>
            p.Some? && WellNumbered(p.value) && HasPlace(live, p.value.id.value) && SameTotal(live, p.value)
            && Overflows(live, p.value, limit))
      && (r == Failed(InvalidAssembledOperation) <==>
            p.Some? && IsLast(live, p.value, limit) && json.parse(WholeText(live, p.value)).Some?
            && !json.parse(WholeText(live, p.value)).value.Operation?)
  {
    hide Valid, Live, File, IsWhole, Flatten, Present, Overflows;
    var live := Live(a, now, timeout);
    LiveKeepsValid(a, limit, now, timeout);
    var p := Parsed(json, m, limit);
    if p.Some? && WellNumbered(p.value) {
      if HasPlace(live, p.value.id.value) && SameTotal(live, p.value) {
        FilingIs(json, live, p.value, limit, now);
      } else {
        FailedFiling(json, live, p.value, limit, now);
      }
    }
  }

  /** Which assembly a message concerns. */
  function Concerns(json: Json, m: Message, limit: nat): Option<string> {
    var p := Parsed(json, m, limit);
    if p.Some? && p.value.Fragment? then p.value.id else None
  }

  /** An assembly started earlier, and less than the timeout ago. */
  predicate StillLives(a: Assemblies, id: string, now: nat, timeout: nat) {
    id in a && now - a[id].created < timeout
  }

  lemma LivesIff(a: Assemblies, id: string, now: nat, timeout: nat)
    ensures var live := Live(a, now, timeout);
      (id in live <==> StillLives(a, id, now, timeout)) && (id in live ==> live[id] == a[id])
  {
  }

  /** Assemblies that are not its own are as they were, but for those that were started the timeout ago or earlier. */
  lemma OthersUntouched(json: Json, a: Assemblies, m: Message, limit: nat, now: nat, timeout: nat, id: string)
    requires Valid(a, limit) && Concerns(json, m, limit) != Some(id)
    ensures var after := Decode(json, a, m, limit, now, timeout).0;
      && (id in after <==> StillLives(a, id, now, timeout))
      && (id in after ==> after[id] == a[id])
  {
    LivesIff(a, id, now, timeout);
    hide Valid, Live, StillLives, File, IsWhole, Flatten, Present, Overflows;
    var live := Live(a, now, timeout);
    LiveKeepsValid(a, limit, now, timeout);
    var p := Parsed(json, m, limit);
    if p.Some? && WellNumbered(p.value) {
      if HasPlace(live, p.value.id.value) && SameTotal(live, p.value) {
        FilingIs(json, live, p.value, limit, now);
      } else {
        FailedFiling(json, live, p.value, limit, now);
      }
    }
  }

  // ---------- whatever is encoded is decoded again ----------

  function AllAt(frames: seq<Message>, now: nat): seq<Arrival> {
    seq(|frames|, i requires 0 <= i < |frames| => Arrival(frames[i], now))
  }

  /** The frames, decoded in the order in which they were encoded, are answered with the operation, at the end. */
  ghost predicate DecodesTo(json: Json, a: Assemblies, frames: seq<Message>, limit: nat, timeout: nat, now: nat,
                            content: nat)
  {
    var (after, results) := DecodeAll(json, a, AllAt(frames, now), limit, timeout);
    && frames != [] && after == Live(a, now, timeout)
    && (forall k :: 0 <= k < |frames| - 1 ==> results[k] == Incomplete)
    && results[|frames| - 1] == Complete(Operation(content))
  }

  lemma OneFrameDecodes(json: Json, a: Assemblies, m: Message, limit: nat, timeout: nat, now: nat, content: nat)
    requires Parsed(json, m, limit) == Some(Operation(content))
    ensures DecodesTo(json, a, [m], limit, timeout, now, content)
  {
    var arrivals := AllAt([m], now);
    assert arrivals[..0] == [];
    var (before, results) := DecodeAll(json, a, arrivals[..0], limit, timeout);
    assert DecodeAll(json, a, arrivals, limit, timeout)
        == (Live(a, now, timeout), [] + [Complete(Operation(content))]);
  }

  lemma LiveTwice(a: Assemblies, now: nat, timeout: nat)
    ensures Live(Live(a, now, timeout), now, timeout) == Live(a, now, timeout)
  {
  }

  lemma DecodeLooksAtLive(json: Json, a: Assemblies, m: Message, limit: nat, now: nat, timeout: nat)
    ensures Decode(json, a, m, limit, now, timeout) == Decode(json, Live(a, now, timeout), m, limit, now, timeout)
  {
    LiveTwice(a, now, timeout);
    hide Live, Interpret;
  }

  lemma {:induction false} DecodingLooksAtLive(json: Json, a: Assemblies, arrivals: seq<Arrival>, limit: nat,
                                              timeout: nat, now: nat)
    requires arrivals != [] && forall i :: 0 <= i < |arrivals| ==> arrivals[i].now == now
    ensures DecodeAll(json, a, arrivals, limit, timeout)
         == DecodeAll(json, Live(a, now, timeout), arrivals, limit, timeout)
    decreases |arrivals|
  {
    hide Decode, Live;
    if |arrivals| > 1 {
      DecodingLooksAtLive(json, a, arrivals[..|arrivals| - 1], limit, timeout, now);
    } else {
      assert arrivals[..0] == [];
      DecodeLooksAtLive(json, a, arrivals[0].message, limit, now, timeout);
    }
  }

  /** Only the text's own assembly is new, started now. */
  ghost predicate OnlyOwn(t: Transfer, a: Assemblies, after: Assemblies, now: nat) {
    && (forall id :: id != t.id ==> (id in after <==> id in a) && (id in a ==> after[id] == a[id]))
    && (t.id in after ==> after[t.id].created == now)
  }

  lemma OwnIsLive(t: Transfer, a: Assemblies, after: Assemblies, now: nat)
    requires OnlyOwn(t, a, after, now) && t.timeout > 0 && Live(a, now, t.timeout) == a
    ensures Live(after, now, t.timeout) == after
  {
    forall id | id in after ensures now < after[id].created + t.timeout {
      if id != t.id { assert id in Live(a, now, t.timeout); }
    }
  }

  lemma OneFrameOwn(t: Transfer, a: Assemblies, before: Assemblies, got: set<nat>, m: Message, i: nat, now: nat)
    requires OnlyOwn(t, a, before, now) && t.timeout > 0 && Live(a, now, t.timeout) == a
    requires t.Ready() && t.Genuine(m, i) && t.Holds(before, got)
    requires t.id in before || |before| < MAX_ASSEMBLIES
    ensures OnlyOwn(t, a, Decode(t.json, before, m, t.limit, now, t.timeout).0, now)
  {
    hide Valid, Live, Present, IsWhole, Flatten, Chunking.Join, Assembled, File, Decode;
    HeldFacts(t, before, got);
    OwnIsLive(t, a, before, now);
    GenuineIsFiled(t, before, m, i, now);
    var v := Fragment(Some(t.id), Some(|t.chunks|), Some(i), Some(t.chunks[i]));
    FilingIs(t.json, before, v, t.limit, now);
  }

  ghost predicate AllPending(results: seq<Result>, k: nat) {
    k <= |results| && forall j :: 0 <= j < k ==> results[j] == Incomplete
  }

  ghost function First(k: nat): (r: set<nat>)
    ensures forall i :: i in r <==> 0 <= i < k
  {
    if k == 0 then {} else First(k - 1) + {k - 1}
  }

  /** After some frames in order, not all, each was answered with nothing, and only the own assembly is new. */
  lemma {:induction false} FramesAccumulate(t: Transfer, a: Assemblies, frames: seq<Message>, now: nat, k: nat)
    requires t.Ready() && Valid(a, t.limit) && t.id !in a && t.timeout > 0 && t.since == now
    requires Live(a, now, t.timeout) == a && |a| < MAX_ASSEMBLIES
    requires |frames| == |t.chunks| && k < |frames| && forall i :: 0 <= i < |frames| ==> t.Genuine(frames[i], i)
    ensures var (after, results) := DecodeAll(t.json, a, AllAt(frames, now)[..k], t.limit, t.timeout);
      OnlyOwn(t, a, after, now) && t.Holds(after, First(k)) && AllPending(results, k)
    decreases k
  {
    hide Valid, Live, Decode, Transfer.Ready, Transfer.Genuine;
    if k == 0 {
      assert First(0) == {};
    } else {
      FramesAccumulate(t, a, frames, now, k - 1);
      var arrivals := AllAt(frames, now);
      assert arrivals[..k][..k - 1] == arrivals[..k - 1];
      var before := DecodeAll(t.json, a, arrivals[..k - 1], t.limit, t.timeout).0;
      RoomNow(t, a, before, k - 1, now);
      OneFrameOwn(t, a, before, First(k - 1), frames[k - 1], k - 1, now);
      OwnIsLive(t, a, before, now);
      assert !t.Covers(First(k)) by { assert |t.chunks| - 1 !in First(k); }
      assert First(k - 1) + {k - 1} == First(k);
      GenuineStep(t, before, First(k - 1), frames[k - 1], k - 1, now);
    }
  }

  lemma RoomNow(t: Transfer, a: Assemblies, before: Assemblies, k: nat, now: nat)
    requires OnlyOwn(t, a, before, now) && t.Holds(before, First(k)) && t.timeout > 0 && t.id !in a
    requires Live(a, now, t.timeout) == a && |a| < MAX_ASSEMBLIES
    ensures (t.id in before || |before| < MAX_ASSEMBLIES) && t.RoomFor(before, now)
  {
    OwnIsLive(t, a, before, now);
    if k > 0 {
      assert 0 in First(k);
    } else {
      assert First(0) == {};
      assert before == a;
    }
  }

  lemma LastFrame(t: Transfer, a: Assemblies, before: Assemblies, m: Message, now: nat, content: nat)
    requires t.Ready() && t.id !in a && t.timeout > 0 && t.since == now
    requires Live(a, now, t.timeout) == a && |a| < MAX_ASSEMBLIES
    requires OnlyOwn(t, a, before, now) && t.Holds(before, First(|t.chunks| - 1)) && t.Genuine(m, |t.chunks| - 1)
    requires t.json.Lawful() && Chunking.Join(t.chunks) == t.json.print_(Operation(content))
    ensures Decode(t.json, before, m, t.limit, now, t.timeout) == (a, Complete(Operation(content)))
  {
    hide Valid, Live, Decode, Transfer.Genuine, Transfer.Holds, Transfer.Ready, OnlyOwn, First, Chunking.Join, Assembled,
      Json.Lawful, Transfer.Covers, Transfer.RoomFor;
    ReadyHasChunks(t);
    var n := |t.chunks| - 1;
    LastCovers(t, n);
    AssembledAgain(t.json, content);
    RoomNow(t, a, before, n, now);
    OneFrameOwn(t, a, before, First(n), m, n, now);
    GenuineStep(t, before, First(n), m, n, now);
    OwnIsGone(t, a, Decode(t.json, before, m, t.limit, now, t.timeout).0, now);
  }

  lemma LastCovers(t: Transfer, n: nat)
    requires n == |t.chunks| - 1
    ensures t.Covers(First(n) + {n})
  {
  }

  lemma AssembledAgain(json: Json, content: nat)
    requires json.Lawful()
    ensures Assembled(json, json.print_(Operation(content))) == Complete(Operation(content))
  {
  }

  lemma ReadyHasChunks(t: Transfer)
    requires t.Ready()
    ensures 0 < |t.chunks|
  {
  }

  lemma OwnIsGone(t: Transfer, a: Assemblies, after: Assemblies, now: nat)
    requires OnlyOwn(t, a, after, now) && t.Holds(after, {}) && t.id !in a
    ensures after == a
  {
    hide Valid;
  }

  lemma FramesDecode(t: Transfer, a: Assemblies, frames: seq<Message>, now: nat, content: nat)
    requires t.Ready() && Valid(a, t.limit) && t.id !in a && t.timeout > 0 && t.since == now
    requires Live(a, now, t.timeout) == a && |a| < MAX_ASSEMBLIES
    requires |frames| == |t.chunks| && forall i :: 0 <= i < |frames| ==> t.Genuine(frames[i], i)
    requires t.json.Lawful() && Chunking.Join(t.chunks) == t.json.print_(Operation(content))
    ensures DecodesTo(t.json, a, frames, t.limit, t.timeout, now, content)
  {
    hide Valid, Live, Decode, Transfer.Genuine, Transfer.Holds, OnlyOwn, Json.Lawful, First, Chunking.Join;
    var n := |frames| - 1;
    var arrivals := AllAt(frames, now);
    FramesAccumulate(t, a, frames, now, n);
    assert arrivals[..|arrivals| - 1] == arrivals[..n];
    LastFrame(t, a, DecodeAll(t.json, a, arrivals[..n], t.limit, t.timeout).0, frames[n], now, content);
  }

  /**
   Whatever an operation and whatever the fragment size, the frames it is encoded in, decoded in order,
   are answered with that operation at the end and with nothing before; the decoder is then as it was,
   but for what has expired. It needs room for one more assembly only if there is more than one frame.
   */
  lemma EveryEncodingDecodes(json: Json, content: nat, fragment: Option<nat>, id: string, limit: nat, timeout: nat,
                             now: nat, a: Assemblies)
    requires json.Lawful() && Valid(a, limit) && timeout > 0 && |json.print_(Operation(content))| <= limit
    requires EncodeText(json, json.print_(Operation(content)), fragment, id).Some?
    requires var frames := EncodeText(json, json.print_(Operation(content)), fragment, id).value;
      fragment.Some? && |json.print_(Operation(content))| > fragment.value ==>
        && |frames| <= MAX_PARTS
        && (forall k :: 0 <= k < |frames| && frames[k].TextMessage? ==> |frames[k].text| <= limit)
        && id !in a && |Live(a, now, timeout)| < MAX_ASSEMBLIES
    ensures var frames := EncodeText(json, json.print_(Operation(content)), fragment, id).value;
      DecodesTo(json, a, frames, limit, timeout, now, content)
  {
    var text := json.print_(Operation(content));
    var frames := EncodeText(json, text, fragment, id).value;
    if fragment.Some? && |text| > fragment.value {
      var sent := EncodingStartsTransfer(json, content, fragment.value, id, limit, timeout, now);
      var t := TransferOf(json, content, fragment.value, id, limit, timeout, now);
      var live := Live(a, now, timeout);
      LiveTwice(a, now, timeout);
      LiveKeepsValid(a, limit, now, timeout);
      hide Valid, Live, EncodeText, Transfer.Genuine, Transfer.Ready;
      FramesDecode(t, live, frames, now, content);
      DecodingLooksAtLive(json, a, AllAt(frames, now), limit, timeout, now);
    } else {
      OneFrameDecodes(json, a, TextMessage(text), limit, timeout, now, content);
    }
  }
}
