/** Fragment frames: what `encode` emits and how the decoder reassembles them (src/wire.rs). */
module Fragments {
  import opened Basics
  import opened Utf8
  import Chunking

  const MAX_PARTS: nat := 65536
  const MAX_ASSEMBLIES: nat := 16

  type Text = seq<Byte>

  /** A decoded message, as far as the decoder looks at it. */
  datatype Value =
    | Operation(content: nat)
    | Fragment(id: Option<string>, total: Option<nat>, num: Option<nat>, data: Option<Text>)
    | NotAnObject(other: nat)

  /** JSON text as an abstract printer and parser. */
  datatype Json = Json(print_: Value -> Text, parse: Text -> Option<Value>)
  {
    ghost predicate Lawful() {
      forall v :: parse(print_(v)) == Some(v)
    }
  }

  datatype Message =
    | TextMessage(text: Text)
    | BinaryMessage(size: nat, value: Option<Value>)
    | OtherMessage

  datatype Error =
    | MessageTooLarge
    | Unparsable
    | ObjectExpected
    | IdRequired
    | TotalRequired
    | NumRequired
    | DataRequired
    | InvalidIndices
    | TooManyAssemblies
    | TotalChanged
    | AssembledTooLarge
    | InvalidAssembledOperation

  datatype Result = Complete(value: Value) | Incomplete | Failed(error: Error)

  datatype Assembly = Assembly(parts: seq<Option<Text>>, bytes: nat, created: nat)

  type Assemblies = map<string, Assembly>

  // --------------------------------------------------------------- encoding

  function FragmentFrames(json: Json, id: string, chunks: seq<Text>, total: nat, from: nat): seq<Message> {
    if chunks == [] then []
    else [TextMessage(json.print_(Fragment(Some(id), Some(total), Some(from), Some(chunks[0]))))]
         + FragmentFrames(json, id, chunks[1..], total, from + 1)
  }

  /** The text branch of `encode`: one frame, or fragments when a limit is set and exceeded. */
  function EncodeText(json: Json, text: Text, fragment: Option<nat>, id: string): Option<seq<Message>> {
    if fragment.Some? && |text| > fragment.value then
      match Chunking.Chunks(text, 0, fragment.value)
      case None => None
      case Some(chunks) => Some(FragmentFrames(json, id, chunks, |chunks|, 0))
    else Some([TextMessage(text)])
  }

  // --------------------------------------------------------------- decoding

  function Live(a: Assemblies, now: nat, timeout: nat): Assemblies {
    map id | id in a && now < a[id].created + timeout :: a[id]
  }

  predicate IsWhole(parts: seq<Option<Text>>) {
    forall i :: 0 <= i < |parts| ==> parts[i].Some?
  }

  function Flatten(parts: seq<Option<Text>>): Text {
    if parts == [] then []
    else (if parts[0].Some? then parts[0].value else []) + Flatten(parts[1..])
  }

  function Blank(total: nat): seq<Option<Text>> {
    seq(total, _ => None)
  }

  /** The first copy of a part counts; repeats change nothing. */
  function Add(x: Assembly, num: nat, data: Text): Assembly
    requires num < |x.parts|
  {
    if x.parts[num].None?
    then x.(parts := x.parts[num := Some(data)], bytes := x.bytes + |data|) else x
  }

  /** Filing one well-formed fragment into its assembly. */
  function File(json: Json, a: Assemblies, id: string, total: nat, num: nat, data: Text, limit: nat, now: nat)
    : (Assemblies, Result)
    requires num < total
  {
    if |a| >= MAX_ASSEMBLIES && id !in a then (a, Failed(TooManyAssemblies))
    else
      var x := if id in a then a[id] else Assembly(Blank(total), 0, now);
      if |x.parts| != total then (a, Failed(TotalChanged))
      else
        var y := Add(x, num, data);
        if y.bytes > limit then (a - {id}, Failed(AssembledTooLarge))
        else if IsWhole(y.parts) then (a - {id}, Assembled(json, Flatten(y.parts)))
        else (a[id := y], Incomplete)
  }

  function Assembled(json: Json, text: Text): Result {
    match json.parse(text)
    case None => Failed(Unparsable)
    case Some(Operation(content)) => Complete(Operation(content))
    case Some(_) => Failed(InvalidAssembledOperation)
  }

  function Interpret(json: Json, a: Assemblies, value: Value, limit: nat, now: nat): (Assemblies, Result) {
    match value
    case NotAnObject(_) => (a, Failed(ObjectExpected))
    case Operation(_) => (a, Complete(value))
    case Fragment(None, _, _, _) => (a, Failed(IdRequired))
    case Fragment(_, None, _, _) => (a, Failed(TotalRequired))
    case Fragment(_, _, None, _) => (a, Failed(NumRequired))
    case Fragment(_, _, _, None) => (a, Failed(DataRequired))
    case Fragment(Some(id), Some(total), Some(num), Some(data)) =>
      if !(total > 0 && total <= MAX_PARTS && num < total) then (a, Failed(InvalidIndices))
      else File(json, a, id, total, num, data, limit, now)
  }

  function Decode(json: Json, a: Assemblies, message: Message, limit: nat, now: nat, timeout: nat)
    : (Assemblies, Result)
  {
    var live := Live(a, now, timeout);
    match message
    case OtherMessage => (live, Incomplete)
    case TextMessage(text) =>
      if |text| > limit then (live, Failed(MessageTooLarge))
      else (match json.parse(text)
            case None => (live, Failed(Unparsable))
            case Some(value) => Interpret(json, live, value, limit, now))
    case BinaryMessage(size, value) =>
      if size > limit then (live, Failed(MessageTooLarge))
      else if value.None? then (live, Failed(Unparsable))
      else Interpret(json, live, value.value, limit, now)
  }

  // -------------------------------------------------------------- invariant

  function Present(parts: seq<Option<Text>>): nat {
    if parts == [] then 0
    else Present(parts[..|parts| - 1]) + (if parts[|parts| - 1].Some? then |parts[|parts| - 1].value| else 0)
  }

  /** Stored assemblies are started but unfinished, and count exactly the bytes they hold. */
  ghost predicate Started(x: Assembly) {
    && 0 < |x.parts| <= MAX_PARTS
    && x.bytes == Present(x.parts)
    && !IsWhole(x.parts)
    && (exists i :: 0 <= i < |x.parts| && x.parts[i].Some?)
  }

  ghost predicate Valid(a: Assemblies, limit: nat) {
    && |a| <= MAX_ASSEMBLIES
    && forall id :: id in a ==> Started(a[id]) && a[id].bytes <= limit
  }

  lemma {:induction false} PresentUpdate(parts: seq<Option<Text>>, num: nat, data: Text)
    requires num < |parts| && parts[num].None?
    ensures Present(parts[num := Some(data)]) == Present(parts) + |data|
  {
    var last := |parts| - 1;
    if num == last {
      assert parts[num := Some(data)][..last] == parts[..last];
    } else {
      assert parts[num := Some(data)][..last] == parts[..last][num := Some(data)];
      PresentUpdate(parts[..last], num, data);
    }
  }

  lemma {:induction false} PresentBlank(total: nat)
    ensures Present(Blank(total)) == 0
  {
    if total > 0 {
      assert Blank(total)[..total - 1] == Blank(total - 1);
      PresentBlank(total - 1);
    }
  }

  lemma LiveKeepsValid(a: Assemblies, limit: nat, now: nat, timeout: nat)
    requires Valid(a, limit)
    ensures Valid(Live(a, now, timeout), limit)
  {
    SubmapSize(Live(a, now, timeout), a);
  }

  lemma SubmapSize(small: Assemblies, big: Assemblies)
    requires small.Keys <= big.Keys
    ensures |small| <= |big|
  {
    assert big.Keys == small.Keys + (big.Keys - small.Keys);
    assert |small.Keys| <= |big.Keys|;
  }

  lemma AddKeepsBooks(x: Assembly, num: nat, data: Text)
    requires num < |x.parts| && x.bytes == Present(x.parts)
    ensures var y := Add(x, num, data);
      && |y.parts| == |x.parts|
      && y.bytes == Present(y.parts)
      && y.parts[num].Some?
  {
    if x.parts[num].None? { PresentUpdate(x.parts, num, data); }
  }

  lemma PutSize(a: Assemblies, id: string, x: Assembly)
    requires |a| <= MAX_ASSEMBLIES && (id in a || |a| < MAX_ASSEMBLIES)
    ensures |a[id := x]| <= MAX_ASSEMBLIES
  {
    assert a[id := x].Keys == a.Keys + {id};
    assert |a[id := x]| == |a[id := x].Keys| && |a| == |a.Keys|;
  }

  lemma RemoveKeepsValid(a: Assemblies, id: string, limit: nat)
    requires Valid(a, limit)
    ensures Valid(a - {id}, limit)
  {
    SubmapSize(a - {id}, a);
  }

  lemma PutKeepsValid(a: Assemblies, id: string, x: Assembly, limit: nat)
    requires Valid(a, limit) && (id in a || |a| < MAX_ASSEMBLIES)
    requires Started(x) && x.bytes <= limit
    ensures Valid(a[id := x], limit)
  {
    PutSize(a, id, x);
  }

  lemma FileKeepsValid(json: Json, a: Assemblies, id: string, total: nat, num: nat, data: Text, limit: nat, now: nat)
    requires Valid(a, limit) && num < total <= MAX_PARTS
    ensures Valid(File(json, a, id, total, num, data, limit, now).0, limit)
  {
    hide Present, IsWhole, Valid, Add;
    RemoveKeepsValid(a, id, limit);
    ValidParts(a, id, limit);
    if id in a || |a| < MAX_ASSEMBLIES {
      var x := if id in a then a[id] else Assembly(Blank(total), 0, now);
      PresentBlank(total);
      if |x.parts| == total {
        AddKeepsBooks(x, num, data);
        var y := Add(x, num, data);
        if y.bytes <= limit && !IsWhole(y.parts) {
          PutKeepsValid(a, id, y, limit);
        }
      }
    }
  }

  lemma ValidParts(a: Assemblies, id: string, limit: nat)
    requires Valid(a, limit)
    ensures |a| <= MAX_ASSEMBLIES && (id in a ==> Started(a[id]))
  {
    hide Started;
  }

  /** Whatever arrives, the decoder's books stay straight. */
  lemma DecodeKeepsValid(json: Json, a: Assemblies, message: Message, limit: nat, now: nat, timeout: nat)
    requires Valid(a, limit)
    ensures Valid(Decode(json, a, message, limit, now, timeout).0, limit)
  {
    hide Valid, File;
    LiveKeepsValid(a, limit, now, timeout);
    var live := Live(a, now, timeout);
    var value := Parsed(json, message, limit);
    if value.Some? {
      match value.value
      case Fragment(Some(id), Some(total), Some(num), Some(data)) =>
        if total > 0 && total <= MAX_PARTS && num < total {
          FileKeepsValid(json, live, id, total, num, data, limit, now);
        }
      case _ =>
    }
  }

  /** What a message carries, if it is small enough and can be parsed. */
  function Parsed(json: Json, message: Message, limit: nat): Option<Value> {
    match message
    case OtherMessage => None
    case TextMessage(text) => if |text| > limit then None else json.parse(text)
    case BinaryMessage(size, value) => if size > limit then None else value
  }
}
