/** The wire record exchanged between the dispatcher and the worker, and its
    textual rendering (`Message.ToString`). */
module Common {

  /** A C# reference that may be null. */
  datatype Option<T> = None | Some(value: T)

  /** The role of a message: exactly two variants. */
  datatype MessageType = ProcessRequest | ProcessResponse

  /** The six properties of a message. `Result` and `CallbackQueue` are
      references that may be null; a `Uri` is represented by its text. */
  datatype Message = Message(
    TypeOfMessage: MessageType,
    S3Path: string,
    Result: Option<string>,
    CallbackQueue: Option<string>,
    TotalMessages: int,
    ThisMessage: int)

  /** An enum value interpolated into a string shows its member name. */
  function TypeName(t: MessageType): string {
    match t
    case ProcessRequest => "ProcessRequest"
    case ProcessResponse => "ProcessResponse"
  }

  /** A null reference interpolated into a string shows as empty text. */
  function OrEmpty(s: Option<string>): string {
    match s
    case None => ""
    case Some(v) => v
  }

  /** `Message.ToString`: one interpolation over four of the six fields. */
  function Render(m: Message): string {
    "type: " + (TypeName(m.TypeOfMessage) + (", s3: " + (m.S3Path +
    (", result: " + (OrEmpty(m.Result) + (", callback: " + OrEmpty(m.CallbackQueue)))))))
  }

  // ---------------------------------------------------------------------
  // Reading a rendering back: what a reader of the text can recover.

  /** The part of a message that its rendering shows. */
  datatype Shown = Shown(kind: MessageType, s3: string, result: string, callback: string)

  function ShownOf(m: Message): Shown {
    Shown(m.TypeOfMessage, m.S3Path, OrEmpty(m.Result), OrEmpty(m.CallbackQueue))
  }

  /** Position of the first `c` in `s`, or `|s|` when there is none. */
  function IndexOf(s: string, c: char): (k: nat)
    ensures k <= |s|
    ensures forall j :: 0 <= j < k ==> s[j] != c
    ensures k < |s| ==> s[k] == c
  {
    if s == [] then 0
    else if s[0] == c then 0
    else 1 + IndexOf(s[1..], c)
  }

  /** Position of the last `c` in `s`, or -1 when there is none. */
  function LastIndexOf(s: string, c: char): (k: int)
    ensures -1 <= k < |s|
    ensures k >= 0 ==> s[k] == c
    ensures forall j :: k < j < |s| ==> s[j] != c
  {
    if s == [] then -1
    else if s[|s| - 1] == c then |s| - 1
    else LastIndexOf(s[..|s| - 1], c)
  }

  /** A separator that the tail cannot contain is found where the head ends. */
  lemma {:induction false} LastIndexOfSeparator(head: string, c: char, tail: string)
    requires c !in tail
    ensures LastIndexOf(head + [c] + tail, c) == |head|
  {
    var s := head + [c] + tail;
    if tail != [] {
      var t := tail[..|tail| - 1];
      assert tail[|tail| - 1] in tail;
      assert s[..|s| - 1] == head + [c] + t;
      LastIndexOfSeparator(head, c, t);
    }
  }

  function StripPrefix(p: string, s: string): (r: Option<string>)
    ensures r.Some? <==> |p| <= |s| && s[..|p|] == p
    ensures r.Some? ==> s == p + r.value
  {
    if |p| <= |s| && s[..|p|] == p then Some(s[|p|..]) else None
  }

  function TypeNamed(s: string): (r: Option<MessageType>)
    ensures r.Some? ==> TypeName(r.value) == s
  {
    if s == "ProcessRequest" then Some(ProcessRequest)
    else if s == "ProcessResponse" then Some(ProcessResponse)
    else None
  }

  /** Splits a rendering at its labels, one label at a time; a field that a
      label follows must be free of commas. */
  function ReadRendered(s: string): Option<Shown> {
    match StripPrefix("type: ", s)
    case None => None
    case Some(r) =>
      var k := IndexOf(r, ',');
      match TypeNamed(r[..k])
      case None => None
      case Some(t) => ReadPath(t, r[k..])
  }

  function ReadPath(t: MessageType, s: string): Option<Shown> {
    match StripPrefix(", s3: ", s)
    case None => None
    case Some(r) => var k := IndexOf(r, ','); ReadResult(t, r[..k], r[k..])
  }

  function ReadResult(t: MessageType, path: string, s: string): Option<Shown> {
    match StripPrefix(", result: ", s)
    case None => None
    case Some(r) => var k := IndexOf(r, ','); ReadCallback(t, path, r[..k], r[k..])
  }

  function ReadCallback(t: MessageType, path: string, result: string, s: string): Option<Shown> {
    match StripPrefix(", callback: ", s)
    case None => None
    case Some(r) => Some(Shown(t, path, result, r))
  }

  /** Cutting `a + b` at the first comma finds the end of `a` when `a` has no comma and `b` starts with one. */
  lemma SplitAtComma(a: string, b: string)
    requires ',' !in a && |b| > 0 && b[0] == ','
    ensures IndexOf(a + b, ',') == |a|
    ensures (a + b)[..|a|] == a && (a + b)[|a|..] == b
  {
    assert (a + b)[|a|] == b[0];
  }

  lemma StripPrefixOf(p: string, s: string)
    ensures StripPrefix(p, p + s) == Some(s)
  {
    assert (p + s)[..|p|] == p;
    assert (p + s)[|p|..] == s;
  }

  lemma ReadCallbackOf(t: MessageType, p: string, r: string, c: string)
    ensures ReadCallback(t, p, r, ", callback: " + c) == Some(Shown(t, p, r, c))
  {
    StripPrefixOf(", callback: ", c);
  }

  lemma ReadResultOf(t: MessageType, p: string, r: string, c: string)
    requires ',' !in r
    ensures ReadResult(t, p, ", result: " + (r + (", callback: " + c))) == Some(Shown(t, p, r, c))
  {
    StripPrefixOf(", result: ", r + (", callback: " + c));
    SplitAtComma(r, ", callback: " + c);
    ReadCallbackOf(t, p, r, c);
  }

  lemma ReadPathOf(t: MessageType, p: string, r: string, c: string)
    requires ',' !in p && ',' !in r
    ensures ReadPath(t, ", s3: " + (p + (", result: " + (r + (", callback: " + c))))) == Some(Shown(t, p, r, c))
  {
    var tail := ", result: " + (r + (", callback: " + c));
    StripPrefixOf(", s3: ", p + tail);
    SplitAtComma(p, tail);
    ReadResultOf(t, p, r, c);
  }

  lemma TypeNameReadBack(t: MessageType)
    ensures ',' !in TypeName(t) && TypeNamed(TypeName(t)) == Some(t)
  {
    match t
    case ProcessRequest =>
      assert TypeName(t) == "ProcessRequest";
    case ProcessResponse =>
      assert TypeName(t) == "ProcessResponse";
  }

  /** The rendering lays the type, the path, the result and the callback out in
      that order behind their labels: when the path and the result hold no
      comma, all four are read back from the text. */
  lemma ReadRenderedRender(m: Message)
    requires ',' !in m.S3Path && ',' !in OrEmpty(m.Result)
    ensures ReadRendered(Render(m)) == Some(ShownOf(m))
  {
    var t, p, r, c := TypeName(m.TypeOfMessage), m.S3Path, OrEmpty(m.Result), OrEmpty(m.CallbackQueue);
    var tail := ", s3: " + (p + (", result: " + (r + (", callback: " + c))));
    ReadPathOf(m.TypeOfMessage, p, r, c);
    TypeNameReadBack(m.TypeOfMessage);
    SplitAtComma(t, tail);
    StripPrefixOf("type: ", t + tail);
  }

  /** The counters are not part of the rendering. */
  lemma RenderIgnoresCounters(m: Message, total: int, index: int)
    ensures Render(m.(TotalMessages := total, ThisMessage := index)) == Render(m)
  {
  }

  /** A null result or callback renders exactly like an empty one: the labels stay. */
  lemma RenderNullAsEmpty(m: Message)
    ensures m.Result == None ==> Render(m) == Render(m.(Result := Some("")))
    ensures m.CallbackQueue == None ==> Render(m) == Render(m.(CallbackQueue := Some("")))
  {
  }
}
