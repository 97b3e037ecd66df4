/** The parser of a Codex event stream, which accepts exactly a grammar
    (internal/codex/parser.go). Strings are byte strings. */
module CodexStream {
  import opened Directory
  import opened Text

  const MAX_OUTPUT_BYTES := 16777216
  const MAX_LINE_BYTES := 1048576
  const MAX_EVENTS := 10000
  const MAX_RESULT_BYTES := 65536

  // ---- Decoded values ------------------------------------------------------------

  datatype Json = Null | Boolean(b: bool) | Number(n: int) | Fraction | String(s: string) | Array(items: seq<Json>)
                | Object(members: map<string, Json>)

  datatype Reason = AuthExpired | RateLimited | ApprovalRequired | ModelUnavailable | InvalidOutputSchema

  /** What the parser is given: the decoder of a line, the provider's error object found in
      a message, the failure a message speaks of, and which final messages are results. */
  datatype Codec =
    Codec(decode: string -> Option<Json>, envelope: string -> Option<map<string, Json>>, phrase: string -> Option<Reason>,
          result: string -> bool)

  function Get(m: map<string, Json>, key: string): Json {
    if key in m then m[key] else Null
  }

  function BoundedString(v: Json, limit: nat): Option<string> {
    if v.String? && v.s != "" && |v.s| <= limit then Some(v.s) else None
  }

  function FailureCode(v: Json): Option<Reason> {
    if !v.String? then None
    else if v.s in {"token_expired", "auth_expired", "unauthorized", "refresh_token_expired"} then Some(AuthExpired)
    else if v.s in {"rate_limit_exceeded", "usage_limit_reached"} then Some(RateLimited)
    else if v.s in {"approval_required", "approval_request"} then Some(ApprovalRequired)
    else if v.s == "model_not_found" then Some(ModelUnavailable)
    else if v.s == "invalid_json_schema" then Some(InvalidOutputSchema)
    else None
  }

  function Message(value: map<string, Json>): string {
    var m := Get(value, "message");
    if m.String? then m.s else ""
  }

  /** A progress error is classified by an explicit code only. */
  function ProgressFailure(value: map<string, Json>, codec: Codec): Option<Reason> {
    var code := FailureCode(Get(value, "code"));
    if code.Some? then code
    else
      var nested := codec.envelope(Message(value));
      if nested.Some? then FailureCode(Get(nested.value, "code")) else None
  }

  /** The terminal failure is also classified by what its message says. */
  function NativeFailure(value: map<string, Json>, codec: Codec): Option<Reason> {
    var reason := ProgressFailure(value, codec);
    if reason.Some? then reason else codec.phrase(Message(value))
  }

  predicate NonnegativeInteger(v: Json) {
    v.Number? && 0 <= v.n <= MAX_SAFE_INTEGER
  }

  predicate NullableInteger(v: Json) {
    v.Null? || NonnegativeInteger(v)
  }

  function Count(v: Json): Option<int> {
    if v.Number? then Some(v.n) else None
  }

  /** The usage a turn reports, if it does, and if what it reports is valid. */
  datatype Usage = BadUsage | NoUsage | Used(input: Option<int>, cached: Option<int>, output: Option<int>)

  function ParseUsage(v: Json): Usage {
    if v.Null? then NoUsage
    else if !v.Object? then BadUsage
    else
      var m := v.members;
      var input, output, cached := Get(m, "input_tokens"), Get(m, "output_tokens"), Get(m, "cached_input_tokens");
      if !NullableInteger(input) || !NullableInteger(output) || !NullableInteger(cached) then BadUsage
      else if "reasoning_output_tokens" in m && !NonnegativeInteger(m["reasoning_output_tokens"]) then BadUsage
      else if "cache_write_input_tokens" in m && !NonnegativeInteger(m["cache_write_input_tokens"]) then BadUsage
      else Used(Count(input), Count(cached), Count(output))
  }

  // ---- Tokens --------------------------------------------------------------------

  datatype Phase = Started | Updated | Completed

  /** One line, as far as the grammar is concerned. */
  datatype Token =
    | Bad
    | ThreadStarted(thread: string)
    | TurnStarted
    | Item(phase: Phase, id: string, kind: string, reason: Option<Reason>, text: Option<string>)
    | TurnCompleted(usage: Usage)
    | Error(reason: Option<Reason>)
    | TurnFailed(reason: Option<Reason>)
  {
    predicate AgentMessage() {
      Item? && phase == Completed && kind == "agent_message"
    }

    /** An error item that may come before the turn. */
    predicate StartupError() {
      Item? && phase == Completed && kind == "error"
    }

    predicate Completion() {
      TurnCompleted? && usage != BadUsage
    }

    /** The classified failure a line reports in passing. */
    function Reported(): Option<Reason> {
      if Error? || (Item? && kind == "error") then reason else None
    }
  }

  function ItemToken(phase: Phase, value: Json, codec: Codec): Token {
    if !value.Object? then Bad
    else
      var id, kind := BoundedString(Get(value.members, "id"), 128), BoundedString(Get(value.members, "type"), 128);
      if id.None? || kind.None? then Bad
      else
        Item(phase, id.value, kind.value, ProgressFailure(value.members, codec),
             BoundedString(Get(value.members, "text"), MAX_RESULT_BYTES))
  }

  function EventToken(event: map<string, Json>, codec: Codec): Token {
    var name := BoundedString(Get(event, "type"), 64);
    if name.None? then Bad
    else
      match name.value
      case "thread.started" =>
        var thread := BoundedString(Get(event, "thread_id"), 128);
        if thread.None? then Bad else ThreadStarted(thread.value)
      case "turn.started" => TurnStarted
      case "item.started" => ItemToken(Started, Get(event, "item"), codec)
      case "item.updated" => ItemToken(Updated, Get(event, "item"), codec)
      case "item.completed" => ItemToken(Completed, Get(event, "item"), codec)
      case "turn.completed" => TurnCompleted(ParseUsage(Get(event, "usage")))
      case "error" => Error(ProgressFailure(event, codec))
      case "turn.failed" =>
        var e := Get(event, "error");
        TurnFailed(if e.Object? then NativeFailure(e.members, codec) else None)
      case _ => Bad
  }

  function LineToken(line: string, codec: Codec): Token {
    if line == "" || |line| > MAX_LINE_BYTES then Bad
    else
      var value := codec.decode(line);
      if value.None? || !value.value.Object? then Bad else EventToken(value.value.members, codec)
  }

  function Tokens(lines: seq<string>, codec: Codec): (tokens: seq<Token>)
    ensures |tokens| == |lines| && forall k :: 0 <= k < |lines| ==> tokens[k] == LineToken(lines[k], codec)
  {
    if lines == [] then [] else [LineToken(lines[0], codec)] + Tokens(lines[1..], codec)
  }

  // ---- Written events ------------------------------------------------------------

  /** The codes that stand for a failure. */
  function Codes(r: Reason): set<string> {
    match r
    case AuthExpired => {"token_expired", "auth_expired", "unauthorized", "refresh_token_expired"}
    case RateLimited => {"rate_limit_exceeded", "usage_limit_reached"}
    case ApprovalRequired => {"approval_required", "approval_request"}
    case ModelUnavailable => {"model_not_found"}
    case InvalidOutputSchema => {"invalid_json_schema"}
  }

  lemma CodesTell(v: Json, r: Reason)
    ensures FailureCode(v) == Some(r) <==> v.String? && v.s in Codes(r)
  {
  }

  /** The value carries the code itself, or in an error object within its message. */
  ghost predicate Blames(value: map<string, Json>, codec: Codec, r: Reason) {
    var code, nested := Get(value, "code"), codec.envelope(Message(value));
    || (code.String? && code.s in Codes(r))
    || (FailureCode(code).None? && nested.Some? && Get(nested.value, "code").String? && Get(nested.value, "code").s in Codes(r))
  }

  /** A code counts before an error object within the message, and that before the words of
      the message, which only a failed turn is judged by. */
  lemma FailureIsBlamed(value: map<string, Json>, codec: Codec)
    ensures forall r :: ProgressFailure(value, codec) == Some(r) <==> Blames(value, codec, r)
    ensures forall r :: Blames(value, codec, r) ==> NativeFailure(value, codec) == Some(r)
    ensures (forall r :: !Blames(value, codec, r)) ==> NativeFailure(value, codec) == codec.phrase(Message(value))
  {
    var code, nested := Get(value, "code"), codec.envelope(Message(value));
    forall r
      ensures FailureCode(code) == Some(r) <==> code.String? && code.s in Codes(r)
      ensures nested.Some? ==>
        var inner := Get(nested.value, "code");
        FailureCode(inner) == Some(r) <==> inner.String? && inner.s in Codes(r)
    {
      CodesTell(code, r);
      if nested.Some? {
        CodesTell(Get(nested.value, "code"), r);
      }
    }
  }

  function PhaseName(p: Phase): string {
    match p
    case Started => "item.started"
    case Updated => "item.updated"
    case Completed => "item.completed"
  }

  function TypeName(t: Token): string {
    match t
    case Bad => ""
    case ThreadStarted(_) => "thread.started"
    case TurnStarted => "turn.started"
    case Item(phase, _, _, _, _) => PhaseName(phase)
    case TurnCompleted(_) => "turn.completed"
    case Error(_) => "error"
    case TurnFailed(_) => "turn.failed"
  }

  predicate Short(s: string, limit: nat) {
    s != "" && |s| <= limit
  }

  predicate SafeCount(n: Option<int>) {
    n.Some? ==> 0 <= n.value <= MAX_SAFE_INTEGER
  }

  /** What a line can say. */
  predicate Sayable(t: Token) {
    match t
    case Bad => false
    case ThreadStarted(thread) => Short(thread, 128)
    case Item(_, id, kind, _, text) =>
      Short(id, 128) && Short(kind, 128) && (text.Some? ==> Short(text.value, MAX_RESULT_BYTES))
    case TurnCompleted(usage) =>
      usage != BadUsage && (usage.Used? ==> SafeCount(usage.input) && SafeCount(usage.cached) && SafeCount(usage.output))
    case _ => true
  }

  function MaybeString(key: string, s: Option<string>): map<string, Json> {
    if s.Some? then map[key := String(s.value)] else map[]
  }

  function MaybeNumber(n: Option<int>): Json {
    if n.Some? then Number(n.value) else Null
  }

  function WrittenUsage(u: Usage): Json {
    if u.Used? then
      Object(map["input_tokens" := MaybeNumber(u.input), "cached_input_tokens" := MaybeNumber(u.cached),
                 "output_tokens" := MaybeNumber(u.output)])
    else Null
  }

  /** The code is one of the failure's, and there is none without a failure. */
  predicate Coded(reason: Option<Reason>, code: Option<string>) {
    if reason.Some? then code.Some? && code.value in Codes(reason.value) else code.None?
  }

  function ReasonOf(t: Token): Option<Reason> {
    if t.Item? || t.Error? || t.TurnFailed? then t.reason else None
  }

  function WrittenItem(id: string, kind: string, text: Option<string>, code: Option<string>): Json {
    Object(map["id" := String(id), "type" := String(kind)] + MaybeString("text", text) + MaybeString("code", code))
  }

  /** How a client writes an event, with one of the codes of its failure. */
  function Written(t: Token, code: Option<string>): map<string, Json>
    requires Sayable(t)
  {
    match t
    case ThreadStarted(thread) => map["type" := String("thread.started"), "thread_id" := String(thread)]
    case TurnStarted => map["type" := String("turn.started")]
    case Item(phase, id, kind, _, text) =>
      map["type" := String(PhaseName(phase)),
          "item" := WrittenItem(id, kind, text, code)]
    case TurnCompleted(usage) => map["type" := String("turn.completed"), "usage" := WrittenUsage(usage)]
    case Error(_) => map["type" := String("error")] + MaybeString("code", code)
    case TurnFailed(_) => map["type" := String("turn.failed"), "error" := Object(MaybeString("code", code))]
  }

  /** An empty message tells of no failure. */
  ghost predicate Quiet(codec: Codec) {
    codec.envelope("").None? && codec.phrase("").None?
  }

  /** A failure is read from its code. */
  lemma CodeReads(value: map<string, Json>, reason: Option<Reason>, code: Option<string>, codec: Codec)
    requires Coded(reason, code) && Quiet(codec) && "message" !in value
    requires Get(value, "code") == if code.Some? then String(code.value) else Null
    ensures ProgressFailure(value, codec) == NativeFailure(value, codec) == reason
  {
    if reason.Some? {
      CodesTell(Get(value, "code"), reason.value);
    }
  }

  lemma ItemReads(phase: Phase, id: string, kind: string, reason: Option<Reason>, text: Option<string>, code: Option<string>,
                  codec: Codec)
    requires Sayable(Item(phase, id, kind, reason, text)) && Coded(reason, code) && Quiet(codec)
    ensures ItemToken(phase, WrittenItem(id, kind, text, code), codec) == Item(phase, id, kind, reason, text)
  {
    hide NativeFailure, ProgressFailure, Codes;
    CodeReads(WrittenItem(id, kind, text, code).members, reason, code, codec);
  }

  /** Whatever can be said is read as it was written. */
  lemma WrittenReads(t: Token, code: Option<string>, codec: Codec)
    requires Sayable(t) && Coded(ReasonOf(t), code) && Quiet(codec)
    ensures EventToken(Written(t, code), codec) == t
  {
    hide NativeFailure, ProgressFailure, ItemToken, Codes, ParseUsage;
    match t
    case Item(phase, id, kind, reason, text) => ItemReads(phase, id, kind, reason, text, code, codec);
    case TurnCompleted(usage) => UsageReads(usage);
    case Error(reason) => CodeReads(Written(t, code), reason, code, codec);
    case TurnFailed(reason) => CodeReads(MaybeString("code", code), reason, code, codec);
    case _ =>
  }

  lemma UsageReads(u: Usage)
    requires Sayable(TurnCompleted(u))
    ensures ParseUsage(WrittenUsage(u)) == u
  {
  }

  /** What is read was said: the type, the thread, the item and its text stand in the event. */
  lemma ReadIsSaid(event: map<string, Json>, codec: Codec)
    ensures
      var t := EventToken(event, codec);
      t != Bad ==>
        && Get(event, "type") == String(TypeName(t))
        && (t.ThreadStarted? ==> Get(event, "thread_id") == String(t.thread))
        && (t.Item? ==>
              && Get(event, "item").Object?
              && var item := event["item"].members;
                 && Get(item, "id") == String(t.id) && Get(item, "type") == String(t.kind)
                 && (forall text :: t.text == Some(text) <==> Get(item, "text") == String(text) && Short(text, MAX_RESULT_BYTES)))
  {
  }

  /** Events of no other type are read at all, nor ones that lack what their type needs. */
  lemma UnreadIff(event: map<string, Json>, codec: Codec)
    ensures
      EventToken(event, codec) == Bad <==>
      match Get(event, "type")
      case String("thread.started") =>
        !(Get(event, "thread_id").String? && Short(event["thread_id"].s, 128))
      case String(name) =>
        if name in {"item.started", "item.updated", "item.completed"} then
          !(Get(event, "item").Object?
            && var item := event["item"].members;
               && Get(item, "id").String? && Short(item["id"].s, 128) && Get(item, "type").String? && Short(item["type"].s, 128))
        else name !in {"turn.started", "turn.completed", "error", "turn.failed"}
      case _ => true
  {
  }

  const NULLABLE_COUNTS := {"input_tokens", "output_tokens", "cached_input_tokens"}
  const STRICT_COUNTS := {"reasoning_output_tokens", "cache_write_input_tokens"}

  /** Usage is null, or an object whose counts are whole numbers, of which three may be null;
      any other member is ignored. */
  lemma UsageIsValidIff(v: Json)
    ensures
      ParseUsage(v) != BadUsage <==>
      || v.Null?
      || (v.Object?
          && (forall key :: key in NULLABLE_COUNTS && key in v.members ==>
                v.members[key].Null? || (v.members[key].Number? && 0 <= v.members[key].n <= MAX_SAFE_INTEGER))
          && (forall key :: key in STRICT_COUNTS && key in v.members ==>
                v.members[key].Number? && 0 <= v.members[key].n <= MAX_SAFE_INTEGER))
    ensures ParseUsage(v) == NoUsage <==> v.Null?
    ensures v.Object? && ParseUsage(v) != BadUsage ==>
      var u := ParseUsage(v);
      && MaybeNumber(u.input) == Get(v.members, "input_tokens") && MaybeNumber(u.output) == Get(v.members, "output_tokens")
      && MaybeNumber(u.cached) == Get(v.members, "cached_input_tokens")
  {
    if v.Object? {
      assert forall key :: key in NULLABLE_COUNTS ==> key in {"input_tokens", "output_tokens", "cached_input_tokens"};
      assert forall key :: key in STRICT_COUNTS ==> key in {"reasoning_output_tokens", "cache_write_input_tokens"};
      assert "input_tokens" in NULLABLE_COUNTS && "output_tokens" in NULLABLE_COUNTS && "cached_input_tokens" in NULLABLE_COUNTS;
      assert "reasoning_output_tokens" in STRICT_COUNTS && "cache_write_input_tokens" in STRICT_COUNTS;
    }
  }

  /** The line is one way of writing the token. */
  ghost predicate Says(line: string, t: Token, codec: Codec) {
    && Short(line, MAX_LINE_BYTES) && '\n' !in line && Sayable(t)
    && exists code :: Coded(ReasonOf(t), code) && codec.decode(line) == Some(Object(Written(t, code)))
  }

  /** Lines that say something are read as what they say. */
  lemma LinesRead(lines: seq<string>, tokens: seq<Token>, codec: Codec)
    requires |lines| == |tokens| && Quiet(codec) && forall k :: 0 <= k < |lines| ==> Says(lines[k], tokens[k], codec)
    ensures Tokens(lines, codec) == tokens
  {
    forall k | 0 <= k < |lines| ensures LineToken(lines[k], codec) == tokens[k] {
      var code :| Coded(ReasonOf(tokens[k]), code) && codec.decode(lines[k]) == Some(Object(Written(tokens[k], code)));
      WrittenReads(tokens[k], code, codec);
    }
  }

  // ---- Grammar -------------------------------------------------------------------

  /** How far a stream has come: where its thread and its turn started. */
  datatype Stage = Initial | InThread(thread: nat) | InTurn(thread: nat, turn: nat) | Complete(thread: nat, turn: nat)

  ghost predicate Opening(e: seq<Token>, thread: nat) {
    && thread < |e| && e[thread].ThreadStarted?
    && (forall k :: 0 <= k < thread ==> e[k].Error?)
  }

  predicate BeforeTurn(t: Token) {
    t.Error? || t.StartupError()
  }

  /** The turn told of an item, or of its completion. */
  ghost predicate Seen(e: seq<Token>, turn: nat, end: nat, id: string) {
    exists k :: turn < k < end && k < |e| && e[k].Item? && e[k].id == id
  }

  ghost predicate Ended(e: seq<Token>, turn: nat, end: nat, id: string) {
    exists k :: turn < k < end && k < |e| && e[k].Item? && e[k].id == id && e[k].phase == Completed
  }

  /** An item event fits what the turn said of its id before: one kind, started at most
      once and first, nothing after completion. */
  ghost predicate Fits(e: seq<Token>, turn: nat, k: nat)
    requires turn < k < |e|
  {
    e[k].Item? ==>
      && (forall p :: turn < p < k && e[p].Item? && e[p].id == e[k].id ==>
            e[p].kind == e[k].kind && e[p].phase != Completed && e[k].phase != Started)
      && (e[k].phase == Updated ==> Seen(e, turn, k, e[k].id))
      && (e[k].AgentMessage() ==> e[k].text.Some?)
  }

  ghost predicate Turn(e: seq<Token>, thread: nat, turn: nat) {
    && thread < turn < |e| && Opening(e, thread) && e[turn].TurnStarted?
    && (forall k :: thread < k < turn ==> BeforeTurn(e[k]))
    && (forall k :: turn < k < |e| ==> (e[k].Error? || e[k].Item?) && Fits(e, turn, k))
  }

  /** Every item of the turn was completed. */
  ghost predicate Finished(e: seq<Token>, turn: nat) {
    forall k :: turn < k < |e| && e[k].Item? ==> Ended(e, turn, |e|, e[k].id)
  }

  ghost predicate Shape(e: seq<Token>, s: Stage) {
    match s
    case Initial => forall k :: 0 <= k < |e| ==> e[k].Error?
    case InThread(i) => Opening(e, i) && forall k :: i < k < |e| ==> BeforeTurn(e[k])
    case InTurn(i, j) => Turn(e, i, j)
    case Complete(i, j) =>
      && e != [] && e[|e| - 1].Completion()
      && Turn(e[..|e| - 1], i, j) && Finished(e[..|e| - 1], j)
  }

  /** The stage one more line leads to. */
  ghost function Next(e: seq<Token>, s: Stage, t: Token): Option<Stage> {
    match s
    case Initial => if t.Error? then Some(s) else if t.ThreadStarted? then Some(InThread(|e|)) else None
    case InThread(i) => if BeforeTurn(t) then Some(s) else if t.TurnStarted? then Some(InTurn(i, |e|)) else None
    case InTurn(i, j) =>
      if t.Completion() && Finished(e, j) then Some(Complete(i, j))
      else if (t.Error? || t.Item?) && j < |e| && Fits(e + [t], j, |e|) then Some(s)
      else None
    case Complete(_, _) => None
  }

  lemma ShapeGrows(e: seq<Token>, s: Stage, t: Token)
    requires Shape(e, s) && Next(e, s, t).Some?
    ensures Shape(e + [t], Next(e, s, t).value)
  {
    var f := e + [t];
    if s.InTurn? {
      if Next(e, s, t).value.Complete? {
        assert f[..|f| - 1] == e;
      } else {
        forall k | s.turn < k < |f| ensures (f[k].Error? || f[k].Item?) && Fits(f, s.turn, k) {
          if k < |e| {
            assert f[k] == e[k] && Fits(e, s.turn, k);
          }
        }
      }
    }
  }

  lemma ShapeIsUnique(e: seq<Token>, s: Stage, u: Stage)
    requires Shape(e, s) && Shape(e, u)
    ensures s == u
  {
    if s.Complete? {
      assert e[|e| - 1].TurnCompleted?;
    }
    if u.Complete? {
      assert e[|e| - 1].TurnCompleted?;
    }
  }

  /** A stage is only ever reached by one line from a stage. */
  lemma ShapeShrinks(e: seq<Token>, t: Token, u: Stage)
    requires Shape(e + [t], u)
    ensures exists s :: Shape(e, s) && Next(e, s, t) == Some(u)
  {
    var f := e + [t];
    assert forall k :: 0 <= k < |e| ==> f[k] == e[k];
    match u
    case Initial =>
      assert Shape(e, Initial) && Next(e, Initial, t) == Some(u) by { assert f[|e|] == t; }
    case InThread(i) =>
      if i == |e| {
        assert Shape(e, Initial) && Next(e, Initial, t) == Some(u);
      } else {
        assert Shape(e, u) && Next(e, u, t) == Some(u) by { assert f[|e|] == t; }
      }
    case InTurn(i, j) =>
      if j == |e| {
        assert Shape(e, InThread(i)) && Next(e, InThread(i), t) == Some(u);
      } else {
        forall k | j < k < |e| ensures (e[k].Error? || e[k].Item?) && Fits(e, j, k) {
          assert Fits(f, j, k);
        }
        assert f[|e|] == t && Fits(f, j, |e|);
        assert Shape(e, u) && Next(e, u, t) == Some(u);
      }
    case Complete(i, j) =>
      assert f[..|f| - 1] == e && f[|f| - 1] == t;
      assert Shape(e, InTurn(i, j)) && Next(e, InTurn(i, j), t) == Some(u);
  }

  ghost predicate Shaped(e: seq<Token>) {
    exists s :: Shape(e, s)
  }

  /** A line that leads nowhere spoils the stream for good. */
  lemma {:induction false} NowhereForGood(e: seq<Token>, s: Stage, n: nat)
    requires n < |e| && Shape(e[..n], s) && Next(e[..n], s, e[n]).None?
    ensures !Shaped(e)
  {
    if Shaped(e) {
      ShapedPrefix(e, n + 1);
      var u :| Shape(e[..n + 1], u);
      assert e[..n + 1] == e[..n] + [e[n]];
      ShapeShrinks(e[..n], e[n], u);
      var r :| Shape(e[..n], r) && Next(e[..n], r, e[n]) == Some(u);
      ShapeIsUnique(e[..n], s, r);
    }
  }

  lemma {:induction false} ShapedPrefix(e: seq<Token>, n: nat)
    requires n <= |e| && Shaped(e)
    ensures Shaped(e[..n])
    decreases |e|
  {
    if n == |e| {
      assert e[..n] == e;
    } else {
      var u :| Shape(e, u);
      var d := e[..|e| - 1];
      assert e == d + [e[|e| - 1]];
      ShapeShrinks(d, e[|e| - 1], u);
      ShapedPrefix(d, n);
      assert d[..n] == e[..n];
    }
  }

  // ---- What a stream tells -------------------------------------------------------

  /** What is kept of one line. */
  datatype Event = Event(name: string, id: string, kind: string)

  datatype Stream = Stream(thread: string, events: seq<Event>, message: string, usage: Usage)

  function EventsOf(e: seq<Token>): seq<Event> {
    if e == [] then []
    else
      EventsOf(e[..|e| - 1]) +
      match e[|e| - 1]
      case Item(phase, id, kind, _, _) => [Event(PhaseName(phase), id, kind)]
      case Error(_) => [Event("error", "", "native")]
      case _ => []
  }

  /** The stream tells the thread of its start, the usage of its end, its last message, and
      its items and errors in order. */
  ghost predicate Tells(stream: Stream, e: seq<Token>) {
    && stream.message == LastMessage(e) && stream.events == EventsOf(e)
    && exists i: nat, j: nat :: Shape(e, Complete(i, j)) && stream.thread == e[i].thread && stream.usage == e[|e| - 1].usage
  }

  // ---- Messages and failures -----------------------------------------------------

  /** The text of the last completed agent message, or empty. */
  function LastMessage(e: seq<Token>): string {
    if e == [] then ""
    else if e[|e| - 1].AgentMessage() && e[|e| - 1].text.Some? then e[|e| - 1].text.value
    else LastMessage(e[..|e| - 1])
  }

  /** The last classified failure reported in passing. */
  function LastReported(e: seq<Token>): Option<Reason> {
    if e == [] then None
    else if e[|e| - 1].Reported().Some? then e[|e| - 1].Reported()
    else LastReported(e[..|e| - 1])
  }

  lemma {:induction false} LastMessageIsLast(e: seq<Token>, k: nat)
    requires k < |e| && e[k].AgentMessage() && e[k].text.Some?
    requires forall p :: k < p < |e| ==> !(e[p].AgentMessage() && e[p].text.Some?)
    ensures LastMessage(e) == e[k].text.value
  {
    if k < |e| - 1 {
      LastMessageIsLast(e[..|e| - 1], k);
    }
  }

  lemma {:induction false} LastReportedIsLast(e: seq<Token>, k: nat)
    requires k < |e| && e[k].Reported().Some? && forall p :: k < p < |e| ==> e[p].Reported().None?
    ensures LastReported(e) == e[k].Reported()
  {
    if k < |e| - 1 {
      LastReportedIsLast(e[..|e| - 1], k);
    }
  }

  lemma OneMore(e: seq<Token>, t: Token)
    ensures LastMessage(e + [t]) == if t.AgentMessage() && t.text.Some? then t.text.value else LastMessage(e)
    ensures LastReported(e + [t]) == if t.Reported().Some? then t.Reported() else LastReported(e)
    ensures EventsOf(e + [t]) == EventsOf(e) + if t.Item? then [Event(PhaseName(t.phase), t.id, t.kind)]
                                               else if t.Error? then [Event("error", "", "native")] else []
  {
    assert (e + [t])[..|e|] == e;
  }

  // ---- Item table ----------------------------------------------------------------

  datatype ItemState = ItemState(kind: string, complete: bool)

  /** The table holds exactly the ids of the turn, their kinds, and which ended. */
  ghost predicate Records(items: map<string, ItemState>, e: seq<Token>, turn: nat) {
    && (forall id :: id in items <==> Seen(e, turn, |e|, id))
    && (forall k :: turn < k < |e| && e[k].Item? ==> e[k].id in items && items[e[k].id].kind == e[k].kind)
    && (forall id :: id in items ==> (items[id].complete <==> Ended(e, turn, |e|, id)))
  }

  /** What the turn told of an id is what it told before, or the new line. */
  lemma SeenGrows(e: seq<Token>, t: Token, turn: nat, id: string)
    requires turn < |e|
    ensures Seen(e + [t], turn, |e| + 1, id) <==> Seen(e, turn, |e|, id) || (t.Item? && t.id == id)
    ensures Ended(e + [t], turn, |e| + 1, id) <==> Ended(e, turn, |e|, id) || (t.Item? && t.id == id && t.phase == Completed)
    ensures Seen(e + [t], turn, |e|, id) <==> Seen(e, turn, |e|, id)
    ensures Ended(e, turn, |e|, id) ==> Seen(e, turn, |e|, id)
  {
    var f := e + [t];
    assert f[|e|] == t && forall k :: 0 <= k < |e| ==> f[k] == e[k];
    if Seen(e, turn, |e|, id) {
      var k :| turn < k < |e| && e[k].Item? && e[k].id == id;
      assert f[k].Item? && f[k].id == id;
    }
    if Ended(e, turn, |e|, id) {
      var k :| turn < k < |e| && e[k].Item? && e[k].id == id && e[k].phase == Completed;
      assert f[k].Item? && f[k].id == id && f[k].phase == Completed;
    }
  }

  predicate Clash(items: map<string, ItemState>, t: Token)
    requires t.Item?
  {
    if t.id in items then items[t.id].complete || items[t.id].kind != t.kind || t.phase == Started
    else t.phase == Updated
  }

  lemma ClashIsUnfit(items: map<string, ItemState>, e: seq<Token>, turn: nat, t: Token)
    requires turn < |e| && Records(items, e, turn) && t.Item?
    ensures Fits(e + [t], turn, |e|) <==> !Clash(items, t) && (t.AgentMessage() ==> t.text.Some?)
  {
    var f := e + [t];
    assert f[|e|] == t && forall k :: 0 <= k < |e| ==> f[k] == e[k];
    SeenGrows(e, t, turn, t.id);
    if t.id in items {
      var k :| turn < k < |e| && e[k].Item? && e[k].id == t.id;
      assert f[k].Item? && f[k].id == f[|e|].id;
      if items[t.id].complete {
        var c :| turn < c < |e| && e[c].Item? && e[c].id == t.id && e[c].phase == Completed;
        assert f[c].Item? && f[c].id == f[|e|].id && f[c].phase == Completed;
      }
    }
  }

  lemma RecordsGrow(items: map<string, ItemState>, e: seq<Token>, turn: nat, t: Token)
    requires turn < |e| && Records(items, e, turn)
    ensures !t.Item? ==> Records(items, e + [t], turn)
    ensures t.Item? && !Clash(items, t) ==> Records(items[t.id := ItemState(t.kind, t.phase == Completed)], e + [t], turn)
  {
    hide Seen, Ended;
    forall id {
      SeenGrows(e, t, turn, id);
    }
    assert (e + [t])[|e|] == t && forall k :: 0 <= k < |e| ==> (e + [t])[k] == e[k];
  }

  method HasUnfinished(items: map<string, ItemState>) returns (unfinished: bool)
    ensures unfinished <==> exists id :: id in items && !items[id].complete
  {
    var left := items.Keys;
    while left != {}
      invariant left <= items.Keys
      invariant forall id :: id in items && id !in left ==> items[id].complete
      decreases |left|
    {
      var id :| id in left;
      if !items[id].complete {
        return true;
      }
      left := left - {id};
    }
    return false;
  }

  lemma UnfinishedIsNotFinished(items: map<string, ItemState>, e: seq<Token>, turn: nat)
    requires Records(items, e, turn)
    ensures Finished(e, turn) <==> forall id :: id in items ==> items[id].complete
  {
    hide Ended;
    if Finished(e, turn) {
      forall id | id in items ensures items[id].complete {
        var k :| turn < k < |e| && e[k].Item? && e[k].id == id;
        assert Ended(e, turn, |e|, e[k].id);
      }
    }
  }

  // ---- Parse ---------------------------------------------------------------------

  datatype Outcome =
    | Accepted
    | Malformed
    | MissingResult
    | InvalidResult
    | NativelyFailed(reason: Option<Reason>)
    | Classified(why: Reason)

  /** The whole stream has the form and the limits of the grammar. */
  ghost predicate Grammatical(e: seq<Token>) {
    exists i, j :: Shape(e, Complete(i, j))
  }

  /** Takes one line in the state the stream is in. */
  method Accept(ghost e: seq<Token>, t: Token, ghost stage: Stage, items: map<string, ItemState>, state: string)
    returns (next: string, table: map<string, ItemState>, failure: Outcome, ghost after: Stage)
    requires Shape(e, stage) && StateOf(stage) == state && (stage.InTurn? ==> Records(items, e, stage.turn))
    requires !stage.InTurn? && !stage.Complete? ==> items == map[]
    ensures failure == Accepted <==> Next(e, stage, t).Some?
    ensures failure == Accepted ==> Next(e, stage, t) == Some(after) && next == StateOf(after)
    ensures failure == Accepted && after.InTurn? ==> Records(table, e + [t], after.turn)
    ensures failure == Accepted && !after.InTurn? && !after.Complete? ==> table == map[]
    ensures failure != Accepted ==>
      failure == if t.TurnFailed? && state != "complete" then NativelyFailed(t.reason)
                 else if t.AgentMessage() && state == "turn" && t.text.None? && !Clash(items, t) then InvalidResult
                 else Malformed
  {
    next, table, failure, after := state, items, Malformed, stage;
    if state == "complete" {
      return;
    }
    match t {
      case Bad =>
      case ThreadStarted(_) =>
        if state == "initial" {
          next, failure, after := "thread", Accepted, InThread(|e|);
        }
      case TurnStarted =>
        if state == "thread" {
          next, failure, after := "turn", Accepted, InTurn(stage.thread, |e|);
        }
      case Item(phase, id, kind, _, text) =>
        if state == "thread" && phase == Completed && kind == "error" {
          failure := Accepted;
          return;
        }
        if state != "turn" {
          return;
        }
        ClashIsUnfit(items, e, stage.turn, t);
        RecordsGrow(items, e, stage.turn, t);
        if id in items {
          if items[id].complete || items[id].kind != kind || phase == Started {
            return;
          }
        } else if phase == Updated {
          return;
        }
        table := items[id := ItemState(kind, phase == Completed)];
        if kind == "agent_message" && phase == Completed && text.None? {
          failure := InvalidResult;
          return;
        }
        failure := Accepted;
      case TurnCompleted(usage) =>
        if state == "turn" {
          var unfinished := HasUnfinished(items);
          UnfinishedIsNotFinished(items, e, stage.turn);
          if !unfinished && usage != BadUsage {
            next, failure, after := "complete", Accepted, Complete(stage.thread, stage.turn);
          }
        }
      case Error(_) =>
        failure := Accepted;
        if state == "turn" {
          RecordsGrow(items, e, stage.turn, t);
          assert (e + [t])[|e|] == t;
        }
      case TurnFailed(reason) =>
        failure := NativelyFailed(reason);
    }
  }

  function StateOf(s: Stage): string {
    match s
    case Initial => "initial"
    case InThread(_) => "thread"
    case InTurn(_, _) => "turn"
    case Complete(_, _) => "complete"
  }

  /** Reads the lines of a stream. */
  method ParseLines(lines: seq<string>, codec: Codec, ghost tokens: seq<Token>) returns (outcome: Outcome, stream: Stream)
    requires tokens == Tokens(lines, codec)
    ensures outcome == Accepted ==> Tells(stream, tokens)
    ensures outcome == Accepted <==> Grammatical(tokens) && LastMessage(tokens) != "" && codec.result(LastMessage(tokens))
    ensures Shaped(tokens) && !(Grammatical(tokens) && LastMessage(tokens) != "") ==>
      outcome == if LastReported(tokens).Some? then Classified(LastReported(tokens).value) else MissingResult
    ensures outcome.Classified? ==> Shaped(tokens) && LastReported(tokens) == Some(outcome.why)
    ensures outcome.NativelyFailed? ==>
      exists n :: 0 <= n < |tokens| && Shaped(tokens[..n]) && tokens[n] == TurnFailed(outcome.reason)
  {
    hide Shape, Next, Records, LastMessage, LastReported, LineToken, Clash, Tokens, EventsOf;
    var state, items, reported := "initial", map[], None;
    stream := Stream("", [], "", NoUsage);
    ghost var stage := Initial;
    StartsInitial();
    for i := 0 to |lines|
      invariant Shape(tokens[..i], stage) && state == StateOf(stage)
      invariant stage.InTurn? ==> Records(items, tokens[..i], stage.turn)
      invariant !stage.InTurn? && !stage.Complete? ==> items == map[]
      invariant stream.message == LastMessage(tokens[..i]) && reported == LastReported(tokens[..i])
      invariant stream.events == EventsOf(tokens[..i])
      invariant !stage.Initial? ==>
        stage.thread < i && tokens[stage.thread].ThreadStarted? && stream.thread == tokens[stage.thread].thread
      invariant stage.Complete? ==> i > 0 && tokens[i - 1].TurnCompleted? && stream.usage == tokens[i - 1].usage
    {
      var token := LineToken(lines[i], codec);
      ghost var seen := tokens[..i];
      assert tokens[..i + 1] == seen + [token];
      var failure;
      ghost var after;
      state, items, failure, after := Accept(seen, token, stage, items, state);
      if failure != Accepted {
        NowhereForGood(tokens, stage, i);
        NotGrammatical(tokens);
        assert Shaped(seen);
        return failure, stream;
      }
      NextKeeps(seen, stage, token);
      ShapeGrows(seen, stage, token);
      OneMore(seen, token);
      stage := after;
      if token.AgentMessage() && token.text.Some? {
        stream := stream.(message := token.text.value);
      }
      match token {
        case ThreadStarted(thread) => stream := stream.(thread := thread);
        case Item(phase, id, kind, _, _) => stream := stream.(events := stream.events + [Event(PhaseName(phase), id, kind)]);
        case Error(_) => stream := stream.(events := stream.events + [Event("error", "", "native")]);
        case TurnCompleted(usage) => stream := stream.(usage := usage);
        case _ =>
      }
      if token.Reported().Some? {
        reported := token.Reported();
      }
    }
    assert tokens[..|lines|] == tokens;
    StageDecides(tokens, stage);
    if state != "complete" || stream.message == "" {
      return if reported.Some? then Classified(reported.value) else MissingResult, stream;
    }
    return if codec.result(stream.message) then Accepted else InvalidResult, stream;
  }

  /** Where the thread started is settled once it has. */
  lemma NextKeeps(e: seq<Token>, s: Stage, t: Token)
    requires Next(e, s, t).Some?
    ensures
      var u := Next(e, s, t).value;
      && (if t.ThreadStarted? then u == InThread(|e|) else s.Initial? == u.Initial? && (!s.Initial? ==> u.thread == s.thread))
      && (u.Complete? <==> t.TurnCompleted?)
  {
  }

  /** The lines of a stream as the grammar sees them. */
  function StreamTokens(stdout: string, codec: Codec): seq<Token> {
    if stdout == "" then [] else Tokens(Split(stdout[..|stdout| - 1], '\n'), codec)
  }

  /** Parses a whole stream. It succeeds exactly on the streams of the grammar within the
      limits whose last agent message is a result. One that merely stops short is told by
      the last failure it reported. */
  method Parse(stdout: string, stderrLength: nat, codec: Codec) returns (outcome: Outcome, stream: Stream)
    ensures outcome == Accepted ==> Tells(stream, StreamTokens(stdout, codec))
    ensures
      var tokens := StreamTokens(stdout, codec);
      outcome == Accepted <==>
        && stdout != "" && Bounded(stdout, stderrLength)
        && Grammatical(tokens) && LastMessage(tokens) != "" && codec.result(LastMessage(tokens))
    ensures
      var tokens := StreamTokens(stdout, codec);
      stdout != "" && Bounded(stdout, stderrLength) && Shaped(tokens) && !(Grammatical(tokens) && LastMessage(tokens) != "") ==>
        outcome == if LastReported(tokens).Some? then Classified(LastReported(tokens).value) else MissingResult
    ensures outcome.Classified? ==>
      Shaped(StreamTokens(stdout, codec)) && LastReported(StreamTokens(stdout, codec)) == Some(outcome.why)
    ensures outcome.NativelyFailed? ==>
      var tokens := StreamTokens(stdout, codec);
      exists n :: 0 <= n < |tokens| && Shaped(tokens[..n]) && tokens[n] == TurnFailed(outcome.reason)
  {
    hide Shaped, Grammatical, LastMessage, LastReported, Split, Tells;
    stream := Stream("", [], "", NoUsage);
    if |stdout| + stderrLength > MAX_OUTPUT_BYTES {
      return Malformed, stream;
    }
    if |stdout| == 0 {
      return MissingResult, stream;
    }
    if stdout[|stdout| - 1] != '\n' {
      return Malformed, stream;
    }
    var lines := Split(stdout[..|stdout| - 1], '\n');
    if |lines| > MAX_EVENTS {
      return Malformed, stream;
    }
    outcome, stream := ParseLines(lines, codec, Tokens(lines, codec));
  }

  /** What a client wrote is parsed as what it said. */
  method ParseWritten(lines: seq<string>, stderrLength: nat, codec: Codec, ghost tokens: seq<Token>)
    returns (outcome: Outcome, stream: Stream)
    requires |lines| == |tokens| && lines != [] && |lines| <= MAX_EVENTS && |Join(lines, '\n')| + 1 + stderrLength <= MAX_OUTPUT_BYTES
    requires Quiet(codec) && forall k :: 0 <= k < |lines| ==> Says(lines[k], tokens[k], codec)
    ensures outcome == Accepted <==> Grammatical(tokens) && LastMessage(tokens) != "" && codec.result(LastMessage(tokens))
    ensures outcome == Accepted ==> Tells(stream, tokens)
  {
    hide Shaped, Grammatical, LastMessage, LastReported, Split, Join, Tells;
    var stdout := Join(lines, '\n') + "\n";
    LinesRead(lines, tokens, codec);
    assert Without(lines, '\n');
    SplitJoin(lines, '\n');
    assert stdout[..|stdout| - 1] == Join(lines, '\n');
    outcome, stream := Parse(stdout, stderrLength, codec);
  }

  lemma StartsInitial()
    ensures Shape([], Initial) && LastMessage([]) == "" && LastReported([]) == None && EventsOf([]) == []
  {
  }

  lemma NotGrammatical(e: seq<Token>)
    ensures Grammatical(e) ==> Shaped(e)
  {
    if Grammatical(e) {
      var i, j :| Shape(e, Complete(i, j));
    }
  }

  lemma StageDecides(e: seq<Token>, s: Stage)
    requires Shape(e, s)
    ensures Shaped(e) && (Grammatical(e) <==> s.Complete?)
  {
    if Grammatical(e) {
      var i, j :| Shape(e, Complete(i, j));
      ShapeIsUnique(e, s, Complete(i, j));
    }
  }

  predicate Bounded(stdout: string, stderrLength: nat) {
    && |stdout| + stderrLength <= MAX_OUTPUT_BYTES
    && (stdout != "" ==> stdout[|stdout| - 1] == '\n' && |Split(stdout[..|stdout| - 1], '\n')| <= MAX_EVENTS)
  }
}
