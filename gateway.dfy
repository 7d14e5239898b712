/**
 * The model gateway (`callOpenAIResponse` in both generations): the credential
 * check, the request body, the non-OK error and the fold that flattens a
 * Responses-API reply into one string. The transport itself (`fetch`, reading
 * the body as JSON) is outside the model: a call is a `Body` handed out and a
 * `Reply` handed back.
 */
module Gateway {
  import opened Wrappers
  import opened Js

  /** The model used when none is stored, and the one the single-stream variant always sends. */
  const DefaultModel: string := "gpt-5-mini-2025-08-07"

  /** `getSelectedModel`: the stored model name, or the default when none (or "") is stored. */
  function SelectedModel(stored: Option<string>): (m: string)
    ensures stored.Some? && stored.value != "" ==> m == stored.value
    ensures stored.None? || stored.value == "" ==> m == DefaultModel
    ensures m != ""
  {
    if stored.Some? && stored.value != "" then stored.value else DefaultModel
  }

  datatype Effort = Minimal | Low | Medium | High

  /** The optional second argument; `tools` is an array, and an empty one is still present. */
  datatype Options = Options(instructions: Option<string>, effort: Option<Effort>, tools: Option<seq<Value>>)

  const NoOptions := Options(None, None, None)

  /** The JSON body sent to the Responses endpoint; `None` fields are omitted from it. */
  datatype Body = Body(model: string, input: Value, instructions: Option<string>, effort: Option<Effort>, tools: Option<seq<Value>>)

  datatype Failure =
    | MissingKey                                 // thrown before any request
    | HttpError(status: int, body: string)       // a non-OK response
    | Unreadable(base: string, prop: string)     // reading a property of null/undefined in the reply

  /** `String(e)` of the thrown error. */
  function ErrorText(f: Failure): (r: string)
    ensures f.HttpError? ==> StartsWith(r, "Error: OpenAI error: ")
  {
    match f
    case MissingKey => "Error: Missing OpenAI API key. Click the key icon to set it."
    case HttpError(status, body) => "Error: OpenAI error: " + IntToString(status) + " " + body
    case Unreadable(base, prop) => "TypeError: Cannot read properties of " + base + " (reading '" + prop + "')"
  }

  /** The request body: `model` and `input` always, the rest only when given (instructions only when non-empty). */
  function RequestBody(model: string, input: Value, opts: Options): (b: Body)
    ensures b.model == model && b.input == input
    ensures b.instructions.Some? <==> opts.instructions.Some? && opts.instructions.value != ""
    ensures b.instructions.Some? ==> b.instructions == opts.instructions
    ensures b.effort == opts.effort
    ensures b.tools == opts.tools
  {
    Body(model, input,
         if opts.instructions.Some? && opts.instructions.value != "" then opts.instructions else None,
         opts.effort, opts.tools)
  }

  /**
   * The synchronous part of a call: with no stored key (or an empty one) the
   * call fails before any request; otherwise it yields the body to send.
   */
  function Request(credential: Option<string>, model: string, input: Value, opts: Options): (r: Result<Body, Failure>)
    ensures r.Failure? <==> credential.None? || credential.value == ""
    ensures r.Failure? ==> r.error == MissingKey
    ensures r.Success? ==> r.value == RequestBody(model, input, opts)
  {
    if credential.None? || credential.value == "" then Failure(MissingKey)
    else Success(RequestBody(model, input, opts))
  }

  /** What `fetch` hands back: the status line, the raw text and (for OK replies) the decoded JSON. */
  datatype Reply = Reply(ok: bool, status: int, text: string, data: Value)

  /** The text of one content fragment: `c.text` when it is a string; reading it from null/undefined throws. */
  function FragmentText(c: Value): Result<string, Failure> {
    if c.Null? then Failure(Unreadable("null", "text"))
    else if c.Undefined? then Failure(Unreadable("undefined", "text"))
    else if Get(c, "text").Str? then Success(Get(c, "text").s)
    else Success("")
  }

  /** Left-to-right concatenation that stops at the first failure. */
  function Then(acc: Result<string, Failure>, next: Result<string, Failure>): Result<string, Failure> {
    if acc.Failure? then acc else if next.Failure? then next else Success(acc.value + next.value)
  }

  /** The fold over one item's content array, by its last element (the shape of the loop that computes it). */
  function ContentText(cs: seq<Value>): Result<string, Failure>
  {
    if cs == [] then Success("") else Then(ContentText(cs[..|cs| - 1]), FragmentText(cs[|cs| - 1]))
  }

  /** One output item: its content texts, else `String(item.input)` for a typed tool item, else nothing. */
  function ItemText(item: Value, show: real -> string): Result<string, Failure> {
    if Truthy(item) && Get(item, "content").Arr? then ContentText(Get(item, "content").items)
    else if Truthy(item) && Truthy(Get(item, "type")) && Truthy(Get(item, "input")) then
      Success(ToText(Get(item, "input"), show))
    else Success("")
  }

  function ItemsText(items: seq<Value>, show: real -> string): Result<string, Failure>
  {
    if items == [] then Success("") else Then(ItemsText(items[..|items| - 1], show), ItemText(items[|items| - 1], show))
  }

  /** The answer: the folded text, else a string `output_text`, else `'[no text]'`. */
  function OutputText(data: Value, show: real -> string): Result<string, Failure> {
    if data.Null? then Failure(Unreadable("null", "output"))
    else if data.Undefined? then Failure(Unreadable("undefined", "output"))
    else
      var out := Get(data, "output");
      var folded := if out.Arr? then ItemsText(out.items, show) else Success("");
      if folded.Failure? then folded
      else
        var t := if folded.value == "" && Get(data, "output_text").Str? then Get(data, "output_text").s else folded.value;
        Success(if t == "" then "[no text]" else t)
  }

  /** The asynchronous part of a call: a non-OK reply throws with its status and body, an OK one is folded. */
  function Response(reply: Reply, show: real -> string): (r: Result<string, Failure>)
    ensures !reply.ok ==> r == Failure(HttpError(reply.status, reply.text))
    ensures reply.ok ==> r == OutputText(reply.data, show)
  {
    if !reply.ok then Failure(HttpError(reply.status, reply.text)) else OutputText(reply.data, show)
  }

  /** The extraction as written: nested loops appending to `outputText`. */
  method ExtractOutput(data: Value, show: real -> string) returns (r: Result<string, Failure>)
    ensures r == OutputText(data, show)
  {
    if data.Null? {
      return Failure(Unreadable("null", "output"));
    } else if data.Undefined? {
      return Failure(Unreadable("undefined", "output"));
    }
    var outputText := "";
    var out := Get(data, "output");
    if out.Arr? {
      var k := 0;
      while k < |out.items|
        invariant 0 <= k <= |out.items|
        invariant ItemsText(out.items[..k], show) == Success(outputText)
      {
        var item := out.items[k];
        ghost var before := outputText;
        assert out.items[..k + 1][..k] == out.items[..k];
        assert ItemsText(out.items[..k + 1], show) == Then(ItemsText(out.items[..k], show), ItemText(item, show));
        if Truthy(item) && Get(item, "content").Arr? {
          var piece := ReadContent(Get(item, "content").items);
          if piece.Failure? {
            ItemsFailurePersists(out.items, k + 1, show);
            return piece;
          }
          outputText := outputText + piece.value;
        } else if Truthy(item) && Truthy(Get(item, "type")) && Truthy(Get(item, "input")) {
          outputText := outputText + ToText(Get(item, "input"), show);
        }
        assert ItemText(item, show).Success?;
        assert before + ItemText(item, show).value == outputText;
        assert ItemsText(out.items[..k + 1], show) == Success(before + ItemText(item, show).value);
        k := k + 1;
      }
      assert out.items[..k] == out.items;
    }
    if outputText == "" && Get(data, "output_text").Str? {
      outputText := Get(data, "output_text").s;
    }
    r := Success(if outputText == "" then "[no text]" else outputText);
  }

  /** The inner loop over one item's content array, stopping at the first fragment that cannot be read. */
  method ReadContent(cs: seq<Value>) returns (r: Result<string, Failure>)
    ensures r == ContentText(cs)
  {
    var j := 0;
    var piece := "";
    while j < |cs|
      invariant 0 <= j <= |cs|
      invariant ContentText(cs[..j]) == Success(piece)
    {
      var c := cs[j];
      assert cs[..j + 1][..j] == cs[..j];
      assert ContentText(cs[..j + 1]) == Then(ContentText(cs[..j]), FragmentText(c));
      if c.Null? {
        ContentFailurePersists(cs, j + 1);
        return Failure(Unreadable("null", "text"));
      } else if c.Undefined? {
        ContentFailurePersists(cs, j + 1);
        return Failure(Unreadable("undefined", "text"));
      }
      ghost var prior := piece;
      if Get(c, "text").Str? {
        piece := piece + Get(c, "text").s;
      }
      assert prior + FragmentText(c).value == piece;
      j := j + 1;
    }
    assert cs[..j] == cs;
    r := Success(piece);
  }

  /** Once a prefix of a content array fails, the whole array fails with the same error. */
  lemma {:induction false} ContentFailurePersists(cs: seq<Value>, n: nat)
    requires n <= |cs| && ContentText(cs[..n]).Failure?
    ensures ContentText(cs) == ContentText(cs[..n])
    decreases |cs| - n
  {
    if n < |cs| {
      assert cs[..n + 1][..n] == cs[..n];
      ContentFailurePersists(cs, n + 1);
    } else {
      assert cs[..n] == cs;
    }
  }

  lemma {:induction false} ItemsFailurePersists(items: seq<Value>, n: nat, show: real -> string)
    requires n <= |items| && ItemsText(items[..n], show).Failure?
    ensures ItemsText(items, show) == ItemsText(items[..n], show)
    decreases |items| - n
  {
    if n < |items| {
      assert items[..n + 1][..n] == items[..n];
      ItemsFailurePersists(items, n + 1, show);
    } else {
      assert items[..n] == items;
    }
  }

  // ---------------------------------------------------------------------
  // Properties of the extraction
  // ---------------------------------------------------------------------

  lemma ThenAssociative(a: Result<string, Failure>, b: Result<string, Failure>, c: Result<string, Failure>)
    ensures Then(Then(a, b), c) == Then(a, Then(b, c))
  {
    if a.Success? && b.Success? && c.Success? {
      assert (a.value + b.value) + c.value == a.value + (b.value + c.value);
    }
  }

  /** The fold respects output order: the text of `a + b` is the text of `a` followed by the text of `b`. */
  lemma {:induction false} ItemsTextConcat(a: seq<Value>, b: seq<Value>, show: real -> string)
    ensures ItemsText(a + b, show) == Then(ItemsText(a, show), ItemsText(b, show))
    decreases |b|
  {
    if b == [] {
      assert a + b == a;
      var r := ItemsText(a, show);
      if r.Success? {
        assert r.value + "" == r.value;
      }
    } else {
      var b' := b[..|b| - 1];
      var last := b[|b| - 1];
      assert (a + b)[..|a + b| - 1] == a + b';
      assert (a + b)[|a + b| - 1] == last;
      ItemsTextConcat(a, b', show);
      ThenAssociative(ItemsText(a, show), ItemsText(b', show), ItemText(last, show));
    }
  }

  /** A successful answer is never empty; `output_text` is consulted only when the fold found no text. */
  lemma AnswerFallbacks(data: Value, show: real -> string)
    requires OutputText(data, show).Success?
    ensures var r := OutputText(data, show).value;
      var out := Get(data, "output");
      var folded := if out.Arr? then ItemsText(out.items, show) else Success("");
      && r != ""
      && (folded.value != "" ==> r == folded.value)
      && (folded.value == "" && Get(data, "output_text").Str? && Get(data, "output_text").s != "" ==> r == Get(data, "output_text").s)
      && (r == "[no text]" <== folded.value == "" && !(Get(data, "output_text").Str? && Get(data, "output_text").s != ""))
  {
  }

  /** A null (or undefined) content fragment anywhere makes the whole call throw, whatever `output_text` holds. */
  lemma {:induction false} NullFragmentFails(data: Value, k: nat, j: nat, show: real -> string)
    requires Get(data, "output").Arr? && k < |Get(data, "output").items|
    requires var item := Get(data, "output").items[k];
      Truthy(item) && Get(item, "content").Arr? && j < |Get(item, "content").items|
      && (Get(item, "content").items[j].Null? || Get(item, "content").items[j].Undefined?)
    ensures OutputText(data, show).Failure?
  {
    var items := Get(data, "output").items;
    var cs := Get(items[k], "content").items;
    assert cs[..j + 1][..j] == cs[..j];
    assert ContentText(cs[..j + 1]).Failure?;
    ContentFailurePersists(cs, j + 1);
    assert ItemText(items[k], show).Failure?;
    assert items[..k + 1][..k] == items[..k];
    assert ItemsText(items[..k + 1], show).Failure?;
    ItemsFailurePersists(items, k + 1, show);
  }
}
