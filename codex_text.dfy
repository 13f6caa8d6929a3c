/**
 * The text handler of src/Handlers/CodexText.php.  The upstream API only
 * streams, so the handler requests a stream, takes the buffered body, and
 * scans it line by line as simplified Server-Sent Events (section 9.2 of the
 * HTML Living Standard, single-line `data:` fields only) for the last
 * `response.completed` event, which it hands on as an ordinary JSON response.
 * `json_decode` and `json_encode` are parameters.
 */
module CodexText {
  import opened Wrappers
  import opened PhpArray
  import opened Strings
  import opened RequestBody

  /** An HTTP client response: status, headers and body text. */
  datatype ClientResponse = ClientResponse(status: int, headers: seq<(string, string)>, body: string)

  const JsonHeaders := [("Content-Type", "application/json")]

  /** The JSON payload of a line: the trimmed rest after a leading `data:`. */
  function Payload(line: string): (r: Option<string>)
    ensures r.Some? <==> StartsWith(Trim(line), "data:")
    ensures r.Some? ==> r.value == Trim(Trim(line)[5..])
  {
    var t := Trim(line);
    if StartsWith(t, "data:") then Some(Trim(t[5..])) else None
  }

  /** What one line contributes: the completed data of a `response.completed`
      event (its `response` field, or the whole event), or nothing.  Lines that
      are not `data:` lines, empty or `[DONE]` payloads, and payloads that
      decode to a falsy value contribute nothing. */
  function ScanLine(line: string, decode: string -> Value): (r: Option<Value>)
    ensures r.Some? <==> Payload(line).Some?
                         && Payload(line).value != "" && Payload(line).value != "[DONE]"
                         && Truthy(decode(Payload(line).value))
                         && Get(decode(Payload(line).value), StrKey("type")) == Some(Str("response.completed"))
    ensures r.Some? ==> var data := decode(Payload(line).value);
                        r.value == Coalesce(Get(data, StrKey("response")), data)
  {
    var payload := Payload(line);
    if payload.None? || payload.value == "" || payload.value == "[DONE]" then None
    else
      var data := decode(payload.value);
      if !Truthy(data) then None
      else if Coalesce(Get(data, StrKey("type")), Str("")) == Str("response.completed")
      then Some(Coalesce(Get(data, StrKey("response")), data))
      else None
  }

  /** `f` applied to every element, in order. */
  function MapSeq<T, U>(s: seq<T>, f: T -> U): (r: seq<U>)
    ensures |r| == |s|
    ensures forall i :: 0 <= i < |s| ==> r[i] == f(s[i])
  {
    seq(|s|, i requires 0 <= i < |s| => f(s[i]))
  }

  lemma MapConcat<T, U>(a: seq<T>, b: seq<T>, f: T -> U)
    ensures MapSeq(a + b, f) == MapSeq(a, f) + MapSeq(b, f)
  {
    var l, r := MapSeq(a + b, f), MapSeq(a, f) + MapSeq(b, f);
    forall i | 0 <= i < |a + b| ensures l[i] == r[i] {
      if i < |a| {
        assert (a + b)[i] == a[i];
      } else {
        assert (a + b)[i] == b[i - |a|];
      }
    }
  }

  /** The scanner of one line, with the decoder fixed. */
  function LineScanner(decode: string -> Value): string -> Option<Value> {
    line => ScanLine(line, decode)
  }

  /** The contribution of every line, in order. */
  function Scans(lines: seq<string>, decode: string -> Value): (r: seq<Option<Value>>)
    ensures |r| == |lines|
    ensures forall i :: 0 <= i < |lines| ==> r[i] == ScanLine(lines[i], decode)
  {
    MapSeq(lines, LineScanner(decode))
  }

  /** The last contribution there is. */
  function LastFound(found: seq<Option<Value>>): Option<Value> {
    if found == [] then None
    else if found[|found| - 1].Some? then found[|found| - 1]
    else LastFound(found[..|found| - 1])
  }

  /** The completed data of the last line that has any. */
  function LastCompleted(lines: seq<string>, decode: string -> Value): Option<Value> {
    LastFound(Scans(lines, decode))
  }

  /** What `collectStreamResponse` returns for a buffered response. */
  function Collected(resp: ClientResponse, decode: string -> Value, encode: Value -> string): (r: ClientResponse)
    ensures var c := LastCompleted(Split(resp.body, '\n'), decode);
            c.Some? && Truthy(c.value) ==> r == ClientResponse(200, JsonHeaders, encode(c.value))
    ensures var c := LastCompleted(Split(resp.body, '\n'), decode);
            !(c.Some? && Truthy(c.value)) ==> r == resp
  {
    var completed := LastCompleted(Split(resp.body, '\n'), decode);
    if completed.Some? && Truthy(completed.value) then ClientResponse(200, JsonHeaders, encode(completed.value))
    else resp
  }

  /** `collectStreamResponse`: the loop over the body's lines, keeping the
      latest completed data seen. */
  method CollectStreamResponse(resp: ClientResponse, decode: string -> Value, encode: Value -> string)
    returns (r: ClientResponse)
    ensures r == Collected(resp, decode, encode)
  {
    var lines := Split(resp.body, '\n');
    ghost var found := Scans(lines, decode);
    var completedData := Null;
    var i := 0;
    while i < |lines|
      invariant 0 <= i <= |lines|
      invariant completedData == LastFound(found[..i]).GetOr(Null)
    {
      var scanned := ScanLine(lines[i], decode);
      LastFoundStep(found, i);
      if scanned.Some? {
        completedData := scanned.value;
      }
      i := i + 1;
    }
    assert found[..i] == found;
    CompletedNotNull(lines, decode);
    if Truthy(completedData) {
      r := ClientResponse(200, JsonHeaders, encode(completedData));
    } else {
      r := resp;
    }
  }

  /** One more contribution: it wins if present. */
  lemma LastFoundStep(found: seq<Option<Value>>, i: nat)
    requires i < |found|
    ensures LastFound(found[..i + 1]) == if found[i].Some? then found[i] else LastFound(found[..i])
  {
    assert found[..i + 1][..i] == found[..i];
  }

  /** The completed data found in a body is never null. */
  lemma CompletedNotNull(lines: seq<string>, decode: string -> Value)
    ensures LastCompleted(lines, decode).Some? ==> LastCompleted(lines, decode).value != Null
  {
    LastFoundNotNull(Scans(lines, decode));
  }

  /** Completed data is never null: a missing `response` falls back to the event. */
  lemma {:induction false} LastFoundNotNull(found: seq<Option<Value>>)
    requires forall i :: 0 <= i < |found| && found[i].Some? ==> Truthy(found[i].value) || found[i].value != Null
    ensures LastFound(found).Some? ==> LastFound(found).value != Null
  {
    if found != [] && found[|found| - 1].None? {
      LastFoundNotNull(found[..|found| - 1]);
    }
  }

  /** When several contributions are present, the last of them decides. */
  lemma {:induction false} LastFoundWins(before: seq<Option<Value>>, x: Option<Value>, after: seq<Option<Value>>)
    requires x.Some?
    requires forall j :: 0 <= j < |after| ==> after[j].None?
    ensures LastFound(before + [x] + after) == x
    decreases |after|
  {
    var all := before + [x] + after;
    if after == [] {
      assert all[|all| - 1] == x;
    } else {
      var shorter := after[..|after| - 1];
      assert all[|all| - 1] == after[|after| - 1];
      assert all[..|all| - 1] == before + [x] + shorter;
      LastFoundWins(before, x, shorter);
    }
  }

  /** A missing contribution changes nothing. */
  lemma {:induction false} LastFoundSkips(before: seq<Option<Value>>, after: seq<Option<Value>>)
    ensures LastFound(before + [None] + after) == LastFound(before + after)
    decreases |after|
  {
    var all := before + [None] + after;
    if after == [] {
      assert all[..|all| - 1] == before;
      assert before + after == before;
    } else {
      var shorter := after[..|after| - 1];
      assert all[|all| - 1] == after[|after| - 1];
      assert all[..|all| - 1] == before + [None] + shorter;
      assert (before + after)[|before + after| - 1] == after[|after| - 1];
      assert (before + after)[..|before + after| - 1] == before + shorter;
      LastFoundSkips(before, shorter);
    }
  }

  lemma ScansConcat(a: seq<string>, b: seq<string>, decode: string -> Value)
    ensures Scans(a + b, decode) == Scans(a, decode) + Scans(b, decode)
  {
    MapConcat(a, b, LineScanner(decode));
  }

  lemma ScansAppend(before: seq<string>, line: string, after: seq<string>, decode: string -> Value)
    ensures Scans(before + [line] + after, decode) == Scans(before, decode) + [ScanLine(line, decode)] + Scans(after, decode)
    ensures Scans(before + after, decode) == Scans(before, decode) + Scans(after, decode)
  {
    ScansConcat(before, [line], decode);
    ScansConcat(before + [line], after, decode);
    ScansConcat(before, after, decode);
  }

  /** When several lines carry completed data, the last of them decides. */
  lemma LastCompletedWins(before: seq<string>, line: string, after: seq<string>, decode: string -> Value)
    requires ScanLine(line, decode).Some?
    requires forall j :: 0 <= j < |after| ==> ScanLine(after[j], decode).None?
    ensures LastCompleted(before + [line] + after, decode) == ScanLine(line, decode)
  {
    ScansAppend(before, line, after, decode);
    LastFoundWins(Scans(before, decode), ScanLine(line, decode), Scans(after, decode));
  }

  /** A line without completed data (not a `data:` line, an empty or `[DONE]`
      payload, a falsy payload, another event type) changes nothing. */
  lemma IgnoredLine(before: seq<string>, line: string, after: seq<string>, decode: string -> Value)
    requires ScanLine(line, decode).None?
    ensures LastCompleted(before + [line] + after, decode) == LastCompleted(before + after, decode)
  {
    ScansAppend(before, line, after, decode);
    LastFoundSkips(Scans(before, decode), Scans(after, decode));
  }

  /** A `data:` line whose payload is a truthy `response.completed` event,
      followed by no other such event, turns the body into a 200 JSON response
      carrying that event's `response` field (or the event itself) when that is
      truthy. */
  lemma CompletedEventAnswered(resp: ClientResponse, before: seq<string>, line: string, after: seq<string>,
                               payload: string, decode: string -> Value, encode: Value -> string)
    requires Split(resp.body, '\n') == before + [line] + after
    requires Payload(line) == Some(payload) && payload != "" && payload != "[DONE]"
    requires Truthy(decode(payload)) && Get(decode(payload), StrKey("type")) == Some(Str("response.completed"))
    requires Truthy(Coalesce(Get(decode(payload), StrKey("response")), decode(payload)))
    requires forall j :: 0 <= j < |after| ==> ScanLine(after[j], decode).None?
    ensures Collected(resp, decode, encode)
            == ClientResponse(200, JsonHeaders, encode(Coalesce(Get(decode(payload), StrKey("response")), decode(payload))))
  {
    LastCompletedWins(before, line, after, decode);
  }

  /** With no completed event at all, the original response passes through. */
  lemma NoCompletedPassesThrough(resp: ClientResponse, decode: string -> Value, encode: Value -> string)
    requires forall j :: 0 <= j < |Split(resp.body, '\n')| ==> ScanLine(Split(resp.body, '\n')[j], decode).None?
    ensures Collected(resp, decode, encode) == resp
  {
    NoneFound(Scans(Split(resp.body, '\n'), decode));
  }

  lemma {:induction false} NoneFound(found: seq<Option<Value>>)
    requires forall j :: 0 <= j < |found| ==> found[j].None?
    ensures LastFound(found).None?
  {
    if found != [] {
      NoneFound(found[..|found| - 1]);
    }
  }

  /** `sendRequest`: the outbound request, and the response handed back for
      the upstream's buffered reply. */
  function SendRequest(req: TextRequest, upstream: ClientResponse, decode: string -> Value, encode: Value -> string)
    : (r: Option<(Outbound, ClientResponse)>)
    ensures r.Some? <==> Body(req).Some?
    ensures r.Some? ==> r.value.0 == Outbound(ResponsesPath, RequestTimeout, false, Body(req).value)
    ensures r.Some? ==> r.value.1 == Collected(upstream, decode, encode)
  {
    var body := Body(req);
    if body.None? then None
    else Some((Outbound(ResponsesPath, RequestTimeout, false, body.value), Collected(upstream, decode, encode)))
  }
}
