/**
 * The request body both handlers of src/Handlers send to the `responses`
 * endpoint: the system prompts become the top-level `instructions`, the
 * messages (as the message mapper renders them) are the `input`, streaming is
 * always requested, server-side storage is always refused, and the optional
 * generation settings appear only when they are not null.
 */
module RequestBody {
  import opened Wrappers
  import opened PhpArray
  import opened Strings
  import opened SchemaSanitizer

  const DefaultInstructions := "You are a helpful assistant."

  /** What the handlers read from a text request.  `input` is the message
      mapper's output, `tools` the tool builder's output and `toolChoice` the
      tool-choice mapper's output, all opaque here; a null setting is unset. */
  datatype TextRequest = TextRequest(
    model: string,
    systemPrompts: seq<string>,
    input: Value,
    maxTokens: Value,
    temperature: Value,
    topP: Value,
    tools: seq<Value>,
    toolChoice: Value,
    reasoning: Value)

  /** The system prompts joined by a blank line, or the default when that join
      is falsy (`?:`).  The result is never falsy. */
  function Instructions(prompts: seq<string>): (r: string)
    ensures Truthy(Str(r))
    ensures r == Join(prompts, "\n\n") || r == DefaultInstructions
    ensures Truthy(Str(Join(prompts, "\n\n"))) ==> r == Join(prompts, "\n\n")
  {
    var joined := Join(prompts, "\n\n");
    if Truthy(Str(joined)) then joined else DefaultInstructions
  }

  lemma NoSystemPrompt()
    ensures Instructions([]) == DefaultInstructions
  {
  }

  lemma OneSystemPrompt(p: string)
    requires p != "" && p != "0"
    ensures Instructions([p]) == p
  {
  }

  /** The always-present part of the body. */
  function FixedFields(req: TextRequest): Entries {
    [(StrKey("model"), Str(req.model)),
     (StrKey("instructions"), Str(Instructions(req.systemPrompts))),
     (StrKey("input"), req.input),
     (StrKey("stream"), Bool(true)),
     (StrKey("store"), Bool(false))]
  }

  /** The optional settings, before nulls are dropped. */
  function OptionalFields(req: TextRequest, tools: seq<Value>): (e: Entries)
    ensures DistinctKeys(e) && |e| == 6
    ensures forall i :: 0 <= i < |e| ==> e[i].0 !in Keys(FixedFields(req))
  {
    [(StrKey("max_output_tokens"), req.maxTokens),
     (StrKey("temperature"), req.temperature),
     (StrKey("top_p"), req.topP),
     (StrKey("tools"), Arr(List(tools))),
     (StrKey("tool_choice"), req.toolChoice),
     (StrKey("reasoning"), req.reasoning)]
  }

  /** `array_merge([...fixed], Arr::whereNotNull([...optional]))`, with the tools
      sanitised first; a tool the sanitiser rejects raises. */
  function Body(req: TextRequest): (r: Option<Entries>)
    ensures r.Some? <==> SanitizeTools(req.tools).Some?
    ensures r.Some? ==> Lookup(r.value, StrKey("stream")) == Some(Bool(true))
                        && Lookup(r.value, StrKey("store")) == Some(Bool(false))
                        && Lookup(r.value, StrKey("model")) == Some(Str(req.model))
                        && Lookup(r.value, StrKey("input")) == Some(req.input)
                        && Lookup(r.value, StrKey("instructions")) == Some(Str(Instructions(req.systemPrompts)))
  {
    var tools := SanitizeTools(req.tools);
    if tools.None? then None
    else
      var rest := WhereNotNull(OptionalFields(req, tools.value));
      OptionalKeysDisjoint(req, tools.value);
      FixedFieldsFound(req, rest);
      Some(ArrayMerge(FixedFields(req), rest))
  }

  /** No optional setting, null or not, can override a fixed field. */
  lemma OptionalKeysDisjoint(req: TextRequest, tools: seq<Value>)
    ensures Keys(WhereNotNull(OptionalFields(req, tools))) !! Keys(FixedFields(req))
  {
    var opt := OptionalFields(req, tools);
    forall k | k in Keys(WhereNotNull(opt)) ensures k !in Keys(FixedFields(req)) {
      var i :| 0 <= i < |opt| && opt[i].0 == k;
    }
  }

  /** `array_merge` lets a later string key win, so the fixed fields are found
      in the body as long as the merged settings carry none of their keys. */
  lemma FixedFieldsFound(req: TextRequest, rest: Entries)
    requires Keys(rest) !! Keys(FixedFields(req))
    ensures var b := ArrayMerge(FixedFields(req), rest);
            Lookup(b, StrKey("model")) == Some(Str(req.model))
            && Lookup(b, StrKey("instructions")) == Some(Str(Instructions(req.systemPrompts)))
            && Lookup(b, StrKey("input")) == Some(req.input)
            && Lookup(b, StrKey("stream")) == Some(Bool(true))
            && Lookup(b, StrKey("store")) == Some(Bool(false))
  {
    var f := FixedFields(req);
    assert DistinctKeys(f);
    assert f[0].0 == StrKey("model") && f[1].0 == StrKey("instructions") && f[2].0 == StrKey("input");
    assert f[3].0 == StrKey("stream") && f[4].0 == StrKey("store");
    forall i | 0 <= i < 5 ensures Lookup(ArrayMerge(f, rest), f[i].0) == Some(f[i].1) {
      assert f[i].0 in Keys(f);
      ArrayMergeLookup(f, rest, f[i].0);
      LookupLastDistinct(f, f[i].0);
      LookupDistinct(f, i);
    }
  }

  /** An optional setting is in the body exactly when it is not null, and then
      with its own value. */
  lemma OptionalFieldPresence(req: TextRequest, i: nat)
    requires Body(req).Some? && i < 6
    ensures var opt := OptionalFields(req, SanitizeTools(req.tools).value);
            (opt[i].1 == Null ==> Lookup(Body(req).value, opt[i].0).None?)
            && (opt[i].1 != Null ==> Lookup(Body(req).value, opt[i].0) == Some(opt[i].1))
  {
    var opt := OptionalFields(req, SanitizeTools(req.tools).value);
    var rest := WhereNotNull(opt);
    var k := opt[i].0;
    assert k.StrKey?;
    assert k !in Keys(FixedFields(req));
    ArrayMergeLookup(FixedFields(req), rest, k);
    WhereNotNullDistinct(opt);
    LookupLastDistinct(rest, k);
    assert Lookup(opt, k) == Some(opt[i].1) by {
      LookupDistinct(opt, i);
    }
    if opt[i].1 == Null {
      WhereNotNullDropsNull(opt, k);
    }
  }

  /** The sanitised tools are always sent, as a list, even when there are none. */
  lemma ToolsAlwaysSent(req: TextRequest)
    requires Body(req).Some?
    ensures Lookup(Body(req).value, StrKey("tools")) == Some(Arr(List(SanitizeTools(req.tools).value)))
  {
    OptionalFieldPresence(req, 3);
  }

  /** A request sent to the upstream API: the endpoint path, the timeout in
      seconds, whether the transport streams the response, and the JSON body. */
  datatype Outbound = Outbound(path: string, timeoutSeconds: int, streamOption: bool, body: Entries)

  const ResponsesPath := "responses"
  const RequestTimeout := 300
}
