/** The tool registry: registration, all-or-nothing preflight, and the result cache. */
module Tools {
  import opened Wire

  /** Only local argument validation is visible here; what `execute` does is up to the world. */
  datatype Tool = Tool(validate: Json -> bool)

  datatype CachedResult = CachedResult(name: Text, arguments: Json, output: Text)

  datatype PreparedCall = PreparedCall(call: FunctionCall, arguments: Json)

  predicate NameByte(b: byte) {
    || 48 <= b <= 57 || 65 <= b <= 90 || 97 <= b <= 122
    || b == 95 || b == 45
  }

  predicate ValidToolName(name: Text) {
    0 < |name| <= 64 && forall i :: 0 <= i < |name| ==> NameByte(name[i])
  }

  const MAX_DESCRIPTION_BYTES: nat := 8192

  datatype ToolDefinition = ToolDefinition(name: Text, description: Text, parameters: Json)

  /** `ToolDefinition::validate`. */
  predicate ValidDefinition(d: ToolDefinition) {
    && ValidToolName(d.name) && |d.description| <= MAX_DESCRIPTION_BYTES
    && d.parameters.Get(Ascii("type")) == Some(String(Ascii("object")))
  }

  /** One item may run: an ordinary call to a registered tool that accepts its arguments. */
  predicate Callable(codec: Codec, tools: map<Text, Tool>, item: OutputItem) {
    && Ordinary(codec, item)
    && var call := item.functionCall.value;
       && call.name in tools
       && tools[call.name].validate(codec.parse(call.arguments).value)
  }

  /** A whole response may run, as far as the registered tools are concerned. */
  predicate Executable(codec: Codec, tools: map<Text, Tool>, response: ModelResponse) {
    && response.outcome.ResponseCompleted?
    && (forall i :: 0 <= i < |response.output| ==>
          Plain(response.output[i].kind) || Callable(codec, tools, response.output[i]))
    && DistinctIds(CallsOf(response.output))
    && |CallsOf(response.output)| <= MAX_INPUT_ITEMS
  }

  /** The call does not contradict an earlier result saved under its id. */
  predicate Agrees(codec: Codec, results: map<Text, CachedResult>, call: FunctionCall) {
    call.callId in results ==>
      && results[call.callId].name == call.name
      && codec.parse(call.arguments) == Some(results[call.callId].arguments)
  }

  function Prepared(codec: Codec, calls: seq<FunctionCall>): (r: seq<PreparedCall>)
    requires forall i :: 0 <= i < |calls| ==> codec.parse(calls[i].arguments).Some?
    ensures |r| == |calls|
  {
    seq(|calls|, i requires 0 <= i < |calls| => PreparedCall(calls[i], codec.parse(calls[i].arguments).value))
  }

  /** Every call of an acceptable output comes from an acceptable item. */
  lemma {:induction false} CallsAreCallable(codec: Codec, tools: map<Text, Tool>, output: seq<OutputItem>)
    requires forall i :: 0 <= i < |output| ==> Plain(output[i].kind) || Callable(codec, tools, output[i])
    ensures forall k :: 0 <= k < |CallsOf(output)| ==>
              && var call := CallsOf(output)[k];
                 && 0 < |call.callId| <= MAX_CALL_ID && call.name in tools
                 && codec.parse(call.arguments).Some? && codec.parse(call.arguments).value.Object?
  {
    if output != [] {
      CallsAreCallable(codec, tools, output[..|output| - 1]);
    }
  }

  class ToolRegistry {
    var tools: map<Text, Tool>
    var results: map<Text, CachedResult>

    /** Registration only ever admits valid names. */
    ghost predicate Valid() reads this {
      forall name :: name in tools ==> ValidToolName(name)
    }

    constructor ()
      ensures Valid() && tools == map[] && results == map[]
    {
      tools, results := map[], map[];
    }

    method Register(d: ToolDefinition, tool: Tool) returns (ok: bool)
      requires Valid()
      modifies this
      ensures Valid() && results == old(results)
      ensures ok == (ValidDefinition(d) && d.name !in old(tools))
      ensures tools == if ok then old(tools)[d.name := tool] else old(tools)
    {
      ok := ValidDefinition(d) && d.name !in tools;
      if ok { tools := tools[d.name := tool]; }
    }

    /** The same tools, and an empty cache. */
    method FreshScope() returns (scope: ToolRegistry)
      requires Valid()
      ensures fresh(scope) && scope.Valid() && scope.tools == tools && scope.results == map[]
    {
      scope := new ToolRegistry();
      scope.tools := tools;
    }

    /** Accepts exactly the executable responses that agree with every saved result, and then
        yields all of their calls in order. Nothing runs, and nothing changes, here. */
    method Preflight(codec: Codec, response: ModelResponse) returns (r: Option<seq<PreparedCall>>)
      ensures r.Some? <==>
              && Executable(codec, tools, response)
              && forall k :: 0 <= k < |CallsOf(response.output)| ==>
                   Agrees(codec, results, CallsOf(response.output)[k])
      ensures r.Some? ==>
              && (forall k :: 0 <= k < |CallsOf(response.output)| ==>
                    codec.parse(CallsOf(response.output)[k].arguments).Some?)
              && r.value == Prepared(codec, CallsOf(response.output))
    {
      if !response.outcome.ResponseCompleted? {
        return None;
      }
      var calls: seq<PreparedCall> := [];
      var ids: set<Text> := {};
      var i := 0;
      while i < |response.output|
        invariant 0 <= i <= |response.output|
        invariant forall j :: 0 <= j < i ==>
                    Plain(response.output[j].kind) || Callable(codec, tools, response.output[j])
        invariant Accumulated(codec, results, CallsOf(response.output[..i]), calls, ids)
      {
        var item := response.output[i];
        assert response.output[..i + 1][..i] == response.output[..i];
        if !Plain(item.kind) {
          if !Ordinary(codec, item) || item.functionCall.value.callId in ids {
            Refused(codec, tools, results, response, i, ids);
            return None;
          }
          var call := item.functionCall.value;
          var arguments := codec.parse(call.arguments).value;
          if || call.name !in tools
             || !tools[call.name].validate(arguments)
             || (call.callId in results
                 && (results[call.callId].name != call.name || results[call.callId].arguments != arguments))
          {
            Refused(codec, tools, results, response, i, ids);
            return None;
          }
          Accumulate(codec, results, CallsOf(response.output[..i]), call, calls, ids);
          calls := calls + [PreparedCall(call, arguments)];
          ids := ids + {call.callId};
        }
        i := i + 1;
      }
      assert response.output[..i] == response.output;
      if |calls| > MAX_INPUT_ITEMS {
        return None;
      }
      return Some(calls);
    }
  }

  /** What the preflight loop has gathered from a prefix of the output. */
  ghost predicate Accumulated(codec: Codec, results: map<Text, CachedResult>, seen: seq<FunctionCall>,
                              calls: seq<PreparedCall>, ids: set<Text>)
  {
    && DistinctIds(seen)
    && IdsOf(seen, ids)
    && (forall k :: 0 <= k < |seen| ==> codec.parse(seen[k].arguments).Some? && Agrees(codec, results, seen[k]))
    && calls == Prepared(codec, seen)
  }

  lemma Accumulate(codec: Codec, results: map<Text, CachedResult>, seen: seq<FunctionCall>, call: FunctionCall,
                   calls: seq<PreparedCall>, ids: set<Text>)
    requires Accumulated(codec, results, seen, calls, ids) && call.callId !in ids
    requires codec.parse(call.arguments).Some? && Agrees(codec, results, call)
    ensures Accumulated(codec, results, seen + [call],
                        calls + [PreparedCall(call, codec.parse(call.arguments).value)], ids + {call.callId})
  {
    AddId(seen, ids, call);
  }

  /** An item that fails its own checks, repeats an id, or disagrees with the cache refuses the response. */
  lemma Refused(codec: Codec, tools: map<Text, Tool>, results: map<Text, CachedResult>,
                response: ModelResponse, i: nat, ids: set<Text>)
    requires i < |response.output| && !Plain(response.output[i].kind)
    requires IdsOf(CallsOf(response.output[..i]), ids)
    requires || !Callable(codec, tools, response.output[i])
             || response.output[i].functionCall.value.callId in ids
             || !Agrees(codec, results, response.output[i].functionCall.value)
    ensures !(&& Executable(codec, tools, response)
              && forall k :: 0 <= k < |CallsOf(response.output)| ==>
                   Agrees(codec, results, CallsOf(response.output)[k]))
  {
    var output := response.output;
    if Callable(codec, tools, output[i]) {
      assert output[..i + 1][..i] == output[..i];
      var before := CallsOf(output[..i]);
      assert CallsOf(output[..i + 1]) == before + [output[i].functionCall.value];
      CallsPrefix(output, i + 1);
      assert CallsOf(output)[|before|] == output[i].functionCall.value;
      if output[i].functionCall.value.callId in ids {
        var k :| 0 <= k < |before| && before[k].callId == output[i].functionCall.value.callId;
        assert CallsOf(output)[k] == before[k];
      }
    }
  }
}
