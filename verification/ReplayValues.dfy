/** The read side's validating constructors: what stored history must look like to be replayed. */
module ReplayValues {
  import opened Wire

  datatype ReplayRun = ReplayRun(sourceRunId: Text, prompt: Text, exchanges: seq<Exchange>)

  datatype ConversationReplay = ConversationReplay(
    provider: Text, model: Text, expected: Option<ReplayIdentity>, runs: seq<ReplayRun>)

  const MAX_MODEL_BYTES: nat := 256

  /** Only function calls carry a call, and each call is ordinary, named and distinct. */
  predicate ValidItem(codec: Codec, item: OutputItem) {
    || (Plain(item.kind) && item.functionCall.None?)
    || (Ordinary(codec, item) && item.functionCall.value.name != [])
  }

  predicate ValidResponse(codec: Codec, response: ModelResponse) {
    && response.id != [] && response.outcome.ResponseCompleted?
    && (forall i :: 0 <= i < |response.output| ==> ValidItem(codec, response.output[i]))
    && DistinctIds(CallsOf(response.output))
  }

  /** The calls carried by any item, whatever its kind. */
  function Carried(output: seq<OutputItem>): seq<FunctionCall> {
    if output == [] then []
    else
      var last := output[|output| - 1];
      var before := Carried(output[..|output| - 1]);
      if last.functionCall.Some? then before + [last.functionCall.value] else before
  }

  /** In a valid response only function calls carry a call. */
  lemma {:induction false} CarriedAreCalls(codec: Codec, output: seq<OutputItem>)
    requires forall i :: 0 <= i < |output| ==> ValidItem(codec, output[i])
    ensures Carried(output) == CallsOf(output)
  {
    if output != [] {
      assert ValidItem(codec, output[|output| - 1]);
      CarriedAreCalls(codec, output[..|output| - 1]);
    }
  }

  predicate Answers(calls: seq<FunctionCall>, results: seq<InputItem>) {
    && |calls| == |results|
    && forall k :: 0 <= k < |calls| ==> results[k].ToolResult? && results[k].callId == calls[k].callId
  }

  /** A valid response with one result per call, in order. */
  predicate ValidExchange(codec: Codec, response: ModelResponse, results: seq<InputItem>) {
    ValidResponse(codec, response) && Answers(CallsOf(response.output), results)
  }

  /** A replayable run: named, prompted, and every exchange but the last goes on with tool results. */
  predicate ValidRun(codec: Codec, run: ReplayRun) {
    && !codec.blank(run.sourceRunId) && !codec.blank(run.prompt) && run.exchanges != []
    && (forall i :: 0 <= i < |run.exchanges| - 1 ==> run.exchanges[i].results != [])
  }

  predicate DistinctRuns(runs: seq<ReplayRun>) {
    forall i, j :: 0 <= i < j < |runs| ==> runs[i].sourceRunId != runs[j].sourceRunId
  }

  predicate ValidConversation(codec: Codec, replay: ConversationReplay) {
    && !codec.blank(replay.provider) && !codec.blank(replay.model) && |replay.model| <= MAX_MODEL_BYTES
    && (replay.expected.Some? ==> replay.expected.value.provider == replay.provider)
    && (replay.runs != [] ==> replay.expected.Some?)
    && DistinctRuns(replay.runs)
  }

  method ValidateResponse(codec: Codec, response: ModelResponse) returns (ok: bool)
    ensures ok <==> ValidResponse(codec, response)
  {
    if response.id == [] || !response.outcome.ResponseCompleted? {
      return false;
    }
    var output := response.output;
    var ids: set<Text> := {};
    for i := 0 to |output|
      invariant forall j :: 0 <= j < i ==> ValidItem(codec, output[j])
      invariant DistinctIds(CallsOf(output[..i]))
      invariant IdsOf(CallsOf(output[..i]), ids)
    {
      var item := output[i];
      assert output[..i + 1][..i] == output[..i];
      if !ValidItem(codec, item) {
        return false;
      }
      if item.kind.FunctionCallItem? {
        var call := item.functionCall.value;
        AddId(CallsOf(output[..i]), ids, call);
        if call.callId in ids {
          CallsPrefix(output, i + 1);
          if DistinctIds(CallsOf(output)) { PrefixDistinct(CallsOf(output), CallsOf(output[..i + 1])); }
          return false;
        }
        ids := ids + {call.callId};
      }
    }
    assert output[..|output|] == output;
    return true;
  }

  /** `ReplayExchange::new` walks the results beside the calls. */
  method NewExchange(codec: Codec, response: ModelResponse, results: seq<InputItem>) returns (r: Option<Exchange>)
    ensures r.Some? <==> ValidExchange(codec, response, results)
    ensures r.Some? ==> r.value == Exchange(response, results)
  {
    var valid := ValidateResponse(codec, response);
    if !valid {
      return None;
    }
    var output := response.output;
    var next := 0;
    for i := 0 to |output|
      invariant 0 <= next <= |results|
      invariant Answers(CallsOf(output[..i]), results[..next])
    {
      assert output[..i + 1][..i] == output[..i];
      if output[i].functionCall.Some? {
        assert ValidItem(codec, output[i]);
        var call := output[i].functionCall.value;
        if next == |results| || !results[next].ToolResult? || results[next].callId != call.callId {
          CallsPrefix(output, i + 1);
          assert CallsOf(output)[next] == call;
          return None;
        }
        assert results[..next + 1] == results[..next] + [results[next]];
        next := next + 1;
      } else {
        assert ValidItem(codec, output[i]);
      }
    }
    assert output[..|output|] == output;
    if next != |results| {
      return None;
    }
    assert results[..next] == results;
    return Some(Exchange(response, results));
  }

  /** `ConversationReplay::new`, with its set of seen run ids. */
  method NewConversation(codec: Codec, provider: Text, model: Text, expected: Option<ReplayIdentity>, runs: seq<ReplayRun>)
    returns (r: Option<ConversationReplay>)
    ensures r.Some? <==> ValidConversation(codec, ConversationReplay(provider, model, expected, runs))
    ensures r.Some? ==> r.value == ConversationReplay(provider, model, expected, runs)
  {
    if || codec.blank(provider) || codec.blank(model) || |model| > MAX_MODEL_BYTES
       || (expected.Some? && expected.value.provider != provider)
       || (runs != [] && expected.None?)
    {
      return None;
    }
    var ids: set<Text> := {};
    for i := 0 to |runs|
      invariant DistinctRuns(runs[..i])
      invariant forall id :: id in ids <==> exists k :: 0 <= k < i && runs[k].sourceRunId == id
    {
      if runs[i].sourceRunId in ids {
        return None;
      }
      ids := ids + {runs[i].sourceRunId};
    }
    assert runs[..|runs|] == runs;
    return Some(ConversationReplay(provider, model, expected, runs));
  }
}
