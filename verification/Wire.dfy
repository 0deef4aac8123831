/** Provider-neutral values shared by the run controller, replay and display code. */
module Wire {

  newtype byte = x: int | 0 <= x < 256

  /** A Rust `str`: its UTF-8 bytes. `len()` is the byte length. */
  type Text = seq<byte>

  const U64_MAX: nat := 0xFFFF_FFFF_FFFF_FFFF
  type u64 = x: int | 0 <= x <= U64_MAX

  datatype Option<+T> = None | Some(value: T)

  predicate IsAscii(s: string) {
    forall i :: 0 <= i < |s| ==> s[i] < 128 as char
  }

  function Ascii(s: string): (t: Text)
    requires IsAscii(s)
    ensures |t| == |s|
    ensures forall i :: 0 <= i < |s| ==> t[i] as int == s[i] as int
  {
    seq(|s|, i requires 0 <= i < |s| => (s[i] as int) as byte)
  }

  /** Decoded JSON. Objects are maps: key order never reaches the modelled code. */
  datatype Json =
    | Null
    | Bool(flag: bool)
    | Number(number: real)
    | String(text: Text)
    | Array(elements: seq<Json>)
    | Object(members: map<Text, Json>)
  {
    /** `Value::get`: a member of an object, and nothing of any other value. */
    function Get(key: Text): Option<Json> {
      if Object? && key in members then Some(members[key]) else None
    }
  }

  datatype ItemKind =
    | Message | Reasoning | FunctionCallItem | CustomToolCall | ToolSearchCall
    | ToolSearchOutput | Program | ProgramOutput | UnknownItem

  datatype CallOrigin = Direct | Programmatic | UnknownOrigin

  datatype FunctionCall = FunctionCall(
    callId: Text, name: Text, arguments: Text,
    origin: CallOrigin, namespace: Option<Text>, complete: bool)

  datatype OutputItem = OutputItem(
    id: Option<Text>, kind: ItemKind, functionCall: Option<FunctionCall>, native: Json)

  datatype ResponseOutcome = ResponseCompleted | Incomplete | ResponseFailed | ResponseCancelled

  datatype ModelResponse = ModelResponse(
    id: Text, outcome: ResponseOutcome, output: seq<OutputItem>, text: Text)

  datatype InputItem = User(text: Text) | ToolResult(callId: Text, output: Text)

  /** Which account and wire format a provider session speaks for; compared, never interpreted. */
  datatype ReplayIdentity = ReplayIdentity(provider: Text, format: Text, digest: Text)

  /** One finished model turn: its response and the tool results prepared from it. */
  datatype Exchange = Exchange(response: ModelResponse, results: seq<InputItem>)

  const MAX_INPUT_BYTES: nat := 1024 * 1024
  const MAX_INPUT_ITEMS: nat := 128
  const MAX_CALL_ID: nat := 512
  const MAX_TOOL_BYTES: nat := 64 * 1024

  /** The parts of the Rust ecosystem this model keeps opaque: serde_json parsing and sizes,
      Unicode trimming, UUID spelling, and the adapter's local event identity. */
  datatype Codec = Codec(
    parse: Text -> Option<Json>,
    blank: Text -> bool,
    encodedSize: seq<InputItem> -> nat,
    canonicalUuid: Text -> bool,
    localEventId: (Text, Text, u64) -> bool)

  /** `validate_input`: between 1 and 128 items, no blank prompt, bounded ids, at most 1 MiB. */
  predicate ValidInput(codec: Codec, input: seq<InputItem>) {
    && 0 < |input| <= MAX_INPUT_ITEMS
    && (forall i :: 0 <= i < |input| ==>
          match input[i]
          case User(text) => !codec.blank(text)
          case ToolResult(callId, _) => 0 < |callId| <= MAX_CALL_ID)
    && codec.encodedSize(input) <= MAX_INPUT_BYTES
  }

  /** The calls of the FunctionCall items, in output order. */
  function CallsOf(output: seq<OutputItem>): seq<FunctionCall> {
    if output == [] then []
    else
      var last := output[|output| - 1];
      var before := CallsOf(output[..|output| - 1]);
      if last.kind.FunctionCallItem? && last.functionCall.Some? then before + [last.functionCall.value] else before
  }

  /** Calls of a prefix of the output are a prefix of the calls. */
  lemma {:induction false} CallsPrefix(output: seq<OutputItem>, i: nat)
    requires i <= |output|
    ensures CallsOf(output[..i]) <= CallsOf(output)
    decreases |output| - i
  {
    if i == |output| {
      assert output[..i] == output;
    } else {
      assert output[..i + 1][..i] == output[..i];
      CallsPrefix(output, i + 1);
    }
  }

  predicate Plain(kind: ItemKind) {
    kind.Message? || kind.Reasoning?
  }

  /** A namespace in the native object blocks execution even when normalization dropped it. */
  predicate NativeNamespace(item: OutputItem) {
    var native := item.native.Get(Ascii("namespace"));
    native.Some? && !native.value.Null?
  }

  /** The execution contract both sides check of one function call. */
  predicate Ordinary(codec: Codec, item: OutputItem) {
    && item.kind.FunctionCallItem?
    && item.functionCall.Some?
    && var call := item.functionCall.value;
       && call.complete && call.origin.Direct? && call.namespace.None? && !NativeNamespace(item)
       && 0 < |call.callId| <= MAX_CALL_ID
       && |call.arguments| <= MAX_TOOL_BYTES
       && codec.parse(call.arguments).Some? && codec.parse(call.arguments).value.Object?
  }

  predicate DistinctIds(calls: seq<FunctionCall>) {
    forall i, j :: 0 <= i < j < |calls| ==> calls[i].callId != calls[j].callId
  }

  /** `ids` are the ids of the calls. */
  ghost predicate IdsOf(calls: seq<FunctionCall>, ids: set<Text>) {
    && (forall k :: 0 <= k < |calls| ==> calls[k].callId in ids)
    && (forall id :: id in ids ==> exists k :: 0 <= k < |calls| && calls[k].callId == id)
  }

  lemma AddId(calls: seq<FunctionCall>, ids: set<Text>, call: FunctionCall)
    requires IdsOf(calls, ids) && DistinctIds(calls)
    ensures IdsOf(calls + [call], ids + {call.callId})
    ensures DistinctIds(calls + [call]) <==> call.callId !in ids
  {
    var more := calls + [call];
    forall id | id in ids + {call.callId} ensures exists k :: 0 <= k < |more| && more[k].callId == id {
      if id in ids {
        var k :| 0 <= k < |calls| && calls[k].callId == id;
        assert more[k].callId == id;
      } else {
        assert more[|calls|].callId == id;
      }
    }
    if call.callId in ids {
      var k :| 0 <= k < |calls| && calls[k].callId == call.callId;
      assert more[k].callId == more[|calls|].callId;
    }
  }

  lemma PrefixDistinct(calls: seq<FunctionCall>, prefix: seq<FunctionCall>)
    requires prefix <= calls && DistinctIds(calls)
    ensures DistinctIds(prefix)
  {
    forall i, j | 0 <= i < j < |prefix| ensures prefix[i].callId != prefix[j].callId {
      assert prefix[i] == calls[i] && prefix[j] == calls[j];
    }
  }
}
