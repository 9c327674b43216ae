/** A client of the Anthropic stream, from the bytes on: the payloads of the events
    are decoded into events again, and these are read into the message. */
module AnthropicClient {
  import opened Text
  import opened JsonValues
  import opened Models
  import opened Sse
  import opened ReadBack
  import opened AnthropicAnswer
  import A = AnthropicStream

  // ---------- decoding payloads ----------

  function TextAt(f: Fields, key: string): Option<string> {
    if key in f && f[key].JString? then Some(f[key].s) else None
  }

  function NumberAt(f: Fields, key: string): Option<int> {
    if key in f && f[key].JNumber? then Some(f[key].n.Floor) else None
  }

  function ObjectAt(f: Fields, key: string): Fields {
    if key in f && f[key].JObject? then f[key].fields else map[]
  }

  function DecodeBlock(f: Fields): Option<A.Block> {
    match TextAt(f, "type")
    case None => None
    case Some(kind) =>
      if kind == "thinking" then Some(A.ThinkingBlock)
      else if kind == "text" then Some(A.TextBlock)
      else if kind == "tool_use" && TextAt(f, "id").Some? && TextAt(f, "name").Some?
      then Some(A.ToolUseBlock(TextAt(f, "id").value, TextAt(f, "name").value))
      else None
  }

  function DecodeDelta(f: Fields): Option<A.Delta> {
    match TextAt(f, "type")
    case None => None
    case Some(kind) =>
      if kind == "thinking_delta" && TextAt(f, "thinking").Some? then Some(A.ThinkingDelta(TextAt(f, "thinking").value))
      else if kind == "signature_delta" && TextAt(f, "signature").Some? then Some(A.SignatureDelta(TextAt(f, "signature").value))
      else if kind == "text_delta" && TextAt(f, "text").Some? then Some(A.TextDelta(TextAt(f, "text").value))
      else if kind == "input_json_delta" && TextAt(f, "partial_json").Some? then Some(A.InputJsonDelta(TextAt(f, "partial_json").value))
      else None
  }

  function DecodeStart(f: Fields): Option<A.Event> {
    var m := ObjectAt(f, "message");
    var tokens := NumberAt(ObjectAt(m, "usage"), "input_tokens");
    if TextAt(m, "id").Some? && TextAt(m, "model").Some? && tokens.Some?
    then Some(A.MessageStart(TextAt(m, "id").value, TextAt(m, "model").value, tokens.value)) else None
  }

  function DecodeEnd(f: Fields): Option<A.Event> {
    var reason, tokens := TextAt(ObjectAt(f, "delta"), "stop_reason"), NumberAt(ObjectAt(f, "usage"), "output_tokens");
    if reason.Some? && tokens.Some? then Some(A.MessageDelta(reason.value, tokens.value)) else None
  }

  /** One event, told by the type in its payload. */
  function DecodeEvent(n: Named): Option<A.Event> {
    if !n.payload.JObject? || TextAt(n.payload.fields, "type") != Some(n.name) then None
    else
      var f := n.payload.fields;
      var index := NumberAt(f, "index");
      if n.name == "message_start" then DecodeStart(f)
      else if n.name == "content_block_start" then
        var block := DecodeBlock(ObjectAt(f, "content_block"));
        if index.Some? && block.Some? then Some(A.BlockStart(index.value, block.value)) else None
      else if n.name == "content_block_delta" then
        var delta := DecodeDelta(ObjectAt(f, "delta"));
        if index.Some? && delta.Some? then Some(A.BlockDelta(index.value, delta.value)) else None
      else if n.name == "content_block_stop" then (if index.Some? then Some(A.BlockStop(index.value)) else None)
      else if n.name == "message_delta" then DecodeEnd(f)
      else if n.name == "message_stop" then Some(A.MessageStop)
      else None
  }

  /** All events, or none if one of them cannot be decoded. */
  function DecodeAll(ns: seq<Named>): Option<seq<A.Event>> {
    if ns == [] then Some([])
    else
      match (DecodeEvent(ns[0]), DecodeAll(ns[1..]))
      case (Some(e), Some(rest)) => Some([e] + rest)
      case _ => None
  }

  // ---------- decoding undoes encoding ----------

  lemma NumberRead(n: int)
    ensures (n as real).Floor == n
  {
  }

  lemma BlockDecodes(b: A.Block)
    ensures DecodeBlock(BlockFields(b)) == Some(b)
  {
  }

  lemma DeltaDecodes(d: A.Delta)
    ensures DecodeDelta(DeltaFields(d)) == Some(d)
  {
  }

  lemma StartDecodes(id: string, model: string, tokens: int)
    ensures DecodeStart(AnthropicFields(A.MessageStart(id, model, tokens))) == Some(A.MessageStart(id, model, tokens))
  {
    NumberRead(tokens);
    var m := MessageFields(id, model, tokens);
    assert ObjectAt(AnthropicFields(A.MessageStart(id, model, tokens)), "message") == m;
    assert TextAt(m, "id") == Some(id) && TextAt(m, "model") == Some(model);
  }

  lemma EndDecodes(reason: string, tokens: int)
    ensures DecodeEnd(AnthropicFields(A.MessageDelta(reason, tokens))) == Some(A.MessageDelta(reason, tokens))
  {
    NumberRead(tokens);
  }

  /** Every event is decoded from the payload that is sent for it. */
  lemma EventDecodes(e: A.Event)
    ensures DecodeEvent(AnthropicNamed(e)) == Some(e)
  {
    var f := AnthropicFields(e);
    assert TextAt(f, "type") == Some(AnthropicName(e));
    match e {
      case MessageStart(id, model, tokens) => StartDecodes(id, model, tokens);
      case BlockStart(i, block) => NumberRead(i); BlockDecodes(block); assert ObjectAt(f, "content_block") == BlockFields(block);
      case BlockDelta(i, delta) => NumberRead(i); DeltaDecodes(delta); assert ObjectAt(f, "delta") == DeltaFields(delta);
      case BlockStop(i) => NumberRead(i);
      case MessageDelta(reason, tokens) => EndDecodes(reason, tokens);
      case MessageStop =>
    }
  }

  lemma {:induction false} AllDecode(events: seq<A.Event>)
    ensures DecodeAll(AnthropicWire(events)) == Some(events)
    decreases |events|
  {
    var wire := AnthropicWire(events);
    if events != [] {
      assert wire[0] == AnthropicNamed(events[0]) && wire[1..] == AnthropicWire(events[1..]);
      EventDecodes(events[0]);
      AllDecode(events[1..]);
      assert [events[0]] + events[1..] == events;
    }
  }

  // ---------- from the bytes to the message ----------

  /** What the client makes of the bytes of a stream. */
  function Receive(codec: Codec, env: A.Env, bytes: string): A.Reader {
    match DecodeAll(Sse.ReadAll(codec, bytes))
    case None => A.Broken
    case Some(events) => A.ReadAll(env, A.Waiting, events)
  }

  /** The bytes that are written for a response are read as a message that delivers it. */
  lemma ClientReceives(codec: Codec, env: A.Env, requestedModel: string, r: Response)
    requires Faithful(codec) && Inverse(env.lib) && A.Uncut(env, r)
    requires forall e :: e in A.StreamTrace(env, requestedModel, r) ==> Says(codec.range, e)
    ensures var got := Receive(codec, env, WriteAll(codec, AnthropicWire(A.StreamTrace(env, requestedModel, r))));
            got.Finished? && Delivers(env, r, true, env.newID, 1, got.message)
  {
    var events := A.StreamTrace(env, requestedModel, r);
    var wire := AnthropicWire(events);
    forall i | 0 <= i < |wire| ensures PlainName(wire[i].name) && Carries(codec.range, wire[i].payload) {
      AnthropicNamesPlain(events[i]);
      AnthropicCarried(codec.range, events[i]);
    }
    FramingRoundTrip(codec, wire);
    AllDecode(events);
    StreamDelivers(env, requestedModel, r);
  }
}
