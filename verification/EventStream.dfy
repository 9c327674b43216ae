/** The length-prefixed frames that carry Kiro events: the frame reader, the
    encoder it answers to, and the reading loop that feeds the parser. */
module EventStream {
  import opened Text
  import opened BraceScan
  import opened PatternSplitter
  import opened JsonValues
  import opened KiroParser

  type Headers = map<Bytes, Bytes>

  const MESSAGE_TYPE: Bytes := ":message-type"
  const UINT32 := 0x1_0000_0000

  /** The outcome of a read: io.EOF only when nothing at all could be read. */
  datatype Read<T> = Ok(value: T) | Eof | Failed

  /** io.ReadFull of n bytes from the front of the remaining input. */
  function ReadFull(input: Bytes, n: nat): Read<Bytes> {
    if n <= |input| then Ok(input[..n]) else if input == [] then Eof else Failed
  }

  function Uint16(b: Bytes): nat
    requires |b| == 2
  {
    At(b, 0) * 256 + At(b, 1)
  }

  function Uint32(b: Bytes): nat
    requires |b| == 4
  {
    At(b, 0) * 0x100_0000 + At(b, 1) * 0x1_0000 + At(b, 2) * 0x100 + At(b, 3)
  }

  // ---------- headers ----------

  /** One header: name length, name, value type 7, value length, value. */
  function ParseHeader(data: Bytes): (r: Read<(Bytes, Bytes, Bytes)>)
    requires data != []
    ensures r.Ok? ==> |r.value.2| < |data|
  {
    match ReadFull(data[1..], At(data, 0))
    case Eof => Eof
    case Failed => Failed
    case Ok(name) =>
      var afterName := data[1 + |name|..];
      if afterName == [] then Eof
      else if At(afterName, 0) != 7 then Failed
      else
        match ReadFull(afterName[1..], 2)
        case Eof => Eof
        case Failed => Failed
        case Ok(len) =>
          match ReadFull(afterName[3..], Uint16(len))
          case Eof => Eof
          case Failed => Failed
          case Ok(value) => Ok((name, value, afterName[3 + |value|..]))
  }

  function ParseHeaders(data: Bytes, acc: Headers): Read<Headers>
    decreases |data|
  {
    if data == [] then Ok(acc)
    else
      match ParseHeader(data)
      case Eof => Eof
      case Failed => Failed
      case Ok((name, value, rest)) => ParseHeaders(rest, acc[name := value])
  }

  /** parseEventHeaders. */
  method ParseEventHeaders(data: Bytes) returns (r: Read<Headers>)
    ensures r == ParseHeaders(data, map[])
  {
    var headers: Headers := map[];
    var buf := data;
    while buf != []
      invariant ParseHeaders(data, map[]) == ParseHeaders(buf, headers)
      decreases |buf|
    {
      var header := ParseHeader(buf);
      match header {
        case Eof => return Eof;
        case Failed => return Failed;
        case Ok((name, value, rest)) =>
          headers := headers[name := value];
          buf := rest;
      }
    }
    return Ok(headers);
  }

  // ---------- frames ----------

  datatype AwsEvent = AwsEvent(kind: Bytes, data: Bytes)

  /** The three lengths of a prelude; the payload length is uint32 arithmetic. */
  function PayloadLength(total: nat, headers: nat): nat {
    (total - headers - 16) % UINT32
  }

  /** What follows a prelude: headers, payload and checksum. */
  function ReadBody(input: Bytes, headersLength: nat, payloadLength: nat): (r: Read<(AwsEvent, Bytes)>)
    ensures r.Ok? ==> |r.value.1| <= |input|
  {
    match ReadFull(input, headersLength)
    case Eof => Eof
    case Failed => Failed
    case Ok(headersData) =>
      match ParseHeaders(headersData, map[])
      case Eof => Eof
      case Failed => Failed
      case Ok(headers) =>
        var in2 := input[headersLength..];
        match ReadFull(in2, payloadLength)
        case Eof => Eof
        case Failed => Failed
        case Ok(payload) =>
          var in3 := in2[payloadLength..];
          match ReadFull(in3, 4)
          case Eof => Eof
          case Failed => Failed
          case Ok(_) =>
            Ok((AwsEvent(if MESSAGE_TYPE in headers then headers[MESSAGE_TYPE] else [], payload), in3[4..]))
  }

  /** ReadEvent on the remaining input: the event and what is left. */
  function ReadEvent(input: Bytes): (r: Read<(AwsEvent, Bytes)>)
    ensures r.Ok? ==> |r.value.1| < |input|
  {
    match ReadFull(input, 12)
    case Eof => Eof
    case Failed => Failed
    case Ok(prelude) =>
      var headersLength := Uint32(prelude[4..8]);
      ReadBody(input[12..], headersLength, PayloadLength(Uint32(prelude[..4]), headersLength))
  }

  /** The collected state after reading the whole input, or None when a read
      fails with anything but io.EOF. */
  function Collect(env: Env, s: ParserView, input: Bytes): Option<ParserView>
    decreases |input|
  {
    match ReadEvent(input)
    case Eof => Some(s)
    case Failed => None
    case Ok((event, rest)) =>
      Collect(env, if event.kind == "event" then FeedParser(env, s, event.data) else s, rest)
  }

  class AwsEventReader {
    var input: Bytes

    constructor (input: Bytes)
      ensures this.input == input
    {
      this.input := input;
    }

    /** Read n bytes and move past them; a short read consumes everything. */
    method Take(n: nat) returns (r: Read<Bytes>)
      modifies this
      ensures r == ReadFull(old(input), n)
      ensures input == if n <= |old(input)| then old(input)[n..] else []
    {
      r := ReadFull(input, n);
      input := if n <= |input| then input[n..] else [];
    }

    method Next() returns (r: Read<AwsEvent>)
      modifies this
      ensures match ReadEvent(old(input))
              case Eof => r == Eof
              case Failed => r == Failed
              case Ok((event, rest)) => r == Ok(event) && input == rest
    {
      var prelude := Take(12);
      if !prelude.Ok? { return if prelude.Eof? then Eof else Failed; }
      var totalLength := Uint32(prelude.value[..4]);
      var headersLength := Uint32(prelude.value[4..8]);
      var payloadLength := PayloadLength(totalLength, headersLength);
      var headersData := Take(headersLength);
      if !headersData.Ok? { return if headersData.Eof? then Eof else Failed; }
      var headers := ParseEventHeaders(headersData.value);
      if !headers.Ok? { return if headers.Eof? then Eof else Failed; }
      var payload := Take(payloadLength);
      if !payload.Ok? { return if payload.Eof? then Eof else Failed; }
      var crc := Take(4);
      if !crc.Ok? { return if crc.Eof? then Eof else Failed; }
      var kind := if MESSAGE_TYPE in headers.value then headers.value[MESSAGE_TYPE] else [];
      return Ok(AwsEvent(kind, payload.value));
    }
  }

  /** The reading loop of collectCompletion: None when a read fails, otherwise
      what the parser holds once a tool call still open has been completed. */
  method CollectCompletion(env: Env, input: Bytes) returns (r: Option<Collected>)
    ensures r == match Collect(env, Start, input)
                 case None => None
                 case Some(s) => Some(s.got.(tools := Finalize(env, s.got.tools)))
  {
    var reader := new AwsEventReader(input);
    var state := new ParserState(env);
    while true
      invariant fresh(reader) && fresh(state) && state.env == env
      invariant Collect(env, Start, input) == Collect(env, state.View(), reader.input)
      decreases |reader.input|
    {
      var event := reader.Next();
      if event.Eof? {
        break;
      }
      if event.Failed? {
        return None;
      }
      if event.value.kind != "event" {
        continue;
      }
      state.FeedChunk(event.value.data);
    }
    state.FinalizeToolCall();
    return Some(state.View().got);
  }

  // ---------- the encoder ----------

  /** A frame to be sent; the reader ignores both checksums. */
  datatype Frame = Frame(kind: Bytes, payload: Bytes, preludeCrc: Bytes, messageCrc: Bytes)

  predicate Sendable(f: Frame) {
    |f.preludeCrc| == 4 && |f.messageCrc| == 4 && |f.kind| < 0x1_0000 &&
    |f.payload| + |HeaderBytes(f.kind)| + 16 < UINT32
  }

  function PutUint16(n: nat): (b: Bytes)
    requires n < 0x1_0000
    ensures |b| == 2 && Uint16(b) == n
  {
    [(n / 256) as char, (n % 256) as char]
  }

  function PutUint32(n: nat): (b: Bytes)
    requires n < UINT32
    ensures |b| == 4 && Uint32(b) == n
  {
    var a := n / 256;
    var b := a / 256;
    [(b / 256) as char, (b % 256) as char, (a % 256) as char, (n % 256) as char]
  }

  function HeaderBytes(kind: Bytes): Bytes {
    [|MESSAGE_TYPE| as char] + MESSAGE_TYPE + [7 as char]
    + (if |kind| < 0x1_0000 then PutUint16(|kind|) else "??") + kind
  }

  function Prelude(f: Frame): Bytes
    requires Sendable(f)
  {
    var headers := |HeaderBytes(f.kind)|;
    PutUint32(headers + |f.payload| + 16) + PutUint32(headers) + f.preludeCrc
  }

  function Encode(f: Frame): Bytes
    requires Sendable(f)
  {
    Prelude(f) + HeaderBytes(f.kind) + f.payload + f.messageCrc
  }

  function Encoded(frames: seq<Frame>): (texts: seq<Bytes>)
    requires forall i :: 0 <= i < |frames| ==> Sendable(frames[i])
    ensures |texts| == |frames| && forall i :: 0 <= i < |frames| ==> texts[i] == Encode(frames[i])
  {
    seq(|frames|, i requires 0 <= i < |frames| => Encode(frames[i]))
  }

  function EncodeAll(frames: seq<Frame>): Bytes
    requires forall i :: 0 <= i < |frames| ==> Sendable(frames[i])
  {
    Concat(Encoded(frames))
  }

  /** The payloads the parser is to see: those of frames of kind "event". */
  function EventPayloads(frames: seq<Frame>): seq<Bytes> {
    if frames == [] then []
    else (if frames[0].kind == "event" then [frames[0].payload] else []) + EventPayloads(frames[1..])
  }

  lemma HeaderRoundTrip(kind: Bytes)
    requires |kind| < 0x1_0000
    ensures ParseHeaders(HeaderBytes(kind), map[]) == Ok(map[MESSAGE_TYPE := kind])
  {
    var data := HeaderBytes(kind);
    var n := |MESSAGE_TYPE|;
    assert data[0] == n as char;
    assert data[1..][..n] == MESSAGE_TYPE;
    var afterName := data[1 + n..];
    assert afterName == [7 as char] + PutUint16(|kind|) + kind;
    assert afterName[1..][..2] == PutUint16(|kind|);
    assert afterName[3..] == kind;
    assert kind[..|kind|] == kind;
    assert afterName[3 + |kind|..] == [];
    assert ParseHeader(data) == Ok((MESSAGE_TYPE, kind, []));
    assert map[][MESSAGE_TYPE := kind] == map[MESSAGE_TYPE := kind];
  }

  /** Splitting a frame at its declared lengths gives back its parts. */
  lemma FrameParts(lengths: Bytes, headers: Bytes, payload: Bytes, crc: Bytes, following: Bytes)
    requires |lengths| == 12 && |crc| == 4
    ensures var input := lengths + headers + payload + crc + following;
            var in1 := input[12..];
            var in2 := in1[|headers|..];
            var in3 := in2[|payload|..];
            input[..12] == lengths && in1[..|headers|] == headers && in2[..|payload|] == payload &&
            |in3| >= 4 && in3[4..] == following
  {
    var input := lengths + headers + payload + crc + following;
    var in1 := input[12..];
    assert in1 == headers + (payload + (crc + following));
    var in2 := in1[|headers|..];
    assert in2 == payload + (crc + following);
    assert in2[|payload|..] == crc + following;
  }

  /** The frame reader inverts the encoder. */
  lemma FrameRoundTrip(f: Frame, following: Bytes)
    requires Sendable(f)
    ensures ReadEvent(Encode(f) + following) == Ok((AwsEvent(f.kind, f.payload), following))
  {
    HeaderRoundTrip(f.kind);
    PreludeNumbers(f);
    EventOfFrame(Prelude(f), HeaderBytes(f.kind), f.payload, f.messageCrc, following, map[MESSAGE_TYPE := f.kind]);
  }

  lemma PayloadIs(payload: nat, headers: nat)
    requires payload + headers + 16 < UINT32
    ensures PayloadLength(headers + payload + 16, headers) == payload
  {
  }

  lemma Numbers(total: Bytes, length: Bytes, crc: Bytes, headers: nat, payload: nat)
    requires |total| == |length| == |crc| == 4 && Uint32(length) == headers && Uint32(total) == headers + payload + 16 < UINT32
    ensures var lengths := total + length + crc;
            |lengths| == 12 && Uint32(lengths[4..8]) == headers && PayloadLength(Uint32(lengths[..4]), headers) == payload
  {
    var lengths := total + length + crc;
    assert lengths[4..8] == length && lengths[..4] == total;
    PayloadIs(payload, headers);
  }

  lemma PreludeNumbers(f: Frame)
    requires Sendable(f)
    ensures var prelude, headers := Prelude(f), |HeaderBytes(f.kind)|;
            |prelude| == 12 && Uint32(prelude[4..8]) == headers && PayloadLength(Uint32(prelude[..4]), headers) == |f.payload|
  {
    var headers := |HeaderBytes(f.kind)|;
    Numbers(PutUint32(headers + |f.payload| + 16), PutUint32(headers), f.preludeCrc, headers, |f.payload|);
  }

  lemma EventOfFrame(lengths: Bytes, headers: Bytes, payload: Bytes, crc: Bytes, following: Bytes, parsed: Headers)
    requires |lengths| == 12 && |crc| == 4 && Uint32(lengths[4..8]) == |headers|
    requires PayloadLength(Uint32(lengths[..4]), |headers|) == |payload| && ParseHeaders(headers, map[]) == Ok(parsed)
    ensures ReadEvent(lengths + headers + payload + crc + following)
            == Ok((AwsEvent(if MESSAGE_TYPE in parsed then parsed[MESSAGE_TYPE] else [], payload), following))
  {
    FrameParts(lengths, headers, payload, crc, following);
    EventOf(lengths + headers + payload + crc + following, headers, payload, following, parsed);
  }

  /** What the frame reader returns, piece by piece. */
  lemma EventOf(input: Bytes, headers: Bytes, payload: Bytes, following: Bytes, parsed: Headers)
    requires |input| >= 12 && Uint32(input[..12][4..8]) == |headers|
    requires PayloadLength(Uint32(input[..12][..4]), |headers|) == |payload|
    requires |input[12..]| >= |headers| && input[12..][..|headers|] == headers && ParseHeaders(headers, map[]) == Ok(parsed)
    requires var in2 := input[12..][|headers|..]; |in2| >= |payload| + 4 && in2[..|payload|] == payload && in2[|payload|..][4..] == following
    ensures ReadEvent(input) == Ok((AwsEvent(if MESSAGE_TYPE in parsed then parsed[MESSAGE_TYPE] else [], payload), following))
  {
  }

  // ---------- a stream that breaks off ----------

  /** Where a frame can break off unnoticed: before it, and behind its prelude,
      its headers and its payload. */
  predicate AtSeam(f: Frame, k: nat) {
    var h := 12 + |HeaderBytes(f.kind)|;
    k == 0 || k == 12 || k == h || k == h + |f.payload|
  }

  /** Reading the first piece of a text that breaks off. */
  lemma CutTake(a: Bytes, b: Bytes, n: nat)
    requires n <= |a + b|
    ensures var cut := (a + b)[..n];
            if n >= |a| then ReadFull(cut, |a|) == Ok(a) && cut[|a|..] == b[..n - |a|]
            else ReadFull(cut, |a|) == if n == 0 then Eof else Failed
  {
    if n >= |a| {
      assert (a + b)[..n] == a + b[..n - |a|];
    }
  }

  lemma CutBody(headers: Bytes, payload: Bytes, crc: Bytes, parsed: Headers, k: nat)
    requires |crc| == 4 && headers != [] && ParseHeaders(headers, map[]) == Ok(parsed)
    requires k < |headers + (payload + crc)|
    ensures ReadBody((headers + (payload + crc))[..k], |headers|, |payload|)
            == if k in {0, |headers|, |headers| + |payload|} then Eof else Failed
  {
    CutTake(headers, payload + crc, k);
    if k >= |headers| {
      CutTake(payload, crc, k - |headers|);
      if k >= |headers| + |payload| {
        CutTake(crc, [], k - |headers| - |payload|);
        assert crc + [] == crc;
      }
    }
  }

  lemma CutEvent(lengths: Bytes, headers: Bytes, payload: Bytes, crc: Bytes, parsed: Headers, k: nat)
    requires |lengths| == 12 && |crc| == 4 && Uint32(lengths[4..8]) == |headers| && headers != []
    requires PayloadLength(Uint32(lengths[..4]), |headers|) == |payload| && ParseHeaders(headers, map[]) == Ok(parsed)
    requires k < |lengths + (headers + (payload + crc))|
    ensures ReadEvent((lengths + (headers + (payload + crc)))[..k])
            == if k in {0, 12, 12 + |headers|, 12 + |headers| + |payload|} then Eof else Failed
  {
    CutTake(lengths, headers + (payload + crc), k);
    if k >= 12 {
      CutBody(headers, payload, crc, parsed, k - 12);
    }
  }

  lemma CutFrame(f: Frame, k: nat)
    requires Sendable(f) && k < |Encode(f)|
    ensures ReadEvent(Encode(f)[..k]) == if AtSeam(f, k) then Eof else Failed
  {
    HeaderRoundTrip(f.kind);
    PreludeNumbers(f);
    Regrouped(Prelude(f), HeaderBytes(f.kind), f.payload, f.messageCrc);
    CutEvent(Prelude(f), HeaderBytes(f.kind), f.payload, f.messageCrc, map[MESSAGE_TYPE := f.kind], k);
  }

  lemma Regrouped(a: Bytes, b: Bytes, c: Bytes, d: Bytes)
    ensures a + b + c + d == a + (b + (c + d))
  {
  }

  /** The parser after one frame. */
  function Fed(env: Env, s: ParserView, f: Frame): ParserView {
    if f.kind == "event" then FeedParser(env, s, f.payload) else s
  }

  lemma CollectFrame(env: Env, s: ParserView, f: Frame, following: Bytes)
    requires Sendable(f)
    ensures Collect(env, s, Encode(f) + following) == Collect(env, Fed(env, s, f), following)
  {
    FrameRoundTrip(f, following);
  }

  lemma CollectCut(env: Env, s: ParserView, f: Frame, k: nat)
    requires Sendable(f) && k < |Encode(f)|
    ensures Collect(env, s, Encode(f)[..k]) == if AtSeam(f, k) then Some(s) else None
  {
    CutFrame(f, k);
  }

  lemma FirstPayload(env: Env, s: ParserView, frames: seq<Frame>)
    requires frames != []
    ensures FeedChunks(env, s, EventPayloads(frames)) == FeedChunks(env, Fed(env, s, frames[0]), EventPayloads(frames[1..]))
  {
    var payloads := EventPayloads(frames[1..]);
    assert ([frames[0].payload] + payloads)[1..] == payloads;
    assert [] + payloads == payloads;
  }

  /** Whole frames in front are processed, and reading goes on behind them. */
  lemma {:induction false} CollectFrames(env: Env, s: ParserView, frames: seq<Frame>, following: Bytes)
    requires forall i :: 0 <= i < |frames| ==> Sendable(frames[i])
    ensures Collect(env, s, EncodeAll(frames) + following) == Collect(env, FeedChunks(env, s, EventPayloads(frames)), following)
    decreases |frames|
  {
    if frames == [] {
      assert EncodeAll(frames) + following == following;
    } else {
      var rest := EncodeAll(frames[1..]);
      assert Encoded(frames)[1..] == Encoded(frames[1..]);
      Assoc(Encode(frames[0]), rest, following);
      CollectFrame(env, s, frames[0], rest + following);
      CollectFrames(env, Fed(env, s, frames[0]), frames[1..], following);
      FirstPayload(env, s, frames);
    }
  }

  lemma CollectAll(env: Env, s: ParserView, frames: seq<Frame>)
    requires forall i :: 0 <= i < |frames| ==> Sendable(frames[i])
    ensures Collect(env, s, EncodeAll(frames)) == Some(FeedChunks(env, s, EventPayloads(frames)))
  {
    CollectFrames(env, s, frames, []);
    assert EncodeAll(frames) + [] == EncodeAll(frames);
  }

  /** Every part of texts that break off is some whole texts and a part of the
      next one. */
  lemma {:induction false} BrokenForm(texts: seq<Bytes>, n: nat) returns (i: nat, k: nat)
    requires n < |Concat(texts)|
    ensures i < |texts| && k < |texts[i]| && Concat(texts)[..n] == Concat(texts[..i]) + texts[i][..k]
    decreases |texts|
  {
    var e, rest := texts[0], Concat(texts[1..]);
    if n < |e| {
      i, k := 0, n;
      assert (e + rest)[..n] == [] + e[..n];
    } else {
      var j;
      j, k := BrokenForm(texts[1..], n - |e|);
      i := j + 1;
      assert (e + rest)[..n] == e + rest[..n - |e|];
      assert texts[..i][1..] == texts[1..][..j];
      Assoc(e, Concat(texts[1..][..j]), texts[i][..k]);
    }
  }

  lemma BrokenStream(frames: seq<Frame>, n: nat) returns (i: nat, k: nat)
    requires (forall j :: 0 <= j < |frames| ==> Sendable(frames[j])) && n < |EncodeAll(frames)|
    ensures i < |frames| && k < |Encode(frames[i])| && EncodeAll(frames)[..n] == EncodeAll(frames[..i]) + Encode(frames[i])[..k]
  {
    i, k := BrokenForm(Encoded(frames), n);
    assert Encoded(frames)[..i] == Encoded(frames[..i]);
  }

  lemma CollectBroken(env: Env, s: ParserView, frames: seq<Frame>, f: Frame, k: nat)
    requires (forall j :: 0 <= j < |frames| ==> Sendable(frames[j])) && Sendable(f) && k < |Encode(f)|
    ensures Collect(env, s, EncodeAll(frames) + Encode(f)[..k])
            == if AtSeam(f, k) then Some(FeedChunks(env, s, EventPayloads(frames))) else None
  {
    CollectFrames(env, s, frames, Encode(f)[..k]);
    CollectCut(env, FeedChunks(env, s, EventPayloads(frames)), f, k);
  }

  /** A stream of frames that breaks off is taken as complete if and only if it
      does so at a seam of the frame it breaks off in; then the frames before that
      one are processed and the rest is silently missing. */
  lemma TruncatedStream(env: Env, s: ParserView, frames: seq<Frame>, n: nat) returns (i: nat, k: nat)
    requires (forall j :: 0 <= j < |frames| ==> Sendable(frames[j])) && n < |EncodeAll(frames)|
    ensures i < |frames| && k < |Encode(frames[i])| && EncodeAll(frames)[..n] == EncodeAll(frames[..i]) + Encode(frames[i])[..k]
    ensures Collect(env, s, EncodeAll(frames)[..n])
            == if AtSeam(frames[i], k) then Some(FeedChunks(env, s, EventPayloads(frames[..i]))) else None
  {
    i, k := BrokenStream(frames, n);
    CollectBroken(env, s, frames[..i], frames[i], k);
  }

  /** End to end: a list of JSON events, concatenated, cut anywhere, sent in
      frames that may be mixed with frames of other kinds, is processed as
      exactly that list in order. */
  lemma StreamRoundTrip(env: Env, events: seq<Event>, frames: seq<Frame>)
    requires forall i :: 0 <= i < |frames| ==> Sendable(frames[i])
    requires AllValid(Patterns, events) && Concat(EventPayloads(frames)) == Texts(events)
    ensures Collect(env, Start, EncodeAll(frames)) == Some(State(ApplyAll(env, Nothing, events), []))
  {
    CollectAll(env, Start, frames);
    EventsRoundTrip(env, events, EventPayloads(frames));
  }
}
