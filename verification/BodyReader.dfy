/**
 Reading a response body as text, chunk by chunk, and what the fetch wrapper
 makes of it: the text never depends on how the bytes were split into chunks, also
 when the connection breaks in the middle.
 */
module BodyReader {
  import opened Wrappers
  import opened Utf8

  /** A leading byte order mark is not part of the text; `begun` tells that the text has started. */
  function Unmarked(begun: bool, text: seq<nat>): seq<nat> {
    if !begun && text != [] && text[0] == BYTE_ORDER_MARK then text[1..] else text
  }

  /** The text of a body that is decoded at once. */
  function OneShot(s: seq<Byte>): seq<nat> {
    Unmarked(false, Decode(s))
  }

  const MARK: seq<Byte> := [0xEF, 0xBB, 0xBF]

  /** The mark, as it is encoded, is dropped once and only in front. */
  lemma MarkDropped(s: seq<Byte>)
    ensures OneShot(MARK + s) == Decode(s)
    ensures Decode(s) == [] || Decode(s)[0] != BYTE_ORDER_MARK ==> OneShot(s) == Decode(s)
  {
    assert MARK == Encode(BYTE_ORDER_MARK);
    EncodeWellFormed(BYTE_ORDER_MARK);
    DecodeWhole(MARK, s);
  }

  /** A `TextDecoder` with its default options. */
  class TextDecoder {
    var decoder: Decoder
    var begun: bool
    // Every byte it was given since it was last flushed, and the text it gave for them.
    ghost var input: seq<Byte>
    ghost var output: seq<nat>

    ghost predicate Valid()
      reads this
    {
      && Feeds(CLEAN, input).0 == decoder
      && output == Unmarked(false, Feeds(CLEAN, input).1)
      && (begun <==> Feeds(CLEAN, input).1 != [])
    }

    constructor ()
      ensures Valid() && input == [] && output == []
    {
      decoder, begun, input, output := CLEAN, false, [], [];
    }

    /** `decode(chunk, { stream: true })` */
    method DecodeStreaming(chunk: seq<Byte>) returns (piece: seq<nat>)
      requires Valid()
      modifies this
      ensures Valid() && input == old(input) + chunk && output == old(output) + piece
    {
      FeedsConcat(CLEAN, input, chunk);
      piece := Unmarked(begun, Feeds(decoder, chunk).1);
      begun := begun || Feeds(decoder, chunk).1 != [];
      decoder := Feeds(decoder, chunk).0;
      input, output := input + chunk, output + piece;
    }

    /** `decode()` */
    method DecodeEnd() returns (piece: seq<nat>)
      requires Valid()
      modifies this
      ensures Valid() && input == [] && output == []
      ensures old(output) + piece == OneShot(old(input))
    {
      DrainDecodes(input);
      piece := Unmarked(begun, Flush(decoder));
      decoder, begun, input, output := CLEAN, false, [], [];
    }
  }

  /** How the stream ends. A stream may be broken with any reason, and a reason may be falsy. */
  datatype End = Clean | Broken(truthy: bool)

  /** The reads of a body stream: a read may carry no value. */
  datatype Stream = Stream(chunks: seq<Option<seq<Byte>>>, end: End)

  /** Every byte received. */
  function Received(chunks: seq<Option<seq<Byte>>>): seq<Byte> {
    if chunks == [] then []
    else (if chunks[0].Some? then chunks[0].value else []) + Received(chunks[1..])
  }

  lemma {:induction false} ReceivedOne(chunks: seq<Option<seq<Byte>>>, i: nat)
    requires i < |chunks|
    ensures Received(chunks[..i + 1]) == Received(chunks[..i]) + if chunks[i].Some? then chunks[i].value else []
  {
    if i > 0 {
      ReceivedOne(chunks[1..], i - 1);
      assert chunks[..i + 1][1..] == chunks[1..][..i] && chunks[..i][1..] == chunks[1..][..i - 1];
    }
  }

  /**
   For every sequence of bytes and every chunking of it, the text is the one-shot
   decoding of the bytes received, on the clean and on the broken path; the two
   paths differ in the reason reported.
   */
  method ReadBodyText(stream: Stream) returns (text: seq<nat>, terminated: End)
    ensures text == OneShot(Received(stream.chunks))
    ensures terminated == stream.end
  {
    var decoder := new TextDecoder();
    text := [];
    for i := 0 to |stream.chunks|
      invariant decoder.Valid() && fresh(decoder)
      invariant decoder.input == Received(stream.chunks[..i]) && decoder.output == text
    {
      ReceivedOne(stream.chunks, i);
      match stream.chunks[i]
      case None =>
      case Some(value) =>
        var piece := decoder.DecodeStreaming(value);
        text := text + piece;
    }
    assert stream.chunks[..|stream.chunks|] == stream.chunks;
    var rest := decoder.DecodeEnd();
    text := text + rest;
    terminated := stream.end;
  }

  // ------------------------------------------------------------------ the wrapper

  /** A response as far as its body matters: `Whole` is a body that is no stream and is read at once. */
  datatype Body = NoBody | Whole(bytes: seq<Byte>) | Streamed(stream: Stream)

  datatype Response = Response(status: nat, contentLengthZero: bool, body: Body)
  {
    predicate HasBody() {
      status != 204 && status != 205 && status != 304 && !body.NoBody? && !contentLengthZero
    }

    predicate Success() {
      200 <= status < 300
    }
  }

  /** What the caller gets: the status, and data if any was parsed, or the error that was thrown. */
  datatype Outcome<Json> = Data(status: nat, data: Option<Json>) | ThrewTermination | ThrewMalformed

  /** There is nothing to read: the status has no body, or there is none, or an empty one. */
  predicate Bodiless(response: Response) {
    response.status in {204, 205, 304} || response.body.NoBody? || response.contentLengthZero
  }

  method CustomFetch<Json>(response: Response, parse: seq<nat> -> Option<Json>) returns (r: Outcome<Json>)
    ensures r == Fetched(response, parse)
    // Without a body there is no data, whatever the status; what is returned comes with its status.
    ensures Bodiless(response) ==> r == Data(response.status, None)
    ensures r.Data? ==> r.status == response.status
    // Another than a 2xx gives what the parser makes of the bytes received, however the stream ended.
    ensures !Bodiless(response) && (response.status < 200 || response.status >= 300) ==>
      r == Data(response.status, parse(OneShot(Bytes(response.body))))
    // A 2xx body that parses as far as it was received is returned if and only if it was fully
    // received or its stream broke with a falsy reason; one that does not parse is malformed then.
    ensures !Bodiless(response) && 200 <= response.status < 300 ==>
      if FullyReceived(response.body) || BrokenFalsy(response.body)
      then r == match parse(OneShot(Bytes(response.body)))
                case Some(json) => Data(response.status, Some(json))
                case None => ThrewMalformed
      else r == ThrewTermination
  {
    var data: Option<Json> := None;
    if response.HasBody() {
      var rawBody: seq<nat>;
      var terminated := Clean;
      match response.body {
        case Whole(bytes) => rawBody := OneShot(bytes);
        case Streamed(stream) => rawBody, terminated := ReadBodyText(stream);
        case NoBody => rawBody := [];
      }
      if response.status < 200 || response.status >= 300 {
        data := parse(rawBody);
      } else {
        if terminated.Broken? && terminated.truthy {
          return ThrewTermination;
        }
        data := parse(rawBody);
        if data.None? {
          return ThrewMalformed;
        }
      }
    }
    return Data(response.status, data);
  }

  function Bytes(body: Body): seq<Byte> {
    match body
    case NoBody => []
    case Whole(bytes) => bytes
    case Streamed(stream) => Received(stream.chunks)
  }

  predicate FullyReceived(body: Body) {
    body.Streamed? ==> body.stream.end.Clean?
  }

  predicate BrokenFalsy(body: Body) {
    body.Streamed? && body.stream.end == Broken(false)
  }

  /** The outcome by cases, in terms of the bytes received only. */
  function Fetched<Json>(response: Response, parse: seq<nat> -> Option<Json>): Outcome<Json> {
    if !response.HasBody() then Data(response.status, None)
    else if !response.Success() then Data(response.status, parse(OneShot(Bytes(response.body))))
    else if !FullyReceived(response.body) && !BrokenFalsy(response.body) then ThrewTermination
    else match parse(OneShot(Bytes(response.body)))
      case None => ThrewMalformed
      case Some(json) => Data(response.status, Some(json))
  }

  /** Two responses that differ only in how the same bytes were chunked have the same outcome. */
  lemma OutcomeIgnoresChunking<Json>(status: nat, zero: bool, a: Stream, b: Stream, parse: seq<nat> -> Option<Json>)
    requires Received(a.chunks) == Received(b.chunks) && a.end == b.end
    ensures Fetched(Response(status, zero, Streamed(a)), parse) == Fetched(Response(status, zero, Streamed(b)), parse)
  {
  }

  /** A stream that breaks with a falsy reason in the middle of a number passes for a complete one. */
  lemma TruncatedSuccessAccepted<Json>(json: Json, parse: seq<nat> -> Option<Json>) returns (response: Response)
    requires parse([0x31]) == Some(json)
    ensures response.HasBody() && response.Success() && !FullyReceived(response.body)
    ensures Fetched(response, parse) == Data(response.status, Some(json))
  {
    var body: seq<Byte> := [0x31];
    response := Response(200, false, Streamed(Stream([Some(body)], Broken(false))));
    assert Received(response.body.stream.chunks) == body;
    assert body + [] == body && Scalar(body) == 0x31;
  }
}
