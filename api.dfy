/** The HTTP service of app/main.py, without its transport: the frame
    sequence the `/stream` handler's inner generator yields, and the payload
    of the health route. `FEATURE_ID` (read once, at import), `HOSTNAME` and
    the clock (read per message) and `json.dumps` are parameters. */
module Api {
  import opened Decimal
  import opened Protocol

  /** The dictionary serialised for each frame; its id is a JSON number. */
  datatype StreamMessage = StreamMessage(
    id: nat,
    featureId: string,
    message: string,
    timestamp: string,
    containerId: string)

  /** What the generator reads from outside: the feature id, the host name
      and the clock reading at message `i`, and the JSON encoder. */
  datatype Context = Context(
    featureId: string,
    hostname: nat -> string,
    now: nat -> string,
    dumps: StreamMessage -> string)

  /** Message i: its id is the number i, and it carries the feature id,
      the clock reading and the host name read for it. */
  function MessageAt(ctx: Context, i: nat): (m: StreamMessage)
    ensures m.id == i && m.featureId == ctx.featureId
    ensures m.timestamp == ctx.now(i) && m.containerId == ctx.hostname(i)
  {
    StreamMessage(i, ctx.featureId, "Message " + NatToString(i) + " from feature " + ctx.featureId,
                  ctx.now(i), ctx.hostname(i))
  }

  // ---------------------------------------------------------------------
  // Frames

  /** One server-sent-event style frame carrying `payload`: framing a
      payload and reading it back gives the payload. */
  function DataFrame(payload: string): (frame: string)
    ensures IsDataFrame(frame) && FramePayload(frame) == payload
  {
    "data: " + payload + "\n\n"
  }

  predicate IsDataFrame(s: string) {
    |s| >= 8 && s[..6] == "data: " && s[|s| - 2..] == "\n\n"
  }

  /** The text between a frame's `data: ` prefix and its blank line. */
  function FramePayload(s: string): string
    requires IsDataFrame(s)
  {
    s[6..|s| - 2]
  }

  /** The frames of messages `from` .. 19, in order. */
  function MessageFrames(ctx: Context, from: nat): (r: seq<string>)
    ensures |r| == if from <= MessageCount then MessageCount - from else 0
    ensures forall k :: 0 <= k < |r| ==> r[k] == DataFrame(ctx.dumps(MessageAt(ctx, from + k)))
    decreases MessageCount - from
  {
    if from >= MessageCount then []
    else [DataFrame(ctx.dumps(MessageAt(ctx, from)))] + MessageFrames(ctx, from + 1)
  }

  /** `generate()`: twenty message frames with ids 0 .. 19, then the
      `[DONE]` frame. */
  function Generate(ctx: Context): (r: seq<string>)
    ensures |r| == MessageCount + 1
    ensures forall i :: 0 <= i < MessageCount ==> r[i] == DataFrame(ctx.dumps(MessageAt(ctx, i)))
    ensures r[MessageCount] == DataFrame(DoneMarker) == "data: [DONE]\n\n"
  {
    DoneFrameText();
    MessageFrames(ctx, 0) + [DataFrame(DoneMarker)]
  }

  /** The closing frame, spelled out. */
  lemma DoneFrameText()
    ensures DataFrame(DoneMarker) == "data: [DONE]\n\n"
  {
    var done := "data: [DONE]\n\n";
    assert done == "data: " + DoneMarker + "\n\n";
  }

  // ---------------------------------------------------------------------
  // Properties of the frame sequence

  /** Every frame is `data: <payload>` and a blank line; frame i carries
      message i of the feature, and the last carries `[DONE]`. */
  lemma FramesCarryMessagesInOrder(ctx: Context)
    ensures forall f :: f in Generate(ctx) ==> IsDataFrame(f)
    ensures forall i :: 0 <= i < MessageCount ==>
              FramePayload(Generate(ctx)[i]) == ctx.dumps(MessageAt(ctx, i)) &&
              MessageAt(ctx, i).id == i && MessageAt(ctx, i).featureId == ctx.featureId
    ensures FramePayload(Generate(ctx)[MessageCount]) == DoneMarker
  {
    var r := Generate(ctx);
    forall j | 0 <= j < |r|
      ensures IsDataFrame(r[j])
      ensures j < MessageCount ==> FramePayload(r[j]) == ctx.dumps(MessageAt(ctx, j))
      ensures j == MessageCount ==> FramePayload(r[j]) == DoneMarker
    {
    }
  }

  /** The text of message i names i in decimal and the feature. */
  lemma MessageTextNamesIndex(ctx: Context, i: nat)
    ensures var text := MessageAt(ctx, i).message;
            var digits := NatToString(i);
            |text| >= 8 + |digits| &&
            text[..8] == "Message " &&
            IsDigits(text[8..8 + |digits|]) && DigitsValue(text[8..8 + |digits|]) == i &&
            text[8 + |digits|..] == " from feature " + ctx.featureId
  {
    var head, digits, tail := "Message ", NatToString(i), " from feature " + ctx.featureId;
    var text := head + digits + tail;
    assert MessageAt(ctx, i).message == text;
    assert |head| == 8;
    assert text[..8] == head;
    assert text[8..8 + |digits|] == digits;
    assert text[8 + |digits|..] == tail;
    NatToStringRoundTrip(i);
  }

  /** The JSON text of an object: what `json.dumps` gives for a dictionary. */
  predicate IsJsonObjectText(s: string) {
    |s| >= 2 && s[0] == '{' && s[|s| - 1] == '}'
  }

  /** Given an encoder that writes objects, `[DONE]` is the payload of the
      last frame and of no other. */
  lemma DoneOnlyInLastFrame(ctx: Context)
    requires forall m :: IsJsonObjectText(ctx.dumps(m))
    ensures forall i :: 0 <= i < |Generate(ctx)| ==>
              IsDataFrame(Generate(ctx)[i]) &&
              (FramePayload(Generate(ctx)[i]) == DoneMarker <==> i == |Generate(ctx)| - 1)
  {
    FramesCarryMessagesInOrder(ctx);
    var r := Generate(ctx);
    forall i | 0 <= i < MessageCount
      ensures FramePayload(r[i]) != DoneMarker
    {
      var p := ctx.dumps(MessageAt(ctx, i));
      assert IsJsonObjectText(p);
      assert p[0] != DoneMarker[0];
    }
  }

  // ---------------------------------------------------------------------
  // Health

  /** The body of the health route: the service is healthy and reports
      its feature id, and nothing else. */
  function Health(featureId: string): (r: map<string, string>)
    ensures r.Keys == {"status", "feature_id"}
    ensures r["status"] == "healthy" && r["feature_id"] == featureId
  {
    map["status" := "healthy", "feature_id" := featureId]
  }
}
