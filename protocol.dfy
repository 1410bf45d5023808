/**
 * The wire format of a frame: a 3-character command code, optionally followed
 * by one separator character and a serialized JSON payload.
 * JSON text itself is opaque here; a decoded payload is a `Json` value.
 */
module Protocol {
  import opened Wrappers

  /** A decoded payload, distinguishing only the shapes the router inspects. */
  datatype Json =
    | JNull
    | JInt(i: int)
    | JStr(s: string)
    | JList(items: seq<Json>)
    | JObject(fields: map<string, Json>)
    | JOther   // floats and booleans

  /** An inbound frame after the fixed-offset split. */
  datatype Frame = Frame(code: string, payload: Option<string>)

  /** Builds an outbound frame; `params` is the already-serialized payload. */
  function MakeCommand(code: string, params: Option<string>): (frame: string)
    ensures params.None? ==> frame == code
    ensures params.Some? ==> |frame| == |code| + 1 + |params.value|
    ensures params.Some? ==>
              frame[..|code|] == code && frame[|code|] == ' ' && frame[|code| + 1..] == params.value
  {
    match params
    case Some(p) => code + " " + p
    case None => code
  }

  /**
   * Splits an inbound message: too-short messages are dropped, the command is
   * the first three characters, and the payload is everything from offset 4
   * when the message is longer than four characters (offset 3 is skipped
   * whatever it holds).
   */
  function SplitFrame(message: string): (r: Option<Frame>)
    ensures r.None? <==> |message| < 3
    ensures r.Some? ==> |r.value.code| == 3 && r.value.code == message[..3]
    ensures r.Some? ==> (r.value.payload.Some? <==> |message| > 4)
    ensures r.Some? && r.value.payload.Some? ==> r.value.payload.value == message[4..]
  {
    if |message| < 3 then None
    else Some(Frame(message[..3], if |message| > 4 then Some(message[4..]) else None))
  }

  /**
   * Parsing what MakeCommand produced for a 3-character code gives back the
   * code and the serialized payload (an empty serialization, which a JSON
   * encoder never produces, reads back as no payload).
   */
  lemma {:induction false} FrameRoundTrip(code: string, params: Option<string>)
    requires |code| == 3
    ensures SplitFrame(MakeCommand(code, params))
            == Some(Frame(code, if params.Some? && |params.value| > 0 then params else None))
  {
    var frame := MakeCommand(code, params);
    assert frame[..3] == code;
    if params.Some? && |params.value| > 0 {
      assert frame[4..] == params.value;
    }
  }
}
