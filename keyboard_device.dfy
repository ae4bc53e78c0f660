/**
 * The keyboard light driver client: the ControlDeviceLight request in
 * Protocol Buffers wire format, the gRPC length-prefixed frame around it,
 * and the connection and de-duplication state.  The HTTP post, the base64
 * text encoding and the random request id are outside the model: whether
 * a post was answered with status 200 and the request id bytes are
 * parameters.
 */
module KeyboardDevice {
  import opened Common

  // ---------------------------------------------------------------------
  // Protocol Buffers tags (Protocol Buffers encoding, "Message Structure")
  // ---------------------------------------------------------------------

  const Varint: nat := 0
  const LengthDelimited: nat := 2

  /** A field key: the field number shifted left by three, or-ed with the wire type. */
  function Tag(field: nat, wire: nat): (t: nat)
    requires wire < 8
    ensures t / 8 == field && t % 8 == wire
  {
    8 * field + wire
  }

  const PathTag: byte := 0x0a
  const ActionTag: byte := 0x10
  const RgbTag: byte := 0x1a
  const IdTag: byte := 0x22

  /** The four literal key bytes are the keys of fields 1 to 4 with their wire types. */
  lemma TagsMatchFields()
    ensures PathTag as nat == Tag(1, LengthDelimited) && ActionTag as nat == Tag(2, Varint)
    ensures RgbTag as nat == Tag(3, LengthDelimited) && IdTag as nat == Tag(4, LengthDelimited)
  {
  }

  const ActionSetLight: int := 2

  /** `bytes([v])`: one byte, or None where it raises ValueError. */
  function ByteOf(v: int): (r: Option<byte>)
    ensures r.Some? <==> 0 <= v < 256
    ensures r.Some? ==> r.value as int == v
  {
    if 0 <= v < 256 then Some(v as byte) else None
  }

  /** `v & 0xFF`: the low eight bits, two's complement for negative v. */
  function LowByte(v: int): (r: byte)
    ensures 0 <= v < 256 ==> r as int == v
    ensures (r as int - v) % 256 == 0
  {
    (v % 256) as byte
  }

  /** `_build_request`: path, action, the optional colour and the request id, each behind its key. */
  function Request(path: seq<byte>, action: int, rgb: Option<Rgb>, id: seq<byte>): (r: Option<seq<byte>>)
    ensures r.Some? <==> |path| < 256 && 0 <= action < 256 && |id| < 256
  {
    if |path| >= 256 || !(0 <= action < 256) || |id| >= 256 then None
    else
      Some([PathTag, |path| as byte] + path + [ActionTag, action as byte] + ColourField(rgb) + [IdTag, |id| as byte] + id)
  }

  function ColourField(rgb: Option<Rgb>): seq<byte>
  {
    if rgb.None? then [] else [RgbTag, 3, LowByte(rgb.value.r), LowByte(rgb.value.g), LowByte(rgb.value.b)]
  }

  /** Builds the request piece by piece, stopping where a length or the action does not fit a byte. */
  method BuildRequest(path: seq<byte>, action: int, rgb: Option<Rgb>, id: seq<byte>) returns (r: Option<seq<byte>>)
    ensures r == Request(path, action, rgb, id)
  {
    var pathLength := ByteOf(|path|);
    if pathLength.None? {
      return None;
    }
    var buf := [PathTag, pathLength.value] + path;
    var act := ByteOf(action);
    if act.None? {
      return None;
    }
    buf := buf + [ActionTag, act.value];
    ghost var head := buf;
    if rgb.Some? {
      buf := buf + [RgbTag, 3] + [LowByte(rgb.value.r), LowByte(rgb.value.g), LowByte(rgb.value.b)];
    }
    assert buf == head + ColourField(rgb);
    var idLength := ByteOf(|id|);
    if idLength.None? {
      return None;
    }
    buf := buf + [IdTag, idLength.value] + id;
    assert pathLength.value == |path| as byte && act.value == action as byte && idLength.value == |id| as byte;
    r := Some(buf);
  }

  // ---------------------------------------------------------------------
  // Reading a request back
  // ---------------------------------------------------------------------

  datatype RequestFields = RequestFields(path: seq<byte>, action: byte, rgb: Option<(byte, byte, byte)>, id: seq<byte>)

  /** A length or enum value that a protobuf reader takes as one byte: below 128, the continuation bit clear. */
  function OneByteVarint(b: byte): Option<nat>
  {
    if b < 128 then Some(b as nat) else None
  }

  /** One length-delimited field with the given key: its content and what follows. */
  function ReadField(buf: seq<byte>, tag: byte): Option<(seq<byte>, seq<byte>)>
  {
    if |buf| < 2 || buf[0] != tag || OneByteVarint(buf[1]).None? then None
    else
      var n := OneByteVarint(buf[1]).value;
      if |buf| < 2 + n then None else Some((buf[2..2 + n], buf[2 + n..]))
  }

  function ReadColour(buf: seq<byte>): (Option<(byte, byte, byte)>, seq<byte>)
  {
    if |buf| >= 5 && buf[0] == RgbTag && buf[1] == 3 then (Some((buf[2], buf[3], buf[4])), buf[5..])
    else (None, buf)
  }

  /** A reader for the request message, with every field in the order written and nothing after. */
  function ParseRequest(buf: seq<byte>): Option<RequestFields>
  {
    var first := ReadField(buf, PathTag);
    if first.None? then None else ParseAfterPath(first.value.0, first.value.1)
  }

  function ParseAfterPath(path: seq<byte>, rest: seq<byte>): Option<RequestFields>
  {
    if |rest| < 2 || rest[0] != ActionTag || OneByteVarint(rest[1]).None? then None
    else ParseAfterAction(path, rest[1], ReadColour(rest[2..]))
  }

  function ParseAfterAction(path: seq<byte>, action: byte, colour: (Option<(byte, byte, byte)>, seq<byte>)): Option<RequestFields>
  {
    var last := ReadField(colour.1, IdTag);
    if last.None? || last.value.1 != [] then None
    else Some(RequestFields(path, action, colour.0, last.value.0))
  }

  lemma ReadFieldOf(tag: byte, content: seq<byte>, rest: seq<byte>)
    requires |content| < 128
    ensures ReadField([tag, |content| as byte] + content + rest, tag) == Some((content, rest))
  {
    var buf := [tag, |content| as byte] + content + rest;
    assert buf[2..2 + |content|] == content;
    assert buf[2 + |content|..] == rest;
  }

  function ColourBytes(rgb: Option<Rgb>): Option<(byte, byte, byte)>
  {
    if rgb.None? then None else Some((LowByte(rgb.value.r), LowByte(rgb.value.g), LowByte(rgb.value.b)))
  }

  lemma ReadColourOf(rgb: Option<Rgb>, rest: seq<byte>)
    requires rest == [] || rest[0] != RgbTag
    ensures ReadColour(ColourField(rgb) + rest) == (ColourBytes(rgb), rest)
  {
    var buf := ColourField(rgb) + rest;
    if rgb.Some? {
      assert buf[0] == RgbTag && buf[1] == 3;
      assert buf[5..] == rest;
    } else {
      assert buf == rest;
    }
  }

  /**
   * With lengths and action below 128 every field reads back: the path,
   * the action, the colour's low bytes and the id.
   */
  lemma RequestRoundTrip(path: seq<byte>, action: int, rgb: Option<Rgb>, id: seq<byte>)
    requires |path| < 128 && 0 <= action < 128 && |id| < 128
    ensures Request(path, action, rgb, id).Some?
    ensures ParseRequest(Request(path, action, rgb, id).value) ==
            Some(RequestFields(path, action as byte, ColourBytes(rgb), id))
  {
    var idPart := [IdTag, |id| as byte] + id;
    var tail := [ActionTag, action as byte] + (ColourField(rgb) + idPart);
    assert Request(path, action, rgb, id).value == [PathTag, |path| as byte] + path + tail;
    ReadFieldOf(PathTag, path, tail);
    assert tail[2..] == ColourField(rgb) + idPart;
    ReadColourOf(rgb, idPart);
    ReadFieldOf(IdTag, id, []);
    assert idPart + [] == idPart;
  }

  /** A path of 128 to 255 bytes is written with a length byte whose continuation bit is set. */
  lemma LongPathNotOneByte(path: seq<byte>, action: int, rgb: Option<Rgb>, id: seq<byte>)
    requires 128 <= |path| < 256 && 0 <= action < 256 && |id| < 256
    ensures Request(path, action, rgb, id).Some?
    ensures OneByteVarint(Request(path, action, rgb, id).value[1]).None?
    ensures ParseRequest(Request(path, action, rgb, id).value).None?
  {
  }

  // ---------------------------------------------------------------------
  // gRPC length-prefixed message (gRPC over HTTP/2, "Requests")
  // ---------------------------------------------------------------------

  const FrameLimit: nat := 0x1_0000_0000

  /** `n.to_bytes(4, "big")`. */
  function BigEndian4(n: nat): (b: seq<byte>)
    requires n < FrameLimit
    ensures |b| == 4
  {
    [(n / 0x100_0000) as byte, (n / 0x1_0000 % 256) as byte, (n / 0x100 % 256) as byte, (n % 256) as byte]
  }

  function FromBigEndian4(b: seq<byte>): nat
    requires |b| == 4
  {
    ((b[0] as nat * 256 + b[1] as nat) * 256 + b[2] as nat) * 256 + b[3] as nat
  }

  lemma BigEndianRoundTrip(n: nat)
    requires n < FrameLimit
    ensures FromBigEndian4(BigEndian4(n)) == n
  {
    var b := BigEndian4(n);
    var q1 := n / 0x100;
    var q2 := q1 / 0x100;
    DivideTwice(n, 0x100);
    DivideTwice(n, 0x1_0000);
    assert b[3] as nat == n % 0x100 && b[2] as nat == q1 % 0x100;
    assert b[1] as nat == q2 % 0x100 && b[0] as nat == q2 / 0x100;
    assert b[0] as nat * 256 + b[1] as nat == q2;
    assert q2 * 256 + b[2] as nat == q1;
  }

  /** Dividing by k and then by 256 is dividing by 256 · k. */
  lemma DivideTwice(n: nat, k: nat)
    requires k == 0x100 || k == 0x1_0000
    ensures n / (k * 0x100) == n / k / 0x100
  {
    var q, r := n / k, n % k;
    var q2, r2 := q / 0x100, q % 0x100;
    assert n == q2 * (k * 0x100) + (r2 * k + r) by {
      assert n == q * k + r;
      assert q == q2 * 0x100 + r2;
    }
    assert 0 <= r2 * k + r < k * 0x100 by {
      assert r2 <= 0xFF && r < k;
    }
    DivModUnique(n / (k * 0x100), n % (k * 0x100), q2, r2 * k + r, k * 0x100);
  }

  /**
   * `_grpc_web_wrap` before base64: the uncompressed flag, the length and
   * the payload; None where `to_bytes` overflows.
   */
  function GrpcFrame(payload: seq<byte>): (r: Option<seq<byte>>)
    ensures r.Some? <==> |payload| < FrameLimit
    ensures r.Some? ==> |r.value| == 5 + |payload| && r.value[0] == 0 && r.value[5..] == payload
  {
    if |payload| >= FrameLimit then None else Some([0 as byte] + BigEndian4(|payload|) + payload)
  }

  /** A receiver's reading of one uncompressed frame holding the whole buffer. */
  function UnwrapFrame(frame: seq<byte>): Option<seq<byte>>
  {
    if |frame| < 5 || frame[0] != 0 || FromBigEndian4(frame[1..5]) != |frame| - 5 then None
    else Some(frame[5..])
  }

  lemma FrameRoundTrip(payload: seq<byte>)
    requires |payload| < FrameLimit
    ensures UnwrapFrame(GrpcFrame(payload).value) == Some(payload)
  {
    var f := GrpcFrame(payload).value;
    assert f[1..5] == BigEndian4(|payload|);
    BigEndianRoundTrip(|payload|);
  }

  // ---------------------------------------------------------------------
  // The device manager
  // ---------------------------------------------------------------------

  class KeyboardDeviceManager {
    var devicePath: seq<byte>
    var isInitialized: bool
    var framesSent: nat
    var lastRgb: Option<Rgb>
    var targetKeyboard: bool
    var targetLightstrip: bool
    var selectedChannel: int
    var offsetMs: int

    /** Not connected, nothing sent, no colour remembered; the strip is the target, channel 0. */
    constructor(defaultPath: seq<byte>)
      ensures devicePath == defaultPath && !isInitialized && framesSent == 0 && lastRgb == None
      ensures !targetKeyboard && targetLightstrip && selectedChannel == 0 && offsetMs == 0
    {
      devicePath := defaultPath;
      isInitialized := false;
      framesSent := 0;
      lastRgb := None;
      targetKeyboard := false;
      targetLightstrip := true;
      selectedChannel := 0;
      offsetMs := 0;
    }

    /**
     * `connect`: sends the set-light request; an answered post marks the
     * device initialised with no frames sent.  `raised` is the ValueError
     * from building a request whose path is too long.
     */
    method Connect(id: seq<byte>, answered: bool) returns (raised: bool, ok: bool)
      modifies this
      ensures raised <==> Request(devicePath, ActionSetLight, None, id).None?
      ensures ok <==> !raised && answered
      ensures ok ==> isInitialized && framesSent == 0
      ensures !ok ==> isInitialized == old(isInitialized) && framesSent == old(framesSent)
      ensures lastRgb == old(lastRgb) && devicePath == old(devicePath)
      ensures targetKeyboard == old(targetKeyboard) && targetLightstrip == old(targetLightstrip)
      ensures selectedChannel == old(selectedChannel) && offsetMs == old(offsetMs)
    {
      var proto := BuildRequest(devicePath, ActionSetLight, None, id);
      if proto.None? {
        return true, false;
      }
      raised := false;
      if answered {
        isInitialized := true;
        framesSent := 0;
        ok := true;
      } else {
        ok := false;
      }
    }

    /** `disconnect`: not initialised and the count reset; the last colour is kept. */
    method Disconnect()
      modifies this
      ensures !isInitialized && framesSent == 0
      ensures lastRgb == old(lastRgb) && devicePath == old(devicePath)
      ensures targetKeyboard == old(targetKeyboard) && targetLightstrip == old(targetLightstrip)
      ensures selectedChannel == old(selectedChannel) && offsetMs == old(offsetMs)
    {
      isInitialized := false;
      framesSent := 0;
    }

    function IsConnected(): (r: bool)
      reads this
      ensures r <==> isInitialized
    {
      isInitialized
    }

    /**
     * `send_color`: false when not initialised; true at once for the
     * colour last sent; otherwise the colour is posted and, when answered,
     * remembered and counted.
     */
    method SendColor(c: Rgb, id: seq<byte>, answered: bool) returns (raised: bool, ok: bool)
      modifies this
      ensures !old(isInitialized) ==> !raised && !ok
      ensures old(isInitialized) && Some(c) == old(lastRgb) ==> !raised && ok
      ensures old(isInitialized) && Some(c) != old(lastRgb) ==>
        (raised <==> Request(devicePath, ActionSetLight, Some(c), id).None?) &&
        (ok <==> !raised && answered)
      ensures ok && Some(c) != old(lastRgb) ==> lastRgb == Some(c) && framesSent == old(framesSent) + 1
      ensures !(ok && Some(c) != old(lastRgb)) ==> lastRgb == old(lastRgb) && framesSent == old(framesSent)
      ensures isInitialized == old(isInitialized) && devicePath == old(devicePath)
      ensures targetKeyboard == old(targetKeyboard) && targetLightstrip == old(targetLightstrip)
      ensures selectedChannel == old(selectedChannel) && offsetMs == old(offsetMs)
    {
      if !isInitialized {
        return false, false;
      }
      if Some(c) == lastRgb {
        return false, true;
      }
      var proto := BuildRequest(devicePath, ActionSetLight, Some(c), id);
      if proto.None? {
        return true, false;
      }
      raised := false;
      if answered {
        lastRgb := Some(c);
        framesSent := framesSent + 1;
        ok := true;
      } else {
        ok := false;
      }
    }

    /** `reset_stats` and `reset_frame_tracking`: no frames counted and no colour remembered. */
    method ResetStats()
      modifies this
      ensures framesSent == 0 && lastRgb == None
      ensures isInitialized == old(isInitialized) && devicePath == old(devicePath)
      ensures targetKeyboard == old(targetKeyboard) && targetLightstrip == old(targetLightstrip)
      ensures selectedChannel == old(selectedChannel) && offsetMs == old(offsetMs)
    {
      framesSent := 0;
      lastRgb := None;
    }

    method SetDevicePath(path: seq<byte>)
      modifies this
      ensures devicePath == path && isInitialized == old(isInitialized)
      ensures framesSent == old(framesSent) && lastRgb == old(lastRgb)
      ensures targetKeyboard == old(targetKeyboard) && targetLightstrip == old(targetLightstrip)
      ensures selectedChannel == old(selectedChannel) && offsetMs == old(offsetMs)
    {
      devicePath := path;
    }
  }
}
