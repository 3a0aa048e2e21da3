/**
  * The MQTT radio-emulation transport (mtg/connection/mqtt/transport.py): the
  * AES-CTR counter block, the subscription topic, the identity derived from the
  * host's MAC address, the destination rule of `sendData` and the drop and
  * reassembly rules for incoming envelopes.
  *
  * The AES decryption, the protobuf and JSON codecs and the MAC lookup are
  * parameters: the model receives their outcomes.
  */
module Transport {
  import opened Wrappers
  import opened Strs

  type byte = x: int | 0 <= x < 256

  // ---------------------------------------------------------------- init_nonce

  function Pow256(w: nat): (r: nat)
    ensures r >= 1
  {
    if w == 0 then 1 else 256 * Pow256(w - 1)
  }

  /** `struct.pack('<Q' / '<I', n)`: `width` bytes, least significant first. */
  function LittleEndian(n: nat, width: nat): (r: seq<byte>)
    ensures |r| == width
  {
    if width == 0 then [] else [n % 256] + LittleEndian(n / 256, width - 1)
  }

  /** The number a little-endian byte string denotes. */
  function FromLittleEndian(s: seq<byte>): nat
    decreases |s|
  {
    if |s| == 0 then 0 else s[0] + 256 * FromLittleEndian(s[1..])
  }

  /** Packing a number that fits and reading it back gives the number. */
  lemma {:induction false} LittleEndianRoundTrip(n: nat, width: nat)
    requires n < Pow256(width)
    ensures FromLittleEndian(LittleEndian(n, width)) == n
  {
    if width > 0 {
      var q := n / 256;
      assert n == 256 * q + n % 256;
      LittleEndianRoundTrip(q, width - 1);
      assert LittleEndian(n, width)[1..] == LittleEndian(q, width - 1);
    }
  }

  /** The 16-byte counter block: packet id (8 bytes), sender (4 bytes), four zero bytes. */
  function NonceBytes(fromNode: nat, packetId: nat): (r: seq<byte>)
    ensures |r| == 16
  {
    LittleEndian(packetId, 8) + LittleEndian(fromNode, 4) + [0, 0, 0, 0]
  }

  /** Whether `struct.pack` accepts both numbers. */
  predicate NonceFits(fromNode: int, packetId: int) {
    0 <= packetId < Pow256(8) && 0 <= fromNode < Pow256(4)
  }

  /** `MQTTCrypto.init_nonce(from_node, packet_id)`: fills a zeroed 16-byte buffer. */
  method InitNonce(fromNode: int, packetId: int) returns (r: Result<array<byte>>)
    ensures r.Ok? <==> NonceFits(fromNode, packetId)
    ensures r.Err? ==> r.exc == StructError
    ensures r.Ok? ==> fresh(r.value) && r.value[..] == NonceBytes(fromNode, packetId)
  {
    if !NonceFits(fromNode, packetId) {
      return Err(StructError);
    }
    var nonce := new byte[16](_ => 0);
    var id := LittleEndian(packetId, 8);
    var from := LittleEndian(fromNode, 4);
    for i := 0 to 8
      invariant forall k :: 0 <= k < i ==> nonce[k] == id[k]
      invariant forall k :: 8 <= k < 16 ==> nonce[k] == 0
    {
      nonce[i] := id[i];
    }
    for i := 8 to 12
      invariant forall k :: 0 <= k < 8 ==> nonce[k] == id[k]
      invariant forall k :: 8 <= k < i ==> nonce[k] == from[k - 8]
      invariant forall k :: 12 <= k < 16 ==> nonce[k] == 0
    {
      nonce[i] := from[i - 8];
    }
    assert nonce[..] == NonceBytes(fromNode, packetId);
    return Ok(nonce);
  }

  /** The counter block holds both inputs in their fields, and the last four bytes are zero. */
  lemma {:induction false} NonceLayout(fromNode: nat, packetId: nat)
    requires NonceFits(fromNode, packetId)
    ensures var b := NonceBytes(fromNode, packetId);
      FromLittleEndian(b[..8]) == packetId && FromLittleEndian(b[8..12]) == fromNode
      && b[12] == 0 && b[13] == 0 && b[14] == 0 && b[15] == 0
  {
    var b := NonceBytes(fromNode, packetId);
    assert b[..8] == LittleEndian(packetId, 8);
    assert b[8..12] == LittleEndian(fromNode, 4);
    LittleEndianRoundTrip(packetId, 8);
    LittleEndianRoundTrip(fromNode, 4);
  }

  /** Different (sender, packet id) pairs never share a counter block. */
  lemma {:induction false} NonceInjective(from1: nat, id1: nat, from2: nat, id2: nat)
    requires NonceFits(from1, id1) && NonceFits(from2, id2)
    requires NonceBytes(from1, id1) == NonceBytes(from2, id2)
    ensures from1 == from2 && id1 == id2
  {
    NonceLayout(from1, id1);
    NonceLayout(from2, id2);
  }

  // ---------------------------------------------------------------- topic and identity

  /** The topic subscribed to: the configured one, with "/#" added unless it already ends in "#". */
  function SubscriptionTopic(topic: string): (r: string)
    ensures EndsWith(r, "#") && StartsWith(r, topic)
    ensures EndsWith(topic, "#") ==> r == topic
    ensures !EndsWith(topic, "#") ==> r == topic + "/#"
  {
    if EndsWith(topic, "#") then topic
    else
      var r := topic + "/#";
      assert r[..|topic|] == topic;
      r
  }

  lemma SubscriptionTopicIdempotent(topic: string)
    ensures SubscriptionTopic(SubscriptionTopic(topic)) == SubscriptionTopic(topic)
  {
  }

  /** The gateway's own identity on the mesh. */
  datatype HwIds = HwIds(nodeId: string, hexId: string, intId: nat, longName: string)

  /** `gma().replace(':', '')[:8]` */
  function HwNodeId(mac: string): (r: string)
    ensures |r| <= 8 && ':' !in r
  {
    var digits := KeepChars(mac, c => c != ':');
    var r := digits[..if |digits| < 8 then |digits| else 8];
    assert forall i :: 0 <= i < |r| ==> r[i] != ':';
    r
  }

  /** The identity fields set in the constructor and `getLongName`: `int(..., 16)` fails on
      anything that is not a run of hexadecimal digits. */
  function HardwareIds(mac: string): (r: Result<HwIds>)
    ensures r.Ok? <==> ParseHex(HwNodeId(mac)).Some?
    ensures r.Err? ==> r.exc == ValueError
    ensures r.Ok? ==> r.value.nodeId == HwNodeId(mac) && r.value.hexId == "!" + HwNodeId(mac)
                      && r.value.longName == "MTG !" + HwNodeId(mac)
                      && r.value.intId == ParseHex(HwNodeId(mac)).value
  {
    var id := HwNodeId(mac);
    match ParseHex(id)
    case None => Err(ValueError)
    case Some(n) => Ok(HwIds(id, "!" + id, n, "MTG " + "!" + id))
  }

  // ---------------------------------------------------------------- sendData

  /** The Meshtastic library's broadcast address and number. */
  const BroadcastAddr: string := "^all"
  const BroadcastNum: nat := 0xFFFF_FFFF

  /** Where `sendData(msg, destinationId)` sends: nowhere for "-1", the broadcast number for
      the broadcast address, and otherwise the hexadecimal value of the id without its "!". */
  function Destination(dest: string): (r: Result<Option<nat>>)
    ensures dest == "-1" ==> r == Ok(None)
    ensures dest == BroadcastAddr ==> r == Ok(Some(BroadcastNum))
    ensures dest != "-1" && dest != BroadcastAddr && StartsWith(dest, "!") ==>
      r == (match ParseHex(dest[1..]) case Some(n) => Ok(Some(n)) case None => Err(ValueError))
    ensures dest != "-1" && dest != BroadcastAddr && !StartsWith(dest, "!") ==>
      r == (match ParseHex(dest) case Some(n) => Ok(Some(n)) case None => Err(ValueError))
    ensures r.Err? ==> r.exc == ValueError
  {
    if dest == "-1" then Ok(None)
    else if dest == BroadcastAddr then Ok(Some(BroadcastNum))
    else
      var digits := if StartsWith(dest, "!") then dest[1..] else dest;
      match ParseHex(digits)
      case Some(n) => Ok(Some(n))
      case None => Err(ValueError)
  }

  /** A node id printed as "!" and eight hex digits addresses that node's number. */
  lemma {:induction false} DestinationOfNodeId(n: nat)
    ensures Destination("!" + PadLeft(NatToHex(n), 8, '0')) == Ok(Some(n))
  {
    var text := "!" + PadLeft(NatToHex(n), 8, '0');
    HexRoundTrip(n, 8);
    assert text[1..] == PadLeft(NatToHex(n), 8, '0');
    assert text != BroadcastAddr by { assert text[0] == '!'; }
    assert text != "-1" by { assert text[0] == '!'; }
  }

  /** Sending to the gateway's own hex id targets its own number. */
  lemma {:induction false} DestinationOfOwnId(mac: string)
    requires HardwareIds(mac).Ok?
    ensures Destination(HardwareIds(mac).value.hexId) == Ok(Some(HardwareIds(mac).value.intId))
  {
    var hw := HardwareIds(mac).value;
    assert hw.hexId[0] == '!';
    assert hw.hexId[1..] == HwNodeId(mac);
  }

  /** The largest value the envelope's `uint32` field `to` holds; assigning a larger one
      raises ValueError. */
  const MaxUint32: nat := 0xFFFF_FFFF

  /** The envelope `sendData` publishes. */
  datatype Outgoing = Outgoing(
    channelId: string,
    gatewayId: string,
    to: nat,
    hopLimit: nat,
    id: nat,
    rxTime: int,
    portnum: int,
    payload: seq<byte>,
    from: nat)

  /** `sendData(msg, destinationId, portNum)`; the packet id and the clock are parameters. */
  function SendData(msg: seq<byte>, dest: string, portnum: int, channel: string, hw: HwIds,
                    packetId: nat, now: int): (r: Result<Option<Outgoing>>)
    ensures dest == "-1" ==> r == Ok(None)
    ensures r.Ok? && r.value.Some? ==>
      var out := r.value.value;
      Destination(dest) == Ok(Some(out.to)) && out.hopLimit == 2 && out.from == hw.intId
      && out.gatewayId == hw.hexId && out.channelId == channel && out.payload == msg
      && out.portnum == portnum && out.id == packetId && out.rxTime == now
    ensures r.Ok? && r.value.Some? ==> r.value.value.to <= MaxUint32
    ensures r.Err? <==>
      Destination(dest).Err? || (Destination(dest).Ok? && Destination(dest).value.Some? && Destination(dest).value.value > MaxUint32)
    ensures r.Err? ==> r.exc == ValueError
  {
    match Destination(dest)
    case Err(e) => Err(e)
    case Ok(None) => Ok(None)
    case Ok(Some(to)) =>
      if to > MaxUint32 then Err(ValueError)
      else Ok(Some(Outgoing(channel, hw.hexId, to, 2, packetId, now, portnum, msg, hw.intId)))
  }

  // ---------------------------------------------------------------- on_message_wrapped

  /** The status payloads `b'online'` and `b'offline'`. */
  const Online: seq<byte> := [111, 110, 108, 105, 110, 101]
  const Offline: seq<byte> := [111, 102, 102, 108, 105, 110, 101]

  /** What `json.loads(payload)` gives: not JSON, a value with a length, or one without. */
  datatype JsonParse = NotJson | Sized(size: nat) | Unsized

  /** The decoded body of a mesh packet; as a dictionary it is empty when both fields
      hold their protobuf defaults. */
  datatype Body = Body(portnum: int, payload: seq<byte>) {
    predicate Truthy() { portnum != 0 || payload != [] }
  }

  /** The `ServiceEnvelope` packet as a dictionary: protobuf defaults are absent keys. */
  datatype Envelope = Envelope(
    from: Option<int>,
    to: Option<int>,
    id: Option<int>,
    rxTime: Option<int>,
    hopLimit: Option<int>,
    encrypted: bool,
    decoded: Option<Body>)

  /** The packet handed to the radio interface. */
  datatype RadioPacket = RadioPacket(from: int, to: int, decoded: Body, id: int, rxTime: int, hopLimit: int, viaMqtt: bool)

  /** The outcome of one incoming MQTT message: dropped, an exception logged by
      `on_message`, or a packet passed on. */
  datatype Incoming = Dropped | Failed(exc: Exc) | Delivered(packet: RadioPacket)

  /** `on_message_wrapped`: `json` and `envelope` are the codecs' outcomes, `decrypt` the
      AES-CTR decryption and protobuf decoding of an encrypted packet. */
  function OnMessage(payload: seq<byte>, json: JsonParse, envelope: Option<Envelope>,
                     decrypt: Envelope -> Result<Body>, myId: int, now: int): (r: Incoming)
    ensures payload == Online || payload == Offline ==> r == Dropped
    ensures payload != Online && payload != Offline && json.Sized? && json.size > 0 ==> r == Dropped
    ensures r.Delivered? ==>
      payload != Online && payload != Offline && (json.NotJson? || json == Sized(0))
      && envelope.Some?
      && envelope.value.from == Some(r.packet.from) && r.packet.from != 0 && r.packet.from != myId
      && envelope.value.to == Some(r.packet.to)
      && r.packet.decoded.Truthy()
      && (!envelope.value.encrypted ==> envelope.value.decoded == Some(r.packet.decoded))
      && (envelope.value.encrypted ==> decrypt(envelope.value) == Ok(r.packet.decoded))
      && r.packet.id == envelope.value.id.GetOr(0)
      && r.packet.rxTime == envelope.value.rxTime.GetOr(now)
      && r.packet.hopLimit == envelope.value.hopLimit.GetOr(3)
      && r.packet.viaMqtt
    ensures r.Failed? ==> r.exc == TypeError || r.exc == KeyError || (envelope.Some? && decrypt(envelope.value) == Err(r.exc))
  {
    if payload == Online || payload == Offline then Dropped
    else if json.Unsized? then Failed(TypeError)
    else if json.Sized? && json.size > 0 then Dropped
    else if envelope.None? then Dropped
    else
      var full := envelope.value;
      if full.from.None? || full.from.value == 0 || full.from.value == myId then Dropped
      else
        var decoded := if full.encrypted then decrypt(full) else (match full.decoded case Some(b) => Ok(b) case None => Ok(Body(0, [])));
        if decoded.Err? then Failed(decoded.exc)
        else if !decoded.value.Truthy() then Dropped
        else if full.to.None? then Failed(KeyError)
        else Delivered(RadioPacket(full.from.value, full.to.value, decoded.value,
                                   full.id.GetOr(0), full.rxTime.GetOr(now), full.hopLimit.GetOr(3), true))
  }

  /** A plain packet from another node with a body and a recipient is always delivered. */
  lemma {:induction false} ForeignPacketDelivered(payload: seq<byte>, env: Envelope,
                                                  decrypt: Envelope -> Result<Body>, myId: int, now: int)
    requires payload != Online && payload != Offline
    requires env.from.Some? && env.from.value != 0 && env.from.value != myId
    requires !env.encrypted && env.decoded.Some? && env.decoded.value.Truthy() && env.to.Some?
    ensures OnMessage(payload, NotJson, Some(env), decrypt, myId, now).Delivered?
  {
  }
}
