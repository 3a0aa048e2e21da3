/**
  * The APRS-IS streamer (mtg/connection/aprs/aprs.py).
  *
  * Outgoing text messages are APRS message packets addressed to a 9-character
  * addressee field (section 14 of the APRS Protocol Reference 1.0.1).  Incoming
  * message packets addressed to the gateway's call sign are acknowledged,
  * de-duplicated through the streamer's cache and forwarded to Telegram and to
  * the mesh.  Position reports of nodes whose names are amateur call signs are
  * sent to APRS-IS.
  *
  * What the streamer sends is returned as a list of `Action`s.  The APRS-IS
  * socket, the Telegram and mesh connections, the clock and `strftime` are
  * outside the model.  Coordinates are exact reals: the round trips through
  * `str`, `Decimal` and `float` in `get_imag` are taken to be exact.
  */
module Aprs {
  import opened Wrappers
  import opened Strs
  import opened Mesh
  import opened Database
  import opened Memcache
  import Prefixes

  /** What the streamer does: a packet to APRS-IS, a Telegram notification, a mesh text. */
  datatype Action = AprsSend(packet: string) | Telegram(text: string) | MeshText(text: string)

  // ---------------------------------------------------------------- message packets

  const MessageHead: string := ">APDR15,WIDE1-1,WIDE2-2::"

  /** `f'{callsign}>APDR15,WIDE1-1,WIDE2-2::{addressee:9}:{message}'` */
  function TextPacket(callsign: string, addressee: string, message: string): (p: string)
    ensures StartsWith(p, callsign + MessageHead + addressee)
    ensures EndsWith(p, ":" + message)
  {
    var head := callsign + MessageHead;
    var field := PadRight(addressee, 9, ' ');
    var p := head + field + ":" + message;
    assert p[..|head + addressee|] == head + addressee by {
      assert field[..|addressee|] == addressee;
      assert p[..|head + addressee|] == head + field[..|addressee|];
    }
    assert p[|p| - |":" + message|..] == ":" + message;
    p
  }

  /** Reads a message packet from `callsign` back into its addressee and text. */
  function ParseTextPacket(packet: string, callsign: string): (r: Option<(string, string)>)
  {
    var head := callsign + MessageHead;
    if |packet| >= |head| + 10 && packet[..|head|] == head && packet[|head| + 9] == ':' then
      Some((RStrip(packet[|head|..|head| + 9], {' '}), packet[|head| + 10..]))
    else None
  }

  lemma {:induction false} RStripPadding(s: string, k: nat)
    requires |s| == 0 || s[|s| - 1] != ' '
    ensures RStrip(s + Repeat(' ', k), {' '}) == s
    decreases k
  {
    if k > 0 {
      assert (s + Repeat(' ', k))[..|s| + k - 1] == s + Repeat(' ', k - 1);
      RStripPadding(s, k - 1);
    } else {
      assert s + Repeat(' ', k) == s;
    }
  }

  /** An addressee of at most nine characters that does not end in a space, and the
      text, are read back from the packet built for them. */
  lemma {:induction false} TextPacketRoundTrip(callsign: string, addressee: string, message: string)
    requires |addressee| <= 9 && (|addressee| == 0 || addressee[|addressee| - 1] != ' ')
    ensures ParseTextPacket(TextPacket(callsign, addressee, message), callsign) == Some((addressee, message))
  {
    var head := callsign + MessageHead;
    var field := PadRight(addressee, 9, ' ');
    var p := TextPacket(callsign, addressee, message);
    assert p == head + field + ":" + message;
    assert |field| == 9;
    assert p[..|head|] == head;
    assert p[|head|..|head| + 9] == field;
    assert p[|head| + 10..] == message;
    if |addressee| < 9 {
      RStripPadding(addressee, 9 - |addressee|);
    } else {
      RStripPadding(addressee, 0);
      assert field == addressee + Repeat(' ', 0);
    }
  }

  // ---------------------------------------------------------------- sexagesimal

  /** `get_imag(x)`: `x - x // 1` with Decimal's truncating `//`, so it keeps the sign. */
  function Frac(x: real): (f: real)
    ensures x >= 0.0 ==> 0.0 <= f < 1.0
    ensures x < 0.0 ==> -1.0 < f <= 0.0
    ensures x == Trunc(x) as real + f
  {
    x - Trunc(x) as real
  }

  datatype Sexagesimal = Sexagesimal(degrees: int, minutes: int, seconds: int)

  /** `dec2sexagesimal(value)` */
  function Dec2Sexagesimal(value: real): (r: Sexagesimal)
    ensures r.degrees == Trunc(value)
  {
    var by60 := Frac(value) * 60.0;
    Sexagesimal(Trunc(value), Trunc(by60), Trunc(Frac(by60) * 60.0))
  }

  lemma SexagesimalOfZero()
    ensures Dec2Sexagesimal(0.0) == Sexagesimal(0, 0, 0)
  {
  }

  /** Minutes and seconds lie in [0, 60) for a non-negative value and in (-60, 0] for a
      negative one, and the three parts give the value back to within a second of arc. */
  lemma {:induction false} SexagesimalBounds(value: real)
    ensures var r := Dec2Sexagesimal(value);
      value >= 0.0 ==> 0 <= r.minutes < 60 && 0 <= r.seconds < 60
    ensures var r := Dec2Sexagesimal(value);
      value < 0.0 ==> -60 < r.minutes <= 0 && -60 < r.seconds <= 0
    ensures var r := Dec2Sexagesimal(value);
      var back := r.degrees as real + r.minutes as real / 60.0 + r.seconds as real / 3600.0;
      (value >= 0.0 ==> 0.0 <= value - back < 1.0 / 3600.0)
      && (value < 0.0 ==> 0.0 <= back - value < 1.0 / 3600.0)
  {
    var f := Frac(value);
    var by60 := f * 60.0;
    var m := Trunc(by60);
    var g := Frac(by60);
    var s := Trunc(g * 60.0);
    assert value == Trunc(value) as real + f;
    assert by60 == m as real + g;
    var back := Trunc(value) as real + m as real / 60.0 + s as real / 3600.0;
    assert value - back == (g * 60.0 - s as real) / 3600.0;
    if value >= 0.0 {
      assert 0.0 <= by60 < 60.0;
      assert 0.0 <= g * 60.0 < 60.0;
    } else {
      assert -60.0 < by60 <= 0.0;
      assert -60.0 < g * 60.0 <= 0.0;
    }
  }

  // ---------------------------------------------------------------- position reports

  /** `f'{abs(seconds):<02d}'`: left-justified and filled with zeros on the right. */
  function SecondsField(seconds: int): (r: string)
    ensures |r| >= 2
  {
    PadRight(NatToString(if seconds < 0 then -seconds else seconds), 2, '0')
  }

  function Abs(x: int): nat { if x < 0 then -x else x }

  /** Left-justified zero filling makes 5 seconds read as 50: the field cannot tell them apart. */
  lemma SecondsFieldAmbiguous()
    ensures SecondsField(5) == SecondsField(50) == "50"
  {
    assert NatToString(50) == NatToString(5) + [DigitChar(0)];
  }

  /** The latitude part of a position report: degrees and minutes run together,
      without padding, then the seconds field and N or S. */
  function LatitudeField(lat: real): (r: string)
    ensures EndsWith(r, if lat < 0.0 then "S" else "N")
  {
    var d := Dec2Sexagesimal(lat);
    var r := NatToString(Abs(d.degrees)) + NatToString(Abs(d.minutes)) + "." + SecondsField(d.seconds)
             + (if lat < 0.0 then "S" else "N");
    assert r[|r| - 1..] == (if lat < 0.0 then "S" else "N");
    r
  }

  /** The longitude part: degrees and minutes right-justified with zeros to five
      characters, then the seconds field and E or W. */
  function LongitudeField(lon: real): (r: string)
    ensures |r| >= 9
    ensures EndsWith(r, if lon < 0.0 then "W" else "E")
  {
    var d := Dec2Sexagesimal(lon);
    var r := PadLeft(NatToString(Abs(d.degrees)) + NatToString(Abs(d.minutes)), 5, '0') + "."
             + SecondsField(d.seconds) + (if lon < 0.0 then "W" else "E");
    assert r[|r| - 1..] == (if lon < 0.0 then "W" else "E");
    r
  }

  /** `int(metres * 3.28084)` */
  function AltitudeFeet(metres: real): int {
    Trunc(metres * 3.28084)
  }

  /** `f'{feet:06d}'`: zero padded to six characters, the sign counting as one. */
  function AltitudeField(feet: int): (r: string)
    ensures |r| >= 6
  {
    if feet >= 0 then PadLeft(NatToString(feet), 6, '0')
    else "-" + PadLeft(NatToString(-feet), 5, '0')
  }

  lemma {:induction false} LeadingZeros(k: nat, s: string)
    requires AllDigits(s)
    ensures AllDigits(Repeat('0', k) + s)
    ensures DigitsValue(Repeat('0', k) + s) == DigitsValue(s)
    decreases |s|, k
  {
    var z := Repeat('0', k);
    if |s| > 0 {
      LeadingZeros(k, s[..|s| - 1]);
      assert (z + s)[..|z + s| - 1] == z + s[..|s| - 1];
    } else if k > 0 {
      assert (z + s)[..|z + s| - 1] == Repeat('0', k - 1) + s;
      LeadingZeros(k - 1, s);
    } else {
      assert z + s == s;
    }
  }

  lemma {:induction false} PaddedDigits(n: nat, w: nat)
    ensures var padded := PadLeft(NatToString(n), w, '0');
      |padded| > 0 && AllDigits(padded) && DigitsValue(padded) == n
  {
    var digits := NatToString(n);
    NatToStringValue(n);
    if |digits| >= w {
      LeadingZeros(0, digits);
      assert PadLeft(digits, w, '0') == Repeat('0', 0) + digits;
    } else {
      LeadingZeros(w - |digits|, digits);
    }
  }

  /** The altitude field reads back as the altitude. */
  lemma {:induction false} AltitudeRoundTrip(feet: int)
    ensures ParseInt(AltitudeField(feet)) == Some(feet)
  {
    if feet >= 0 {
      PositiveAltitude(feet);
    } else {
      NegativeAltitude(feet);
    }
  }

  lemma PositiveAltitude(feet: int)
    requires feet >= 0
    ensures ParseInt(AltitudeField(feet)) == Some(feet)
  {
    PaddedDigits(feet, 6);
    ParseDigits(PadLeft(NatToString(feet), 6, '0'));
  }

  lemma NegativeAltitude(feet: int)
    requires feet < 0
    ensures ParseInt(AltitudeField(feet)) == Some(feet)
  {
    var n: nat := -feet;
    var digits := PadLeft(NatToString(n), 5, '0');
    PaddedDigits(n, 5);
    NegativeField(feet, n);
    ParseNegative(AltitudeField(feet), digits, feet);
  }

  lemma NegativeField(feet: int, n: nat)
    requires feet < 0 && n == -feet
    ensures AltitudeField(feet) == "-" + PadLeft(NatToString(n), 5, '0')
  {
  }

  /** 100 m is reported as `/A=000328`. */
  lemma HundredMetres()
    ensures AltitudeFeet(100.0) == 328
    ensures AltitudeField(328) == "000328"
  {
    assert 328.0 <= 100.0 * 3.28084 < 329.0;
    assert NatToString(328) == NatToString(32) + [DigitChar(8)];
    assert NatToString(32) == NatToString(3) + [DigitChar(2)];
  }

  /** The `A-Za-z` letters with `re.I`. */
  predicate AllLetters(s: string) {
    forall i :: 0 <= i < |s| ==> IsAsciiLetter(s[i])
  }

  /** `(-[0-9]{1,2})?$` */
  predicate SsidTail(t: string) {
    |t| == 0 || (2 <= |t| <= 3 && t[0] == '-' && AllDigits(t[1..]))
  }

  /** `[0-9][A-Z]{2,3}(-[0-9]{1,2})?$` with `re.I`. */
  predicate CallSuffix(t: string) {
    |t| >= 3 && IsDigit(t[0])
    && ((AllLetters(t[1..3]) && SsidTail(t[3..]))
        || (|t| >= 4 && AllLetters(t[1..4]) && SsidTail(t[4..])))
  }

  /** `re.match(f'^{prefix}[0-9][A-Z]{2,3}(-[0-9]{1,2})?$', name, flags=re.I)`, for a
      prefix made of letters and digits. */
  predicate HamCallsign(prefix: string, name: string) {
    |name| >= |prefix| && Upper(name[..|prefix|]) == Upper(prefix) && CallSuffix(name[|prefix|..])
  }

  predicate AnyHamPrefix(prefixes: seq<string>, name: string) {
    exists k :: 0 <= k < |prefixes| && HamCallsign(prefixes[k], name)
  }

  lemma CallsignExamples()
    ensures HamCallsign("K", "K1ABC")
    ensures HamCallsign("k", "K1ABC-12")
    ensures !HamCallsign("K", "K1ABCDE")
    ensures !HamCallsign("K", "K1A")
  {
    assert "K1ABC"[..1] == "K" && "K1ABC"[1..] == "1ABC";
    assert "1ABC"[1..4] == "ABC" && "1ABC"[4..] == "";
    assert "K1ABC-12"[..1] == "K" && "K1ABC-12"[1..] == "1ABC-12";
    assert "1ABC-12"[1..3] == "AB" && "1ABC-12"[3..] == "C-12";
    assert "1ABC-12"[1..4] == "ABC" && "1ABC-12"[4..] == "-12";
    assert "-12"[1..] == "12";
    assert Upper("k") == "K";
    assert "K1ABCDE"[..1] == "K" && "K1ABCDE"[1..] == "1ABCDE";
    assert "1ABCDE"[3..] == "CDE" && "1ABCDE"[4..] == "DE";
    assert "K1A"[1..] == "1A";
  }

  /** The report `send_location` sends for a node named `name`. */
  function LocationPacket(name: string, lat: real, lon: real, feet: int, timestamp: string, roomLink: string): (p: string)
    ensures StartsWith(p, name + ">APRS,TCPIP*:@" + timestamp + "/")
    ensures p == name + ">APRS,TCPIP*:@" + timestamp + "/" + LatitudeField(lat) + "/" + LongitudeField(lon)
                 + "-/A=" + AltitudeField(feet) + " Forwarded for " + roomLink
  {
    var head := name + ">APRS,TCPIP*:@" + timestamp + "/";
    ReportStartsWithHead(head, LatitudeField(lat), LongitudeField(lon), AltitudeField(feet), roomLink);
    head + LatitudeField(lat) + "/" + LongitudeField(lon) + "-/A=" + AltitudeField(feet) + " Forwarded for " + roomLink
  }

  /** A report begins with its header, whatever its fields. */
  lemma ReportStartsWithHead(head: string, latField: string, lonField: string, altField: string, roomLink: string)
    ensures StartsWith(head + latField + "/" + lonField + "-/A=" + altField + " Forwarded for " + roomLink, head)
  {
    var tail := latField + "/" + lonField + "-/A=" + altField + " Forwarded for " + roomLink;
    assert head + latField + "/" + lonField + "-/A=" + altField + " Forwarded for " + roomLink == head + tail;
    StartsWithConcat(head, tail);
  }

  /** `packet.get('decoded', {}).get('position', {})` */
  function ReportedPosition(packet: Packet): Position {
    if packet.decoded.Some? && packet.decoded.value.position.Some? then packet.decoded.value.position.value
    else Position(None, None, None, None, None, None, None, false)
  }

  /** What `send_location` does: nothing without a sender id, the database's error
      for an unknown node, nothing for a name that is empty once cleaned or that is no
      call sign under any loaded prefix, else the report. */
  function LocationReport(prefixes: seq<string>, nodes: seq<NodeRecord>, packet: Packet,
                          timestamp: string, roomLink: string): (r: Result<Option<string>>)
    ensures !HasFromId(packet) ==> r == Ok(None)
    ensures r.Err? <==> HasFromId(packet) && FindNode(nodes, packet.fromId.value).None?
    ensures r.Ok? && r.value.Some? ==>
      var name := NormalizeName(NodeInfoRecord(nodes, packet.fromId.value).value.nodeName);
      |name| > 0 && AnyHamPrefix(prefixes, name)
      && StartsWith(r.value.value, name + ">APRS,TCPIP*:@" + timestamp + "/")
    ensures HasFromId(packet) && NodeInfoRecord(nodes, packet.fromId.value).Ok? ==>
      var name := NormalizeName(NodeInfoRecord(nodes, packet.fromId.value).value.nodeName);
      var pos := ReportedPosition(packet);
      (|name| == 0 || !AnyHamPrefix(prefixes, name) ==> r == Ok(None))
      && (|name| > 0 && AnyHamPrefix(prefixes, name) ==>
            r == Ok(Some(LocationPacket(name, pos.latitude.GetOr(0.0), pos.longitude.GetOr(0.0),
                                        AltitudeFeet(pos.altitude.GetOr(0.0)), timestamp, roomLink))))
  {
    if !HasFromId(packet) then Ok(None)
    else match NodeInfoRecord(nodes, packet.fromId.value)
      case Err(e) => Err(e)
      case Ok(rec) =>
        var pos := ReportedPosition(packet);
        var name := NormalizeName(rec.nodeName);
        if |name| == 0 || !AnyHamPrefix(prefixes, name) then Ok(None)
        else Ok(Some(LocationPacket(name, pos.latitude.GetOr(0.0), pos.longitude.GetOr(0.0),
                                    AltitudeFeet(pos.altitude.GetOr(0.0)), timestamp, roomLink)))
  }

  // ---------------------------------------------------------------- incoming messages

  /** The fields `process` reads from a parsed APRS packet. */
  datatype AprsPacket = AprsPacket(format: Option<string>, messageText: Option<string>,
                                   addresse: Option<string>, from: Option<string>, msgNo: Option<string>)

  /** The guards of `process` before it reads the sender. */
  predicate Accepted(toMeshtastic: bool, callsign: string, p: AprsPacket) {
    toMeshtastic && p.format == Some("message") && p.messageText.Some? && |p.messageText.value| > 0
    && p.addresse == Some(callsign)
  }

  /** `send_text(addressee, message)` through `send_packet`. */
  function SendText(fromMeshtastic: bool, callsign: string, addressee: string, message: string): (r: seq<Action>)
    ensures fromMeshtastic <==> r == [AprsSend(TextPacket(callsign, addressee, message))]
    ensures !fromMeshtastic <==> r == []
  {
    if fromMeshtastic then [AprsSend(TextPacket(callsign, addressee, message))] else []
  }

  /** The cache key of a message. */
  function DedupeKey(node: string, msg: string): string { node + msg }

  /** `memcache.get(key)` is truthy. */
  predicate Seen(cache: map<string, Entry<bool>>, key: string) {
    LookupData(cache, key) == Some(true)
  }

  datatype Outcome = Outcome(actions: seq<Action>, cache: map<string, Entry<bool>>, exc: Option<Exc>)

  /** `process(packet)` at time `now`: the actions, the cache afterwards, and the
      exception raised, if any.  A packet without a sender fails on `None` as the
      addressee or in the cache key. */
  function Process(toMeshtastic: bool, fromMeshtastic: bool, callsign: string,
                   cache: map<string, Entry<bool>>, p: AprsPacket, now: real): (r: Outcome)
    ensures !Accepted(toMeshtastic, callsign, p) ==> r == Outcome([], cache, None)
    ensures Accepted(toMeshtastic, callsign, p) && p.from.None? ==> r == Outcome([], cache, Some(TypeError))
  {
    if !Accepted(toMeshtastic, callsign, p) then Outcome([], cache, None)
    else if p.from.None? then Outcome([], cache, Some(TypeError))
    else
      var node := p.from.value;
      var msg := p.messageText.value;
      var msgNo := p.msgNo.GetOr("");
      var ack := if |msgNo| > 0 then SendText(fromMeshtastic, callsign, node, "ack" + msgNo) else [];
      if Seen(cache, DedupeKey(node, msg)) then Outcome(ack, cache, None)
      else
        var passed := if Lower(msg) == "ping" || Lower(msg) == "test"
                      then SendText(fromMeshtastic, callsign, node, "passed") else [];
        var text := "APRS-" + node + ": " + msg;
        Outcome(ack + passed + [Telegram(text), MeshText(text)],
                cache[DedupeKey(node, msg) := MakeEntry(true, 300.0, now)], None)
  }

  /** A non-empty message number is acknowledged first, duplicate or not. */
  lemma AckedEvenIfDuplicate(callsign: string, cache: map<string, Entry<bool>>, p: AprsPacket, now: real)
    requires Accepted(true, callsign, p) && p.from.Some? && p.msgNo.Some? && |p.msgNo.value| > 0
    ensures var r := Process(true, true, callsign, cache, p, now);
      |r.actions| > 0 && r.actions[0] == AprsSend(TextPacket(callsign, p.from.value, "ack" + p.msgNo.value))
  {
  }

  /** An accepted message not seen before is forwarded to Telegram and the mesh as
      "APRS-<from>: <text>" and remembered for 300 seconds. */
  lemma {:induction false} NewMessageForwarded(toMeshtastic: bool, fromMeshtastic: bool, callsign: string,
                                               cache: map<string, Entry<bool>>, p: AprsPacket, now: real)
    requires Accepted(toMeshtastic, callsign, p) && p.from.Some?
    requires !Seen(cache, DedupeKey(p.from.value, p.messageText.value))
    ensures var r := Process(toMeshtastic, fromMeshtastic, callsign, cache, p, now);
      var text := "APRS-" + p.from.value + ": " + p.messageText.value;
      |r.actions| >= 2 && r.actions[|r.actions| - 2..] == [Telegram(text), MeshText(text)]
      && r.cache == cache[p.from.value + p.messageText.value := Entry(true, now + 300.0)]
      && r.exc.None?
  {
  }

  /** A message already in the cache is not forwarded again. */
  lemma DuplicateNotForwarded(toMeshtastic: bool, fromMeshtastic: bool, callsign: string,
                              cache: map<string, Entry<bool>>, p: AprsPacket, now: real)
    requires p.from.Some? && p.messageText.Some? && Seen(cache, DedupeKey(p.from.value, p.messageText.value))
    ensures var r := Process(toMeshtastic, fromMeshtastic, callsign, cache, p, now);
      r.cache == cache && forall a :: a in r.actions ==> a.AprsSend?
  {
  }

  /** The same packet delivered twice is forwarded once: `get` ignores deadlines, so
      the copy stays a duplicate until a reaper pass drops the entry. */
  lemma {:induction false} RepeatForwardedOnce(toMeshtastic: bool, fromMeshtastic: bool, callsign: string,
                                               cache: map<string, Entry<bool>>, p: AprsPacket, now: real, later: real)
    requires Accepted(toMeshtastic, callsign, p) && p.from.Some?
    ensures var first := Process(toMeshtastic, fromMeshtastic, callsign, cache, p, now);
      var second := Process(toMeshtastic, fromMeshtastic, callsign, first.cache, p, later);
      forall a :: a in second.actions ==> a.AprsSend?
  {
    var first := Process(toMeshtastic, fromMeshtastic, callsign, cache, p, now);
    assert Seen(first.cache, DedupeKey(p.from.value, p.messageText.value));
    DuplicateNotForwarded(toMeshtastic, fromMeshtastic, callsign, first.cache, p, later);
  }

  /** "ping" and "test", in any case, are answered with "passed". */
  lemma PingAnswered(callsign: string, cache: map<string, Entry<bool>>, p: AprsPacket, now: real)
    requires Accepted(true, callsign, p) && p.from.Some?
    requires !Seen(cache, DedupeKey(p.from.value, p.messageText.value))
    requires Lower(p.messageText.value) == "ping" || Lower(p.messageText.value) == "test"
    ensures AprsSend(TextPacket(callsign, p.from.value, "passed")) in Process(true, true, callsign, cache, p, now).actions
  {
  }

  class APRSStreamer {
    const callsign: string
    /** `APRS.ToMeshtastic` and `APRS.FromMeshtastic`. */
    const toMeshtastic: bool
    const fromMeshtastic: bool
    const memcache: Memcache<string, bool>
    /** The prefixes of the gateway's own country, preloaded by the run loop. */
    var prefixes: seq<string>
    var exit: bool

    constructor (callsign: string, toMeshtastic: bool, fromMeshtastic: bool)
      ensures this.callsign == callsign && this.toMeshtastic == toMeshtastic && this.fromMeshtastic == fromMeshtastic
      ensures prefixes == [] && !exit && fresh(memcache) && memcache.cache == map[]
    {
      this.callsign := callsign;
      this.toMeshtastic := toMeshtastic;
      this.fromMeshtastic := fromMeshtastic;
      memcache := new Memcache();
      prefixes := [];
      exit := false;
    }

    /** `send_packet(packet)`: dropped unless `FromMeshtastic` is set. */
    method SendPacket(packet: string) returns (sent: seq<Action>)
      ensures fromMeshtastic ==> sent == [AprsSend(packet)]
      ensures !fromMeshtastic ==> sent == []
    {
      sent := if fromMeshtastic then [AprsSend(packet)] else [];
    }

    /** `process(packet)` at clock time `now`. */
    method ProcessPacket(p: AprsPacket, now: real) returns (actions: seq<Action>, exc: Option<Exc>)
      modifies memcache
      ensures Outcome(actions, memcache.cache, exc)
              == Process(toMeshtastic, fromMeshtastic, callsign, old(memcache.cache), p, now)
    {
      actions := [];
      exc := None;
      if !toMeshtastic {
        return;
      }
      if p.format != Some("message") || p.messageText.None? || |p.messageText.value| == 0 {
        return;
      }
      if p.addresse != Some(callsign) {
        return;
      }
      var msg := p.messageText.value;
      if p.from.None? {
        return [], Some(TypeError);
      }
      var node := p.from.value;
      var msgNo := p.msgNo.GetOr("");
      if |msgNo| > 0 {
        var sent := SendPacket(TextPacket(callsign, node, "ack" + msgNo));
        actions := actions + sent;
      }
      var cached := memcache.Get(node + msg);
      if cached == Some(true) {
        return;
      }
      if Lower(msg) == "ping" || Lower(msg) == "test" {
        var sent := SendPacket(TextPacket(callsign, node, "passed"));
        actions := actions + sent;
      }
      memcache.Set(node + msg, true, 300.0, now);
      var text := "APRS-" + node + ": " + msg;
      actions := actions + [Telegram(text), MeshText(text)];
    }

    /** `send_location(packet)`: the prefix search loop with its `found` flag.  The
        report goes straight to the socket, without the `FromMeshtastic` check. */
    method SendLocation(packet: Packet, nodes: seq<NodeRecord>, timestamp: string, roomLink: string)
      returns (r: Result<Option<string>>)
      ensures r == LocationReport(prefixes, nodes, packet, timestamp, roomLink)
    {
      if !HasFromId(packet) {
        return Ok(None);
      }
      var rec := NodeInfoRecord(nodes, packet.fromId.value);
      if rec.Err? {
        return Err(rec.exc);
      }
      var pos := ReportedPosition(packet);
      var feet := AltitudeFeet(pos.altitude.GetOr(0.0));
      var name := NormalizeName(rec.value.nodeName);
      if |name| == 0 {
        return Ok(None);
      }
      var found := false;
      var i := 0;
      while i < |prefixes| && !found
        invariant 0 <= i <= |prefixes|
        invariant found ==> AnyHamPrefix(prefixes, name)
        invariant !found ==> forall k :: 0 <= k < i ==> !HamCallsign(prefixes[k], name)
      {
        if HamCallsign(prefixes[i], name) {
          found := true;
        }
        i := i + 1;
      }
      if !found {
        return Ok(None);
      }
      return Ok(Some(LocationPacket(name, pos.latitude.GetOr(0.0), pos.longitude.GetOr(0.0), feet, timestamp, roomLink)));
    }

    /** The start of `run_loop`: the gateway's own call sign must belong to a known
        country, whose prefixes are then preloaded. */
    method LoadPrefixes(classes: seq<Prefixes.Country>) returns (exc: Option<Exc>)
      modifies this
      ensures var country := Prefixes.CountryByCallsign(Prefixes.Table(classes), callsign);
        (forall i :: 0 <= i < |classes| ==> |classes[i].prefixes| > 0) && country.Some? ==>
          exc == None && Some(prefixes) == Prefixes.PrefixesByCallsign(Prefixes.Table(classes), callsign)
      ensures exc == None ==>
        (forall i :: 0 <= i < |classes| ==> |classes[i].prefixes| > 0)
        && Prefixes.CountryByCallsign(Prefixes.Table(classes), callsign).Some?
      ensures exc != None ==> prefixes == old(prefixes)
      ensures exit == old(exit)
    {
      var country := Prefixes.GetCountryByCallsign(classes, callsign);
      if country.Err? {
        return Some(country.exc);
      }
      if country.value.None? {
        return Some(RuntimeError("Could not get country for callsign " + callsign));
      }
      var found := Prefixes.GetPrefixesByCallsign(classes, callsign);
      Prefixes.LookupsAgree(Prefixes.Table(classes), callsign);
      prefixes := found.value.value;
      exc := None;
    }

    /** `shutdown()` */
    method Shutdown()
      modifies this
      ensures exit && prefixes == old(prefixes)
    {
      exit := true;
    }
  }
}
