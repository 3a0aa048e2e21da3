/**
  * The Meshtastic side of the bot (mtg/bot/meshtastic/meshtastic.py): what the
  * gateway does with a packet received from the radio.
  *
  * Every outside call the bot makes is an `Effect`, listed in the order the
  * source makes them: texts to the mesh, the ping broadcast, reboot and database
  * reset requests, messages to the Telegram rooms, the CSV node log, the APRS
  * calls and pong handling.  The database, the memcache and the ping table are
  * state.  The interface's node table, the radio's own long name, the clock, the
  * chat bot's reply, the rounded distance between two points, the map centre and
  * the two random draws of `get_set_last_position`, and the weather service's
  * answer are inputs (`Env`).
  */
module MeshBot {
  import opened Wrappers
  import opened Strs
  import opened Sorting
  import opened Mesh
  import opened Database
  import opened Memcache
  import Filter
  import RichConnection

  /** `meshtastic.BROADCAST_ADDR` */
  const Broadcast := "^all"
  const TextPort := "TEXT_MESSAGE_APP"
  const PositionPort := "POSITION_APP"
  const ReplyPort := "REPLY_APP"

  datatype Effect =
    | MeshText(text: string, dest: string)   // send_text(text, destinationId=dest)
    | PingBroadcast                          // send_data(b"test string", BROADCAST_ADDR, REPLY_APP, ...)
    | Reboot                                 // meshtastic_connection.reboot()
    | ResetDb                                // meshtastic_connection.reset_db()
    | RoomMessage(text: string)              // Telegram message to Telegram.Room
    | Notification(text: string)             // Telegram message to Telegram.NotificationsRoom
    | NodeLog(packet: Packet)                // writer.write(packet)
    | AprsLocation(packet: Packet)           // aprs.send_location(packet)
    | AprsText(addressee: string, text: string)  // aprs.send_text(addressee, text)
    | Pong(packet: Packet)                   // process_pong(packet)

  /** The configuration values the bot reads. */
  datatype BotConfig = BotConfig(
    maxHopCount: int,              // Meshtastic.MaxHopCount
    admin: string,                 // Meshtastic.Admin
    notificationsEnabled: bool,    // Telegram.NotificationsEnabled
    nodeLogEnabled: bool,          // Meshtastic.NodeLogEnabled
    welcomeEnabled: bool,          // Meshtastic.WelcomeMessageEnabled
    welcomeMessage: string,        // Meshtastic.WelcomeMessage
    mapLinkEnabled: bool,          // Telegram.MapLinkEnabled
    mapLink: string,               // Telegram.MapLink
    weatherKey: string)            // DEFAULT.OpenWeatherKey

  /** What one call sees of the world outside the bot. */
  datatype Env = Env(
    table: seq<NodeEntry>,                // interface.nodes
    selfName: string,                     // interface.getLongName()
    now: int,                             // time.time()
    reply: (string, string) -> string,    // bot_handler.get_response(from_id, msg)
    distance: (LatLng, LatLng) -> nat,    // round(get_lat_lon_distance(a, b))
    center: LatLng,                       // WebApp.Center_Latitude, WebApp.Center_Longitude
    draw: (nat, nat),                     // the two random.randrange(1000) draws
    weather: (LatLng, string) -> Option<string>)  // get_cur_temp(lat, lon, key), None when it raised

  /** The database tables the bot changes. */
  datatype Db = Db(nodes: seq<NodeRecord>, locations: seq<LocationRecord>, messages: seq<MessageRecord>)

  function DbOf(d: MeshtasticDB): Db
    reads d
  {
    Db(d.nodes, d.locations, d.messages)
  }

  /** `database.get_node_record(node_id)` on the tables. */
  function RecordLookup(db: Db, conn: Option<seq<NodeEntry>>, nodeId: string): (NodeLookup, Db) {
    var (lookup, nodes) := NodeRecordStep(db.nodes, conn, nodeId);
    (lookup, db.(nodes := nodes))
  }

  /** `database.store_location(packet)` on the tables. */
  function StoredLocation(db: Db, conn: Option<seq<NodeEntry>>, packet: Packet, now: int): Db {
    if !HasFromId(packet) then db
    else
      var (lookup, nodes) := NodeRecordStep(db.nodes, conn, packet.fromId.value);
      var node := if lookup.record.Some? then Some(lookup.record.value.nodeId) else None;
      Db(nodes, db.locations + [PacketLocation(packet, node, now)], db.messages)
  }

  /** A position stored for a node on record, newer than the node's earlier ones, is
      the position `get_last_coordinates` reads back. */
  lemma StoredPositionIsLast(db: Db, conn: Option<seq<NodeEntry>>, packet: Packet, now: int)
    requires HasFromId(packet) && packet.decoded.Some? && packet.decoded.value.position.Some?
    requires NodeRecordStep(db.nodes, conn, packet.fromId.value).0.record.Some?
    requires forall l :: l in db.locations && l.node == packet.fromId ==> l.datetime < now
    ensures var p := packet.decoded.value.position.value;
      var db' := StoredLocation(db, conn, packet, now);
      LastCoordinates(db'.nodes, db'.locations, packet.fromId.value)
      == Ok(LatLng(p.latitude.GetOr(0.0), p.longitude.GetOr(0.0)))
  {
    var (lookup, nodes) := NodeRecordStep(db.nodes, conn, packet.fromId.value);
    NewestAppendedIsLast(nodes, db.locations, PacketLocation(packet, packet.fromId, now), packet.fromId.value);
  }

  /** `database.store_message(packet)` on the tables. */
  function StoredMessage(db: Db, conn: Option<seq<NodeEntry>>, packet: Packet, now: int): Db {
    if packet.fromId.None? then db.(messages := db.messages + [MessageRecord(now, PacketText(packet), None)])
    else
      var (lookup, nodes) := NodeRecordStep(db.nodes, conn, packet.fromId.value);
      var node := if lookup.record.Some? then Some(lookup.record.value.nodeId) else None;
      Db(nodes, db.locations, db.messages + [MessageRecord(now, PacketText(packet), node)])
  }

  /** Everything one handler leaves behind. */
  datatype Outcome = Outcome(effects: seq<Effect>, exc: Option<Exc>, db: Db,
                             cache: map<string, Entry<bool>>, pings: map<string, int>)

  // ---------------------------------------------------------------- the sender id

  /** `hex(n)` without its `0x`. */
  function HexOf(n: int): string {
    if n >= 0 then NatToHex(n) else "-" + NatToHex(-n)
  }

  /** The sender id: `fromId`, or else `"!"` and the hex of `from` right-justified to
      eight places with zeros; `hex(None)` raises `TypeError`. */
  function SenderId(packet: Packet): (r: Result<string>)
    ensures packet.fromId.Some? ==> r == Ok(packet.fromId.value)
    ensures packet.fromId.None? && packet.from.None? ==> r == Err(TypeError)
    ensures packet.fromId.None? && packet.from.Some? ==> r.Ok? && StartsWith(r.value, "!") && |r.value| >= 9
  {
    if packet.fromId.Some? then Ok(packet.fromId.value)
    else if packet.from.None? then Err(TypeError)
    else
      var id := "!" + PadLeft(HexOf(packet.from.value), 8, '0');
      assert id[..1] == "!";
      Ok(id)
  }

  function Pow16(k: nat): nat {
    if k == 0 then 1 else 16 * Pow16(k - 1)
  }

  lemma {:induction false} HexWidth(n: nat, k: nat)
    requires 1 <= k && n < Pow16(k)
    ensures |NatToHex(n)| <= k
    decreases k
  {
    if n >= 16 {
      assert Pow16(1) == 16;
      assert k >= 2;
      assert n / 16 < Pow16(k - 1);
      HexWidth(n / 16, k - 1);
    }
  }

  /** The rebuilt id reads back as the packet's node number, and a 32-bit node
      number gives the usual nine-character id. */
  lemma Pow16Eight()
    ensures Pow16(8) == 0x1_0000_0000
  {
    assert Pow16(4) == 0x1_0000;
  }

  /** The id without its `!` never starts with `!`, so `lstrip('!')` removes only the
      first character. */
  lemma StripBang(padded: string)
    requires |padded| > 0 && padded[0] != '!'
    ensures LStrip("!" + padded, {'!'}) == padded
  {
    assert ("!" + padded)[1..] == padded;
  }

  /** The rebuilt id reads back as the packet's node number, and a 32-bit node
      number gives the usual nine-character id. */
  lemma SenderIdRoundTrip(packet: Packet, n: nat)
    requires packet.fromId.None? && packet.from == Some(n)
    ensures SenderId(packet).Ok?
    ensures ParseHex(SenderId(packet).value[1..]) == Some(n)
    ensures ParseHex(LStrip(SenderId(packet).value, {'!'})) == Some(n)
    ensures n < 0x1_0000_0000 ==> |SenderId(packet).value| == 9
  {
    var padded := PadLeft(NatToHex(n), 8, '0');
    HexRoundTrip(n, 8);
    assert IsHexDigit(padded[0]);
    StripBang(padded);
    assert ("!" + padded)[1..] == padded;
    if n < 0x1_0000_0000 {
      Pow16Eight();
      HexWidth(n, 8);
    }
  }

  // ---------------------------------------------------------------- commands

  datatype Command = Weather | Distance | PingCmd | StatsCmd | RebootCmd | ResetDbCmd | Unknown

  /** `process_meshtastic_command`'s dispatch: the first matching prefix in the
      order /w, /distance, /ping, /stats, then /reboot and /reset_db for the admin. */
  function CommandOf(msg: string, fromId: string, admin: string): (c: Command)
    ensures c == Weather <==> StartsWith(msg, "/w")
    ensures c == Distance <==> StartsWith(msg, "/distance")
    ensures c == PingCmd <==> StartsWith(msg, "/ping")
    ensures c == StatsCmd <==> StartsWith(msg, "/stats")
    ensures c == RebootCmd <==> StartsWith(msg, "/reboot") && fromId == admin
    ensures c == ResetDbCmd <==> StartsWith(msg, "/reset_db") && fromId == admin
    ensures c == Unknown <==>
      !StartsWith(msg, "/w") && !StartsWith(msg, "/distance") && !StartsWith(msg, "/ping")
      && !StartsWith(msg, "/stats") && !(StartsWith(msg, "/reboot") && fromId == admin)
      && !(StartsWith(msg, "/reset_db") && fromId == admin)
  {
    PrefixChar(msg, "/w", 1);
    PrefixChar(msg, "/distance", 1);
    PrefixChar(msg, "/ping", 1);
    PrefixChar(msg, "/stats", 1);
    PrefixChar(msg, "/reboot", 1);
    PrefixChar(msg, "/reset_db", 1);
    PrefixChar(msg, "/reboot", 3);
    PrefixChar(msg, "/reset_db", 3);
    if StartsWith(msg, "/w") then Weather
    else if StartsWith(msg, "/distance") then Distance
    else if StartsWith(msg, "/ping") then PingCmd
    else if StartsWith(msg, "/stats") then StatsCmd
    else if StartsWith(msg, "/reboot") && fromId == admin then RebootCmd
    else if StartsWith(msg, "/reset_db") && fromId == admin then ResetDbCmd
    else Unknown
  }

  /** A text every command handler sends only to the sender, or a request to the radio. */
  predicate CommandEffect(e: Effect, fromId: string) {
    (e.MeshText? && e.dest == fromId) || e.PingBroadcast? || e.Reboot? || e.ResetDb?
  }

  /** What a command does: the reply, the state it changes, or the exception it raises. */
  function CommandOutcome(cfg: BotConfig, env: Env, conn: Option<seq<NodeEntry>>, fromId: string, msg: string,
                          db: Db, cache: map<string, Entry<bool>>, pings: map<string, int>): (o: Outcome)
    ensures forall e :: e in o.effects ==> CommandEffect(e, fromId)
    ensures o.cache == cache
    ensures CommandOf(msg, fromId, cfg.admin) != PingCmd ==> o.pings == pings
    ensures CommandOf(msg, fromId, cfg.admin) == Unknown ==> o.effects == [MeshText("unknown command", fromId)]
    ensures CommandOf(msg, fromId, cfg.admin) == Weather ==> o.db == WeatherDb(env, conn, fromId, db)
    ensures CommandOf(msg, fromId, cfg.admin) in {Distance, PingCmd, RebootCmd, ResetDbCmd, Unknown} ==> o.db == db
  {
    Perform(CommandOf(msg, fromId, cfg.admin), cfg, env, conn, fromId, db, cache, pings)
  }

  /** The random fallback position `get_set_last_position` draws near the map centre. */
  function Candidates(env: Env): (c: LatLng)
    ensures env.draw.0 < 1000 ==> env.center.lat <= c.lat < env.center.lat + 0.1
    ensures env.draw.1 < 1000 ==> env.center.lng <= c.lng < env.center.lng + 0.1
  {
    LatLng(RichConnection.Candidate(env.center.lat, env.draw.0), RichConnection.Candidate(env.center.lng, env.draw.1))
  }

  /** The tables after `/w`: the lookup's, and for a node on record the locations
      `get_set_last_position` leaves, with the random fallback stored when none was there. */
  function WeatherDb(env: Env, conn: Option<seq<NodeEntry>>, fromId: string, db: Db): (d: Db)
    ensures d.nodes == RecordLookup(db, conn, fromId).1.nodes
    ensures !RecordLookup(db, conn, fromId).0.found ==> d == RecordLookup(db, conn, fromId).1
    ensures RecordLookup(db, conn, fromId).0.found ==>
      d.locations == RichConnection.LastPosition(d.nodes, db.locations, Some(fromId), Candidates(env), env.now).1
  {
    var (lookup, db') := RecordLookup(db, conn, fromId);
    if !lookup.found then db'
    else db'.(locations := RichConnection.LastPosition(db'.nodes, db'.locations, Some(fromId), Candidates(env), env.now).1)
  }

  /** `/w`: the weather report.  A node on record first gets its last position, which
      stores the random fallback when none is on record, and then the report, unless
      no key is configured. */
  function WeatherOutcome(cfg: BotConfig, env: Env, conn: Option<seq<NodeEntry>>, fromId: string,
                          db: Db, cache: map<string, Entry<bool>>, pings: map<string, int>): (o: Outcome)
    ensures |o.effects| == 1 && o.effects[0].MeshText? && o.effects[0].dest == fromId
    ensures o.cache == cache && o.pings == pings && o.exc.None?
    ensures !RecordLookup(db, conn, fromId).0.found ==>
      o == Outcome([MeshText("no information about your node available yet", fromId)], None,
                   RecordLookup(db, conn, fromId).1, cache, pings)
    ensures RecordLookup(db, conn, fromId).0.found ==>
      var db' := RecordLookup(db, conn, fromId).1;
      var (at, locs) := RichConnection.LastPosition(db'.nodes, db'.locations, Some(fromId), Candidates(env), env.now);
      o.db == db'.(locations := locs)
      && (|cfg.weatherKey| == 0 ==> o.effects[0].text == "weather command disabled by configuration")
      && (|cfg.weatherKey| > 0 ==>
            o.effects[0].text == env.weather(at, cfg.weatherKey).GetOr("could not get weather, see bot logs"))
  {
    var (lookup, db') := RecordLookup(db, conn, fromId);
    if !lookup.found then
      Outcome([MeshText("no information about your node available yet", fromId)], None, db', cache, pings)
    else
      var (at, locs) := RichConnection.LastPosition(db'.nodes, db'.locations, Some(fromId), Candidates(env), env.now);
      var text :=
        if |cfg.weatherKey| == 0 then "weather command disabled by configuration"
        else env.weather(at, cfg.weatherKey).GetOr("could not get weather, see bot logs");
      Outcome([MeshText(text, fromId)], None, db'.(locations := locs), cache, pings)
  }

  /** A node on record with stored non-zero coordinates gets the weather at those
      coordinates, and nothing is written. */
  lemma WeatherAtStoredPosition(cfg: BotConfig, env: Env, conn: Option<seq<NodeEntry>>, fromId: string,
                                db: Db, cache: map<string, Entry<bool>>, pings: map<string, int>)
    requires RecordLookup(db, conn, fromId).0.found && |cfg.weatherKey| > 0
    requires LastCoordinates(RecordLookup(db, conn, fromId).1.nodes, db.locations, fromId).Ok?
    requires LastCoordinates(RecordLookup(db, conn, fromId).1.nodes, db.locations, fromId).value.lat != 0.0
    requires LastCoordinates(RecordLookup(db, conn, fromId).1.nodes, db.locations, fromId).value.lng != 0.0
    ensures var at := LastCoordinates(RecordLookup(db, conn, fromId).1.nodes, db.locations, fromId).value;
      var o := WeatherOutcome(cfg, env, conn, fromId, db, cache, pings);
      o.effects == [MeshText(env.weather(at, cfg.weatherKey).GetOr("could not get weather, see bot logs"), fromId)]
      && o.db.locations == db.locations
  {
    var db' := RecordLookup(db, conn, fromId).1;
    RichConnection.StoredCoordinatesKept(db'.nodes, db'.locations, fromId, Candidates(env), env.now);
  }

  /** A node on record without stored coordinates gets the weather at the random
      fallback, which is stored as its location; a later /w asks at the same place. */
  lemma {:induction false} WeatherFallbackRemembered(cfg: BotConfig, env: Env, later: Env, conn: Option<seq<NodeEntry>>,
                                                    fromId: string, db: Db, cache: map<string, Entry<bool>>,
                                                    pings: map<string, int>)
    requires RecordLookup(db, conn, fromId).0.found && |cfg.weatherKey| > 0
    requires LastCoordinates(RecordLookup(db, conn, fromId).1.nodes, db.locations, fromId).Err?
    requires Candidates(env).lat != 0.0 && Candidates(env).lng != 0.0
    ensures var o := WeatherOutcome(cfg, env, conn, fromId, db, cache, pings);
      o.effects == [MeshText(env.weather(Candidates(env), cfg.weatherKey).GetOr("could not get weather, see bot logs"), fromId)]
      && o.db.locations == db.locations + [LocationRecord(env.now, 0.0, 100.0, Candidates(env).lat, Candidates(env).lng, 0.0, Some(fromId))]
      && WeatherOutcome(cfg, later, conn, fromId, o.db, cache, pings).effects
         == [MeshText(later.weather(Candidates(env), cfg.weatherKey).GetOr("could not get weather, see bot logs"), fromId)]
  {
    var (lookup, db') := RecordLookup(db, conn, fromId);
    var cand := Candidates(env);
    assert FindNode(db'.nodes, fromId).Some?;
    RichConnection.FallbackStored(db'.nodes, db'.locations, fromId, cand, env.now);
    var o := WeatherOutcome(cfg, env, conn, fromId, db, cache, pings);
    var (lookup2, db2) := RecordLookup(o.db, conn, fromId);
    assert lookup2.found;
    RichConnection.FallbackRemembered(db'.nodes, db'.locations, fromId, cand, Candidates(later), env.now, later.now);
    SameRecordSameCoordinates(db'.nodes, db2.nodes, o.db.locations, fromId);
  }

  /** The last coordinates depend on the node table only through the node being on record. */
  lemma SameRecordSameCoordinates(nodes: seq<NodeRecord>, nodes': seq<NodeRecord>, locations: seq<LocationRecord>,
                                  nodeId: string)
    requires FindNode(nodes, nodeId).Some? && FindNode(nodes', nodeId).Some?
    ensures LastCoordinates(nodes, locations, nodeId) == LastCoordinates(nodes', locations, nodeId)
  {
  }

  /** `/stats`: the report, or the exception the report raises. */
  function StatsOutcome(fromId: string, db: Db, cache: map<string, Entry<bool>>, pings: map<string, int>): (o: Outcome)
    ensures forall e :: e in o.effects ==> e.MeshText? && e.dest == fromId
    ensures o.cache == cache && o.pings == pings && o.db == db
    ensures o.exc.Some? <==> Stats(db.nodes, db.locations, db.messages, fromId).Err?
  {
    match Stats(db.nodes, db.locations, db.messages, fromId)
    case Ok(text) => Outcome([MeshText(text, fromId)], None, db, cache, pings)
    case Err(e) => Outcome([], Some(e), db, cache, pings)
  }

  /** What one recognised command does. */
  function Perform(cmd: Command, cfg: BotConfig, env: Env, conn: Option<seq<NodeEntry>>, fromId: string,
                   db: Db, cache: map<string, Entry<bool>>, pings: map<string, int>): (o: Outcome)
    ensures forall e :: e in o.effects ==> CommandEffect(e, fromId)
    ensures o.cache == cache
    ensures cmd != PingCmd ==> o.pings == pings
    ensures cmd == Unknown ==> o.effects == [MeshText("unknown command", fromId)]
    ensures cmd == Weather ==> o.db == WeatherDb(env, conn, fromId, db)
    ensures cmd in {Distance, PingCmd, RebootCmd, ResetDbCmd, Unknown} ==> o.db == db
  {
    match cmd
    case Weather => WeatherOutcome(cfg, env, conn, fromId, db, cache, pings)
    case Distance => Outcome(DistanceReplies(env.table, fromId, env.distance), None, db, cache, pings)
    case PingCmd => Outcome([PingBroadcast], None, db, cache, pings[fromId := env.now])
    case StatsCmd => StatsOutcome(fromId, db, cache, pings)
    case RebootCmd => Outcome([Reboot], None, db, cache, pings)
    case ResetDbCmd => Outcome([ResetDb], None, db, cache, pings)
    case Unknown => Outcome([MeshText("unknown command", fromId)], None, db, cache, pings)
  }

  // ---------------------------------------------------------------- /distance

  datatype Neighbour = Neighbour(name: string, distance: nat)

  /** A node's entry in `nodes_with_distance`, or None when the loop skips it. */
  function NeighbourOf(fromId: string, me: LatLng, distance: (LatLng, LatLng) -> nat): NodeEntry -> Option<Neighbour> {
    (e: NodeEntry) =>
      if !e.info.HasPosition() || !e.info.position.value.HasCoordinates() || !e.info.HasUser() then None
      else if e.info.user.value.id.GetOr("") == fromId then None
      else
        var there := LatLng(e.info.position.value.latitude.value, e.info.position.value.longitude.value);
        Some(Neighbour(e.info.user.value.longName.GetOr(""), distance(me, there)))
  }

  function Neighbours(table: seq<NodeEntry>, fromId: string, me: LatLng,
                      distance: (LatLng, LatLng) -> nat): seq<Neighbour> {
    FilterMap(table, NeighbourOf(fromId, me, distance))
  }

  function DistanceKey(n: Neighbour): int {
    n.distance
  }

  /** `sorted(nodes_with_distance, key=distance)[:10]` */
  function Nearest(ns: seq<Neighbour>): seq<Neighbour> {
    var sorted := SortBy(ns, DistanceKey);
    if |sorted| <= 10 then sorted else sorted[..10]
  }

  function DistanceLine(n: Neighbour): string {
    n.name + ": " + IntComma(n.distance) + "m"
  }

  function Lines(ns: seq<Neighbour>, fromId: string): (r: seq<Effect>)
    ensures |r| == |ns|
  {
    seq(|ns|, i requires 0 <= i < |ns| => MeshText(DistanceLine(ns[i]), fromId))
  }

  /** `process_distance_command`: the texts sent back to the sender. */
  function DistanceReplies(table: seq<NodeEntry>, fromId: string, distance: (LatLng, LatLng) -> nat): (r: seq<Effect>)
    ensures forall e :: e in r ==> e.MeshText? && e.dest == fromId
    ensures 1 <= |r| <= 10 || r == []
  {
    var mine := GetNode(table, fromId);
    if mine.None? || mine.value == NoInfo then [MeshText("distance err: no node info", fromId)]
    else if !mine.value.HasPosition() then [MeshText("distance err: no position", fromId)]
    else if !mine.value.position.value.HasCoordinates() then [MeshText("distance err: no lat/lon", fromId)]
    else
      var me := LatLng(mine.value.position.value.latitude.value, mine.value.position.value.longitude.value);
      var ns := Nearest(Neighbours(table, fromId, me, distance));
      Lines(ns, fromId)
  }

  /** The ten nearest, nearest first: at most ten, in ascending distance, taken from
      the candidates, and no candidate left out is nearer than one sent. */
  lemma NearestAreClosest(ns: seq<Neighbour>)
    ensures |Nearest(ns)| == if |ns| <= 10 then |ns| else 10
    ensures SortedBy(Nearest(ns), DistanceKey)
    ensures multiset(Nearest(ns)) <= multiset(ns)
    ensures forall n :: n in ns ==> n in Nearest(ns) || forall m :: m in Nearest(ns) ==> m.distance <= n.distance
  {
    var sorted := SortBy(ns, DistanceKey);
    SortByCorrect(ns, DistanceKey);
    if |sorted| <= 10 {
      SameMembers(ns, sorted);
    } else {
      KeptAreNearest(ns, sorted);
    }
  }

  lemma SameMembers(ns: seq<Neighbour>, sorted: seq<Neighbour>)
    requires multiset(sorted) == multiset(ns)
    ensures forall n :: n in ns ==> n in sorted
  {
    forall n | n in ns ensures n in sorted {
      assert n in multiset(ns);
    }
  }

  /** Cutting a sequence sorted by distance after ten keeps the nearest. */
  lemma KeptAreNearest(ns: seq<Neighbour>, sorted: seq<Neighbour>)
    requires SortedBy(sorted, DistanceKey) && multiset(sorted) == multiset(ns) && |sorted| > 10
    ensures multiset(sorted[..10]) <= multiset(ns)
    ensures forall n :: n in ns ==> n in sorted[..10] || forall m :: m in sorted[..10] ==> m.distance <= n.distance
  {
    assert sorted == sorted[..10] + sorted[10..];
    assert multiset(sorted) == multiset(sorted[..10]) + multiset(sorted[10..]);
    forall n | n in ns ensures n in sorted[..10] || forall m :: m in sorted[..10] ==> m.distance <= n.distance {
      assert n in multiset(sorted);
      var j :| 0 <= j < |sorted| && sorted[j] == n;
      if j >= 10 {
        forall m | m in sorted[..10] ensures m.distance <= n.distance {
          var i :| 0 <= i < 10 && sorted[i] == m;
          assert DistanceKey(sorted[i]) <= DistanceKey(sorted[j]);
        }
      }
    }
  }

  /** Every candidate is a node with a position, coordinates and a user, other than
      the sender. */
  lemma NeighboursExcludeSender(table: seq<NodeEntry>, fromId: string, me: LatLng, distance: (LatLng, LatLng) -> nat)
    ensures forall n :: n in Neighbours(table, fromId, me, distance) ==>
      exists i :: 0 <= i < |table| && NeighbourOf(fromId, me, distance)(table[i]) == Some(n)
        && table[i].info.HasPosition() && table[i].info.position.value.HasCoordinates()
        && table[i].info.HasUser() && table[i].info.user.value.id.GetOr("") != fromId
  {
    FilterMapMembers(table, NeighbourOf(fromId, me, distance));
  }

  // ---------------------------------------------------------------- new-node notice

  /** The map link as `notify_on_new_node` builds it: only "%d" in the template
      selects the substituting branch. */
  function MapLinkAsWritten(link: string, fromId: string, nodeInt: nat, longName: Option<string>): (r: Result<string>)
    ensures !Contains(link, "%d") && longName.Some? ==> r.Ok? && StartsWith(r.value, link)
  {
    if Contains(link, "%d") then
      var l1 := ReplaceAll(link, "%d", NatToString(nodeInt));
      var l2 := if Contains(l1, "%s") then ReplaceAll(l1, "%s", fromId) else l1;
      Ok(Shown(longName) + " " + l2)
    else if longName.None? then Err(AttributeError("'NoneType' object has no attribute 'replace'"))
    else
      var name := ReplaceAll(longName.value, " ", "%20");
      var r := if Contains(link, "?tail=") then link + "&name=" + name else link + "?name=" + name;
      assert r[..|link|] == link;
      Ok(r)
  }

  /** The map link with either placeholder selecting the substituting branch. */
  function MapLink(link: string, fromId: string, nodeInt: nat, longName: Option<string>): (r: Result<string>)
    ensures Contains(link, "%d") || Contains(link, "%s") ==> r.Ok? && StartsWith(r.value, Shown(longName) + " ")
    ensures !Contains(link, "%s") ==> r == MapLinkAsWritten(link, fromId, nodeInt, longName)
  {
    if Contains(link, "%d") || Contains(link, "%s") then
      var l1 := if Contains(link, "%d") then ReplaceAll(link, "%d", NatToString(nodeInt)) else link;
      var l2 := if Contains(l1, "%s") then ReplaceAll(l1, "%s", fromId) else l1;
      var head := Shown(longName) + " ";
      assert (head + l2)[..|head|] == head;
      Ok(head + l2)
    else MapLinkAsWritten(link, fromId, nodeInt, longName)
  }

  /** A template with only "%s", as for meshmap.net, is left unsubstituted and gets a
      "?name=" query appended; the corrected link substitutes the node id. */
  lemma MapLinkPercentS()
    ensures MapLinkAsWritten("m/%s", "!1", 1, Some("Al")) == Ok("m/%s?name=Al")
    ensures MapLink("m/%s", "!1", 1, Some("Al")) == Ok("Al m/!1")
  {
    MissingCharAbsent("m/%s", "%d", 'd');
    ContainsAt("m/%s", "%s", 2);
    MissingCharAbsent("m/%s", "?tail=", '?');
    MissingCharAbsent("Al", " ", ' ');
    ReplaceAbsent("Al", " ", "%20");
    assert ReplaceAll("%s", "%s", "!1") == "!1" by { assert "%s"[2..] == ""; }
    assert ReplaceAll("/%s", "%s", "!1") == "/!1" by { assert "/%s"[1..] == "%s"; }
    assert ReplaceAll("m/%s", "%s", "!1") == "m/!1" by { assert "m/%s"[1..] == "/%s"; }
    assert "m/%s" + "?name=" + "Al" == "m/%s?name=Al";
    assert "Al" + " " + "m/!1" == "Al m/!1";
    assert MapLinkAsWritten("m/%s", "!1", 1, Some("Al")) == Ok("m/%s" + "?name=" + "Al");
    assert MapLink("m/%s", "!1", 1, Some("Al")) == Ok("Al" + " " + "m/!1");
  }

  /** The name part of the notice. */
  function NoticeName(cfg: BotConfig, fromId: string, longName: Option<string>): Result<string> {
    if !cfg.mapLinkEnabled then Ok(Shown(longName))
    else match ParseHex(LStrip(fromId, {'!'}))
      case None => Err(ValueError)
      case Some(n) => MapLinkAsWritten(cfg.mapLink, fromId, n, longName)
  }

  /** `interface.nodes.get(from_id)` is a non-empty node info. */
  predicate Listed(env: Env, fromId: string) {
    GetNode(env.table, fromId).Some? && GetNode(env.table, fromId).value != NoInfo
  }

  /** `notify_on_new_node`: the welcome text and the notification, the database
      lookup's changes, or the exception raised. */
  function NewNodeNotice(cfg: BotConfig, env: Env, conn: Option<seq<NodeEntry>>, fromId: string, db: Db)
    : (r: (seq<Effect>, Option<Exc>, Db))
    ensures r.2 == RecordLookup(db, conn, fromId).1
    ensures RecordLookup(db, conn, fromId).0.found ==> r.0 == [] && r.1.None?
    ensures forall e :: e in r.0 ==> e.Notification? || e == MeshText(cfg.welcomeMessage, fromId)
    ensures r.1.None? && |r.0| > 0 ==> (r.0[|r.0| - 1].Notification?
      && StartsWith(r.0[|r.0| - 1].text, "New node: " + fromId + " -> "))
    ensures !RecordLookup(db, conn, fromId).0.found && !Listed(env, fromId) ==> r.0 == [] && r.1.None?
    ensures !RecordLookup(db, conn, fromId).0.found && Listed(env, fromId)
            && GetNode(env.table, fromId).value.user.None? ==>
      r.0 == [] && r.1 == Some(AttributeError("'NoneType' object has no attribute 'get'"))
    ensures !RecordLookup(db, conn, fromId).0.found && Listed(env, fromId)
            && GetNode(env.table, fromId).value.user.Some? ==>
      var name := NoticeName(cfg, fromId, GetNode(env.table, fromId).value.user.value.longName);
      (name.Err? ==> r.0 == [] && r.1 == Some(name.exc))
      && (name.Ok? ==>
            r.1.None?
            && r.0 == (if cfg.welcomeEnabled then [MeshText(cfg.welcomeMessage, fromId)] else [])
                      + [Notification("New node: " + fromId + " -> " + name.value)])
  {
    var (lookup, db') := RecordLookup(db, conn, fromId);
    if lookup.found then ([], None, db')
    else match GetNode(env.table, fromId)
      case None => ([], None, db')
      case Some(info) =>
        if info == NoInfo then ([], None, db')
        else if info.user.None? then ([], Some(AttributeError("'NoneType' object has no attribute 'get'")), db')
        else match NoticeName(cfg, fromId, info.user.value.longName)
          case Err(e) => ([], Some(e), db')
          case Ok(name) =>
            var head := "New node: " + fromId + " -> ";
            var welcome := if cfg.welcomeEnabled then [MeshText(cfg.welcomeMessage, fromId)] else [];
            assert (head + name)[..|head|] == head;
            (welcome + [Notification(head + name)], None, db')
  }

  /** The node number in the map link is the packet's own `from`, when the id was
      rebuilt from it. */
  lemma MapLinkNodeNumber(cfg: BotConfig, packet: Packet, n: nat, longName: Option<string>)
    requires packet.fromId.None? && packet.from == Some(n) && cfg.mapLinkEnabled
    ensures NoticeName(cfg, SenderId(packet).value, longName)
      == MapLinkAsWritten(cfg.mapLink, SenderId(packet).value, n, longName)
  {
    SenderIdRoundTrip(packet, n);
  }

  /** A node is announced once: after a lookup that leaves a record for it, the next
      notice finds it on record and sends nothing. */
  lemma NoticeOnce(cfg: BotConfig, env: Env, later: Env, conn: Option<seq<NodeEntry>>, fromId: string, db: Db)
    requires conn.Some? && RecordLookup(db, conn, fromId).0.record.Some?
    ensures var r := NewNodeNotice(cfg, env, conn, fromId, db);
      NewNodeNotice(cfg, later, conn, fromId, r.2) == ([], None, r.2.(nodes := NodeRecordStep(r.2.nodes, conn, fromId).1))
  {
    var r := NewNodeNotice(cfg, env, conn, fromId, db);
    assert FindNode(r.2.nodes, fromId).Some?;
  }

  // ---------------------------------------------------------------- broadcast filters

  /** `re.match(r'^seq\s[0-9]+', msg, re.I)`: a range-test message. */
  predicate RangeTest(msg: string) {
    |msg| >= 5 && Lower(msg[..3]) == "seq" && IsSpace(msg[3]) && IsDigit(msg[4])
  }

  predicate SignedDigits(s: string) {
    (|s| > 0 && AllDigits(s)) || (|s| > 1 && s[0] == '-' && AllDigits(s[1..]))
  }

  /** One or more `-?[0-9]+,` groups. */
  predicate TelemetryGroups(g: string) {
    |g| > 0 && g[|g| - 1] == ',' && forall part :: part in Split(g[..|g| - 1], ',') ==> SignedDigits(part)
  }

  /** `from_id[5:]` */
  function NodePart(fromId: string): string {
    if |fromId| >= 5 then fromId[5..] else ""
  }

  /** `re.match(r'^(\-?[0-9]+,)+' + node_part + '$', msg)`, where `$` also matches
      before a final newline. */
  predicate Telemetry(msg: string, nodePart: string) {
    (|nodePart| <= |msg| && EndsWith(msg, nodePart) && TelemetryGroups(msg[..|msg| - |nodePart|]))
    || (|nodePart| + 1 <= |msg| && EndsWith(msg, nodePart + "\n") && TelemetryGroups(msg[..|msg| - |nodePart| - 1]))
  }

  /** The three silent drops of a broadcast: range test, telemetry, the bot's own text. */
  predicate Dropped(env: Env, fromId: string, msg: string, longName: Option<string>) {
    RangeTest(msg) || Telemetry(msg, NodePart(fromId))
    || StartsWith(msg, env.selfName) || longName == Some(env.selfName)
  }

  /** The addressee of an "APRS-" text as written: `lstrip('APRS-')` removes any
      leading run of the characters A, P, R, S and -, then `rstrip(':')`. */
  function AddresseeAsWritten(msg: string): string {
    RStrip(LStrip(FirstToken(msg, ' '), {'A', 'P', 'R', 'S', '-'}), {':'})
  }

  /** `s` without the prefix `p`, when it has it. */
  function RemovePrefix(s: string, p: string): (r: string)
    ensures StartsWith(s, p) ==> p + r == s
    ensures !StartsWith(s, p) ==> r == s
  {
    if StartsWith(s, p) then
      assert s == s[..|p|] + s[|p|..];
      s[|p|..]
    else s
  }

  /** The addressee with the "APRS-" prefix removed as a prefix. */
  function Addressee(msg: string): string {
    RStrip(RemovePrefix(FirstToken(msg, ' '), "APRS-"), {':'})
  }

  /** `msg.replace(first_token, '').strip()` */
  function AprsBody(msg: string): string {
    var token := FirstToken(msg, ' ');
    if |token| == 0 then Strip(msg) else Strip(ReplaceAll(msg, token, ""))
  }

  lemma {:induction false} FirstTokenOf(s: string, t: string)
    requires ' ' !in s
    ensures FirstToken(s + " " + t, ' ') == s
    decreases |s|
  {
    if |s| > 0 {
      assert (s + " " + t)[1..] == s[1..] + " " + t;
      FirstTokenOf(s[1..], t);
    }
  }

  lemma {:induction false} RStripColon(call: string)
    requires |call| > 0 && call[|call| - 1] != ':'
    ensures RStrip(call + ":", {':'}) == call
  {
    assert (call + ":")[..|call + ":"| - 1] == call;
  }

  /** The first word of "APRS-<call>: <text>" is "APRS-<call>:". */
  lemma AprsFirstToken(call: string, text: string)
    requires ' ' !in call
    ensures FirstToken("APRS-" + call + ": " + text, ' ') == "APRS-" + call + ":"
  {
    var token := "APRS-" + call + ":";
    assert ' ' !in token by {
      assert forall i :: 0 <= i < |token| ==>
        token[i] == (if i < 5 then "APRS-"[i] else if i < 5 + |call| then call[i - 5] else ':');
    }
    assert "APRS-" + call + ": " + text == token + " " + text;
    FirstTokenOf(token, text);
  }

  /** "APRS-<call>: <text>" is addressed to `<call>`, whatever letters it starts with. */
  lemma AddresseeRoundTrip(call: string, text: string)
    requires |call| > 0 && ' ' !in call && call[|call| - 1] != ':'
    ensures Addressee("APRS-" + call + ": " + text) == call
  {
    AprsFirstToken(call, text);
    var token := "APRS-" + call + ":";
    assert token[..5] == "APRS-";
    assert RemovePrefix(token, "APRS-") == call + ":";
    RStripColon(call);
  }

  lemma StripToken(lost: string, rest: string)
    requires forall i :: 0 <= i < |lost| ==> lost[i] in {'A', 'P', 'R', 'S', '-'}
    requires |rest| > 0 && rest[0] !in {'A', 'P', 'R', 'S', '-'}
    ensures LStrip(("APRS-" + lost) + (rest + ":"), {'A', 'P', 'R', 'S', '-'}) == rest + ":"
  {
    AprsRun(lost);
    assert (rest + ":")[0] == rest[0];
    StripRun("APRS-" + lost, rest + ":", {'A', 'P', 'R', 'S', '-'});
  }

  lemma AprsRun(lost: string)
    requires forall i :: 0 <= i < |lost| ==> lost[i] in {'A', 'P', 'R', 'S', '-'}
    ensures forall i :: 0 <= i < |"APRS-" + lost| ==> ("APRS-" + lost)[i] in {'A', 'P', 'R', 'S', '-'}
  {
    var p := "APRS-" + lost;
    forall i | 0 <= i < |p| ensures p[i] in {'A', 'P', 'R', 'S', '-'} {
      if i >= 5 {
        assert p[i] == lost[i - 5];
      }
    }
  }

  /** As written, a leading run of the letters A, P, R, S and "-" after "APRS-" is
      stripped from the call sign as well. */
  lemma StrippedCall(lost: string, rest: string, text: string)
    requires forall i :: 0 <= i < |lost| ==> lost[i] in {'A', 'P', 'R', 'S', '-'}
    requires |rest| > 0 && rest[0] !in {'A', 'P', 'R', 'S', '-'} && rest[|rest| - 1] != ':'
    requires ' ' !in lost + rest
    ensures AddresseeAsWritten("APRS-" + (lost + rest) + ": " + text) == rest
  {
    AprsFirstToken(lost + rest, text);
    StripToken(lost, rest);
    Regroup("APRS-", lost, rest, ":");
    RStripColon(rest);
  }

  /** A call sign that does not start with A, P, R, S or "-" is read the same way by
      both: the relay addresses the station the text names. */
  lemma AddresseeAgrees(call: string, text: string)
    requires |call| > 0 && ' ' !in call && call[|call| - 1] != ':'
    requires call[0] !in {'A', 'P', 'R', 'S', '-'}
    ensures AddresseeAsWritten("APRS-" + call + ": " + text) == Addressee("APRS-" + call + ": " + text) == call
  {
    StrippedCall([], call, text);
    assert [] + call == call;
    AddresseeRoundTrip(call, text);
  }

  lemma Regroup(p: string, a: string, b: string, q: string)
    ensures p + (a + b) + q == (p + a) + (b + q)
  {
  }

  /** A call sign that starts with letters among A, P, R, S (such as "SP5AB" or
      "PA3XYZ") loses them as written, while the corrected addressee keeps it whole. */
  lemma AddresseeLStrip(lost: string, rest: string, text: string)
    requires |lost| > 0 && forall i :: 0 <= i < |lost| ==> lost[i] in {'A', 'P', 'R', 'S', '-'}
    requires |rest| > 0 && rest[0] !in {'A', 'P', 'R', 'S', '-'} && rest[|rest| - 1] != ':'
    requires ' ' !in lost + rest
    ensures AddresseeAsWritten("APRS-" + (lost + rest) + ": " + text) == rest
    ensures Addressee("APRS-" + (lost + rest) + ": " + text) == lost + rest
    ensures AddresseeAsWritten("APRS-" + (lost + rest) + ": " + text) != Addressee("APRS-" + (lost + rest) + ": " + text)
  {
    StrippedCall(lost, rest, text);
    AddresseeRoundTrip(lost + rest, text);
    assert |rest| < |lost + rest|;
  }

  // ---------------------------------------------------------------- on_receive

  /** The sender's long name as `on_receive` finds it: from the interface's table
      when the node is there (where a missing "user" raises), else from the database
      record, else the id itself. */
  function SenderName(env: Env, conn: Option<seq<NodeEntry>>, fromId: string, db: Db)
    : (r: (Result<Option<string>>, Db))
    ensures GetNode(env.table, fromId).Some? ==> r.1 == db
    ensures GetNode(env.table, fromId).Some? && GetNode(env.table, fromId).value.user.Some? ==>
      r.0 == Ok(GetNode(env.table, fromId).value.user.value.longName)
    ensures GetNode(env.table, fromId).Some? && GetNode(env.table, fromId).value.user.None? ==>
      r.0 == Err(AttributeError("'NoneType' object has no attribute 'get'"))
    ensures GetNode(env.table, fromId).None? ==> r.0.Ok? && r.0.value.Some?
    ensures GetNode(env.table, fromId).None? ==> r.1 == db.(nodes := NodeRecordStep(db.nodes, conn, fromId).1)
    ensures GetNode(env.table, fromId).None? && conn.Some? && FindNode(db.nodes, fromId).Some? ==>
      var i := FindNode(db.nodes, fromId).value;
      r.0 == Ok(Some(Refreshed(db.nodes[i], NodeOrEmpty(conn.value, fromId)).nodeName))
    ensures GetNode(env.table, fromId).None? && (conn.None? || FindNode(db.nodes, fromId).None?) ==>
      r.0 == Ok(Some(fromId))
  {
    match GetNode(env.table, fromId)
    case Some(info) =>
      if info.user.None? then (Err(AttributeError("'NoneType' object has no attribute 'get'")), db)
      else (Ok(info.user.value.longName), db)
    case None =>
      var (lookup, db') := RecordLookup(db, conn, fromId);
      (Ok(Some(if lookup.found && lookup.record.Some? then lookup.record.value.nodeName else fromId)), db')
  }

  /** The end of `on_receive` for a text that survived the filters: the memcache
      check, the APRS relay and the Telegram message. */
  function Forwarded(aprs: bool, env: Env, msg: string, name: string,
                     db: Db, cache: map<string, Entry<bool>>, pings: map<string, int>): (o: Outcome)
    ensures name + ":" + msg in cache ==> o == Outcome([], None, db, cache, pings)
    ensures name + ":" + msg !in cache ==> o.cache == cache[name + ":" + msg := MakeEntry(true, 300.0, env.now as real)]
    ensures (o.exc.None? && |o.effects| > 0 && o.effects[|o.effects| - 1].RoomMessage?) <==>
      (name + ":" + msg !in cache && (StartsWith(msg, "APRS-") ==> aprs))
    ensures o.exc.None? && name + ":" + msg !in cache ==>
      |o.effects| > 0 && o.effects[|o.effects| - 1] == RoomMessage(name + ": " + msg)
    ensures name + ":" + msg !in cache && StartsWith(msg, "APRS-") && aprs ==>
      o.exc.None? && o.effects[0] == AprsText(AddresseeAsWritten(msg), name + ": " + AprsBody(msg)) && |o.effects| == 2
    ensures name + ":" + msg !in cache && !StartsWith(msg, "APRS-") ==>
      o.exc.None? && o.effects == [RoomMessage(name + ": " + msg)]
    ensures name + ":" + msg !in cache && StartsWith(msg, "APRS-") && !aprs ==>
      o.effects == [] && o.exc == Some(AttributeError("'NoneType' object has no attribute 'send_text'"))
  {
    var key := name + ":" + msg;
    if key in cache then Outcome([], None, db, cache, pings)
    else
      var cache' := cache[key := MakeEntry(true, 300.0, env.now as real)];
      if StartsWith(msg, "APRS-") && !aprs then
        Outcome([], Some(AttributeError("'NoneType' object has no attribute 'send_text'")), db, cache', pings)
      else
        var relay := if StartsWith(msg, "APRS-") then [AprsText(AddresseeAsWritten(msg), name + ": " + AprsBody(msg))] else [];
        Outcome(relay + [RoomMessage(name + ": " + msg)], None, db, cache', pings)
  }

  /** A broadcast text after `store_message`. */
  function Broadcasted(cfg: BotConfig, aprs: bool, env: Env, conn: Option<seq<NodeEntry>>, fromId: string,
                       msg: string, db: Db, cache: map<string, Entry<bool>>, pings: map<string, int>): Outcome
  {
    var (name, db') := SenderName(env, conn, fromId, db);
    if name.Err? then Outcome([], Some(name.exc), db', cache, pings)
    else if StartsWith(msg, "/") then CommandOutcome(cfg, env, conn, fromId, msg, db', cache, pings)
    else if Dropped(env, fromId, msg, name.value) then Outcome([], None, db', cache, pings)
    else if name.value.None? then Outcome([], Some(AttributeError("'NoneType' object has no attribute 'strip'")), db', cache, pings)
    else Forwarded(aprs, env, msg, Strip(name.value.value), db', cache, pings)
  }

  /** `on_receive` after the sender checks and the notice: hop limit, port and
      destination routing. */
  function Routed(cfg: BotConfig, aprs: bool, env: Env, conn: Option<seq<NodeEntry>>, p: Packet, fromId: string,
                  db: Db, cache: map<string, Entry<bool>>, pings: map<string, int>): Outcome
  {
    if p.hopLimit.GetOr(0) > cfg.maxHopCount then Outcome([], None, db, cache, pings)
    else if p.decoded.None? then Outcome([], Some(AttributeError("'NoneType' object has no attribute 'get'")), db, cache, pings)
    else
      var d := p.decoded.value;
      if d.portnum != Some(TextPort) then
        if d.portnum == Some(PositionPort) then
          var log := if cfg.nodeLogEnabled then [NodeLog(p)] else [];
          var relay := if aprs then [AprsLocation(p)] else [];
          Outcome(log + relay, None, StoredLocation(db, conn, p, env.now), cache, pings)
        else if d.portnum == Some(ReplyPort) then Outcome([Pong(p)], None, db, cache, pings)
        else Outcome([], None, db, cache, pings)
      else
        var msg := d.text.GetOr("");
        if p.toId != Some(Broadcast) then
          if StartsWith(msg, "/") then CommandOutcome(cfg, env, conn, fromId, msg, db, cache, pings)
          else
            var text := env.reply(fromId, msg);
            Outcome(if |text| > 0 then [MeshText(text, fromId)] else [], None, db, cache, pings)
        else Broadcasted(cfg, aprs, env, conn, fromId, msg, StoredMessage(db, conn, p, env.now), cache, pings)
  }

  /** `on_receive(packet, interface)` */
  function Receive(cfg: BotConfig, aprs: bool, env: Env, filters: seq<FilterRecord>, conn: Option<seq<NodeEntry>>,
                   packet: Packet, db: Db, cache: map<string, Entry<bool>>, pings: map<string, int>): Outcome
  {
    match SenderId(packet)
    case Err(e) => Outcome([], Some(e), db, cache, pings)
    case Ok(fromId) =>
      if Filter.Banned(filters, Filter.Meshtastic, fromId) then Outcome([], None, db, cache, pings)
      else
        var (notice, exc, db1) := if cfg.notificationsEnabled then NewNodeNotice(cfg, env, conn, fromId, db) else ([], None, db);
        if exc.Some? then Outcome(notice, exc, db1, cache, pings)
        else
          var o := Routed(cfg, aprs, env, conn, packet.(fromId := Some(fromId)), fromId, db1, cache, pings);
          o.(effects := notice + o.effects)
  }

  // ---------------------------------------------------------------- properties of on_receive

  /** A banned sender changes nothing and gets nothing. */
  lemma BannedIgnored(cfg: BotConfig, aprs: bool, env: Env, filters: seq<FilterRecord>, conn: Option<seq<NodeEntry>>,
                      packet: Packet, db: Db, cache: map<string, Entry<bool>>, pings: map<string, int>)
    requires SenderId(packet).Ok? && Filter.Banned(filters, Filter.Meshtastic, SenderId(packet).value)
    ensures Receive(cfg, aprs, env, filters, conn, packet, db, cache, pings) == Outcome([], None, db, cache, pings)
  {
  }

  /** A packet over the hop limit is neither answered nor forwarded: the only effects
      are those of the new-node notice, and the memcache and ping table are untouched. */
  lemma HopLimitIgnored(cfg: BotConfig, aprs: bool, env: Env, filters: seq<FilterRecord>, conn: Option<seq<NodeEntry>>,
                        packet: Packet, db: Db, cache: map<string, Entry<bool>>, pings: map<string, int>)
    requires packet.hopLimit.GetOr(0) > cfg.maxHopCount
    ensures var o := Receive(cfg, aprs, env, filters, conn, packet, db, cache, pings);
      o.cache == cache && o.pings == pings
      && forall e :: e in o.effects ==> e.Notification? || e.MeshText?
  {
    if SenderId(packet).Ok? {
      var fromId := SenderId(packet).value;
      var p := packet.(fromId := Some(fromId));
      assert Routed(cfg, aprs, env, conn, p, fromId, db, cache, pings) == Outcome([], None, db, cache, pings);
      if cfg.notificationsEnabled {
        var (notice, exc, db1) := NewNodeNotice(cfg, env, conn, fromId, db);
        assert Routed(cfg, aprs, env, conn, p, fromId, db1, cache, pings) == Outcome([], None, db1, cache, pings);
        assert notice + [] == notice;
      }
    }
  }

  /** Packets on other ports than text never reach Telegram, the memcache or a
      command; a position is logged, stored and passed to APRS, a reply is a pong. */
  lemma NonTextPorts(cfg: BotConfig, aprs: bool, env: Env, conn: Option<seq<NodeEntry>>, p: Packet, fromId: string,
                     db: Db, cache: map<string, Entry<bool>>, pings: map<string, int>)
    requires p.hopLimit.GetOr(0) <= cfg.maxHopCount && p.decoded.Some? && p.decoded.value.portnum != Some(TextPort)
    ensures var o := Routed(cfg, aprs, env, conn, p, fromId, db, cache, pings);
      o.cache == cache && o.pings == pings && o.exc.None?
      && (p.decoded.value.portnum == Some(PositionPort) ==>
            (NodeLog(p) in o.effects <==> cfg.nodeLogEnabled) && (AprsLocation(p) in o.effects <==> aprs)
            && (HasFromId(p) ==> |o.db.locations| == |db.locations| + 1
                                 && o.db.locations[|db.locations|].datetime == env.now))
      && (p.decoded.value.portnum == Some(ReplyPort) ==> o.effects == [Pong(p)] && o.db == db)
      && (p.decoded.value.portnum != Some(PositionPort) && p.decoded.value.portnum != Some(ReplyPort) ==>
            o.effects == [] && o.db == db)
  {
  }

  /** A command's last effect is never a Telegram message. */
  lemma CommandNeverForwards(cfg: BotConfig, env: Env, conn: Option<seq<NodeEntry>>, fromId: string, msg: string,
                             db: Db, cache: map<string, Entry<bool>>, pings: map<string, int>)
    ensures var c := CommandOutcome(cfg, env, conn, fromId, msg, db, cache, pings);
      |c.effects| == 0 || !c.effects[|c.effects| - 1].RoomMessage?
  {
    var c := CommandOutcome(cfg, env, conn, fromId, msg, db, cache, pings);
    if |c.effects| > 0 {
      assert CommandEffect(c.effects[|c.effects| - 1], fromId);
    }
  }

  /** A broadcast text from a node in the interface's table reaches the Telegram room
      exactly when it is no command, is not dropped, has a long name, and its
      "name:text" key is not cached (and APRS is set up when it is an APRS text). */
  lemma BroadcastForwarded(cfg: BotConfig, aprs: bool, env: Env, conn: Option<seq<NodeEntry>>, fromId: string,
                           msg: string, db: Db, cache: map<string, Entry<bool>>, pings: map<string, int>)
    requires GetNode(env.table, fromId).Some? && GetNode(env.table, fromId).value.user.Some?
    ensures var longName := GetNode(env.table, fromId).value.user.value.longName;
      var o := Broadcasted(cfg, aprs, env, conn, fromId, msg, db, cache, pings);
      (o.exc.None? && |o.effects| > 0 && o.effects[|o.effects| - 1].RoomMessage?) <==>
        (!StartsWith(msg, "/") && !Dropped(env, fromId, msg, longName) && longName.Some?
         && Strip(longName.value) + ":" + msg !in cache && (StartsWith(msg, "APRS-") ==> aprs))
  {
    var longName := GetNode(env.table, fromId).value.user.value.longName;
    var o := Broadcasted(cfg, aprs, env, conn, fromId, msg, db, cache, pings);
    assert SenderName(env, conn, fromId, db) == (Ok(longName), db);
    if StartsWith(msg, "/") {
      CommandNeverForwards(cfg, env, conn, fromId, msg, db, cache, pings);
      assert o == CommandOutcome(cfg, env, conn, fromId, msg, db, cache, pings);
    } else if Dropped(env, fromId, msg, longName) {
      assert o == Outcome([], None, db, cache, pings);
    } else if longName.None? {
      assert o.exc.Some?;
    } else {
      assert o == Forwarded(aprs, env, msg, Strip(longName.value), db, cache, pings);
    }
  }

  /** What reaches the room is "<long name stripped>: <text>". */
  lemma BroadcastForwardedText(cfg: BotConfig, aprs: bool, env: Env, conn: Option<seq<NodeEntry>>, fromId: string,
                               msg: string, db: Db, cache: map<string, Entry<bool>>, pings: map<string, int>)
    requires GetNode(env.table, fromId).Some? && GetNode(env.table, fromId).value.user.Some?
    ensures var longName := GetNode(env.table, fromId).value.user.value.longName;
      var o := Broadcasted(cfg, aprs, env, conn, fromId, msg, db, cache, pings);
      o.exc.None? && |o.effects| > 0 && o.effects[|o.effects| - 1].RoomMessage? ==>
        longName.Some? && o.effects[|o.effects| - 1] == RoomMessage(Strip(longName.value) + ": " + msg)
  {
    var longName := GetNode(env.table, fromId).value.user.value.longName;
    BroadcastForwarded(cfg, aprs, env, conn, fromId, msg, db, cache, pings);
    if !StartsWith(msg, "/") && !Dropped(env, fromId, msg, longName) && longName.Some? {
      assert Broadcasted(cfg, aprs, env, conn, fromId, msg, db, cache, pings)
        == Forwarded(aprs, env, msg, Strip(longName.value), db, cache, pings);
    }
  }

  /** The same broadcast text from the same node, handled again while its key is
      cached, sends nothing. */
  lemma RepeatDropped(cfg: BotConfig, aprs: bool, env: Env, conn: Option<seq<NodeEntry>>, fromId: string,
                      msg: string, db: Db, cache: map<string, Entry<bool>>, pings: map<string, int>)
    requires GetNode(env.table, fromId).Some? && GetNode(env.table, fromId).value.user.Some?
    requires !StartsWith(msg, "/")
    ensures var o := Broadcasted(cfg, aprs, env, conn, fromId, msg, db, cache, pings);
      Broadcasted(cfg, aprs, env, conn, fromId, msg, o.db, o.cache, o.pings).effects == []
  {
    var longName := GetNode(env.table, fromId).value.user.value.longName;
    var o := Broadcasted(cfg, aprs, env, conn, fromId, msg, db, cache, pings);
    if !Dropped(env, fromId, msg, longName) && longName.Some? {
      KnownSenderForwarded(cfg, aprs, env, conn, fromId, msg, db, cache, pings);
      KnownSenderForwarded(cfg, aprs, env, conn, fromId, msg, o.db, o.cache, o.pings);
      ForwardedTwice(aprs, env, msg, Strip(longName.value), db, cache, pings);
    } else {
      KnownSenderSilent(cfg, aprs, env, conn, fromId, msg, o.db, o.cache, o.pings);
    }
  }

  /** A sender in the interface's table whose text is dropped, or who has no long
      name, gets nothing forwarded. */
  lemma KnownSenderSilent(cfg: BotConfig, aprs: bool, env: Env, conn: Option<seq<NodeEntry>>, fromId: string,
                          msg: string, db: Db, cache: map<string, Entry<bool>>, pings: map<string, int>)
    requires GetNode(env.table, fromId).Some? && GetNode(env.table, fromId).value.user.Some?
    requires !StartsWith(msg, "/")
    requires Dropped(env, fromId, msg, GetNode(env.table, fromId).value.user.value.longName)
      || GetNode(env.table, fromId).value.user.value.longName.None?
    ensures Broadcasted(cfg, aprs, env, conn, fromId, msg, db, cache, pings).effects == []
  {
  }

  /** Any other text of such a sender is forwarded under the stripped long name. */
  lemma KnownSenderForwarded(cfg: BotConfig, aprs: bool, env: Env, conn: Option<seq<NodeEntry>>, fromId: string,
                             msg: string, db: Db, cache: map<string, Entry<bool>>, pings: map<string, int>)
    requires GetNode(env.table, fromId).Some? && GetNode(env.table, fromId).value.user.Some?
    requires !StartsWith(msg, "/")
    requires !Dropped(env, fromId, msg, GetNode(env.table, fromId).value.user.value.longName)
    requires GetNode(env.table, fromId).value.user.value.longName.Some?
    ensures Broadcasted(cfg, aprs, env, conn, fromId, msg, db, cache, pings)
      == Forwarded(aprs, env, msg, Strip(GetNode(env.table, fromId).value.user.value.longName.value), db, cache, pings)
  {
  }

  /** A text forwarded once is not forwarded again while its cache entry lives. */
  lemma ForwardedTwice(aprs: bool, env: Env, msg: string, name: string,
                       db: Db, cache: map<string, Entry<bool>>, pings: map<string, int>)
    ensures var o := Forwarded(aprs, env, msg, name, db, cache, pings);
      Forwarded(aprs, env, msg, name, o.db, o.cache, o.pings).effects == []
  {
    var o := Forwarded(aprs, env, msg, name, db, cache, pings);
    assert name + ":" + msg in o.cache;
  }

  // ---------------------------------------------------------------- the bot object

  class MeshtasticBot {
    const database: MeshtasticDB
    const memcache: Memcache<string, bool>
    const config: BotConfig
    /** `self.aprs is not None` */
    var aprs: bool
    /** `ping_container`: when each node last asked for /ping. */
    var pings: map<string, int>

    constructor (database: MeshtasticDB, config: BotConfig)
      ensures this.database == database && this.config == config
      ensures fresh(memcache) && memcache.cache == map[]
      ensures !aprs && pings == map[]
    {
      this.database := database;
      this.config := config;
      memcache := new Memcache<string, bool>();
      aprs := false;
      pings := map[];
    }

    /** `set_aprs(aprs)` */
    method SetAprs()
      modifies this
      ensures aprs && pings == old(pings)
    {
      aprs := true;
    }

    /** `process_distance_command(packet, interface)`: the loop over the node table. */
    method ProcessDistance(fromId: string, env: Env) returns (effects: seq<Effect>)
      ensures effects == DistanceReplies(env.table, fromId, env.distance)
    {
      var mine := GetNode(env.table, fromId);
      if mine.None? || mine.value == NoInfo {
        return [MeshText("distance err: no node info", fromId)];
      }
      if !mine.value.HasPosition() {
        return [MeshText("distance err: no position", fromId)];
      }
      var position := mine.value.position.value;
      if !position.HasCoordinates() {
        return [MeshText("distance err: no lat/lon", fromId)];
      }
      var me := LatLng(position.latitude.value, position.longitude.value);
      var found: seq<Neighbour> := [];
      for i := 0 to |env.table|
        invariant found == Neighbours(env.table[..i], fromId, me, env.distance)
      {
        assert env.table[..i + 1][..i] == env.table[..i] && env.table[..i + 1][i] == env.table[i];
        var info := env.table[i].info;
        if !info.HasPosition() || !info.position.value.HasCoordinates() {
          continue;
        }
        if !info.HasUser() {
          continue;
        }
        var user := info.user.value;
        if user.id.GetOr("") == fromId {
          continue;
        }
        var there := LatLng(info.position.value.latitude.value, info.position.value.longitude.value);
        found := found + [Neighbour(user.longName.GetOr(""), env.distance(me, there))];
      }
      assert env.table[..|env.table|] == env.table;
      var nearest := Nearest(found);
      effects := [];
      for k := 0 to |nearest|
        invariant effects == Lines(nearest[..k], fromId)
      {
        effects := effects + [MeshText(DistanceLine(nearest[k]), fromId)];
      }
      assert nearest[..|nearest|] == nearest;
    }

    /** `process_meshtastic_command(packet, interface)` with its handlers. */
    method ProcessCommand(fromId: string, msg: string, env: Env) returns (effects: seq<Effect>, exc: Option<Exc>)
      requires database.Valid()
      modifies database, this
      ensures database.Valid()
      ensures database.connection == old(database.connection) && database.filters == old(database.filters)
      ensures aprs == old(aprs)
      ensures Outcome(effects, exc, DbOf(database), memcache.cache, pings)
        == CommandOutcome(config, env, old(database.connection), fromId, msg, old(DbOf(database)),
                          old(memcache.cache), old(pings))
    {
      if StartsWith(msg, "/w") {
        var lookup := database.GetNodeRecord(fromId);
        if !lookup.found {
          return [MeshText("no information about your node available yet", fromId)], None;
        }
        var at := RichConnection.StoreLastPosition(database, Some(fromId), Candidates(env), env.now);
        if |config.weatherKey| == 0 {
          return [MeshText("weather command disabled by configuration", fromId)], None;
        }
        return [MeshText(env.weather(at, config.weatherKey).GetOr("could not get weather, see bot logs"), fromId)], None;
      }
      if StartsWith(msg, "/distance") {
        effects := ProcessDistance(fromId, env);
        return effects, None;
      }
      if StartsWith(msg, "/ping") {
        pings := pings[fromId := env.now];
        return [PingBroadcast], None;
      }
      if StartsWith(msg, "/stats") {
        var stats := Stats(database.nodes, database.locations, database.messages, fromId);
        if stats.Err? {
          return [], Some(stats.exc);
        }
        return [MeshText(stats.value, fromId)], None;
      }
      if StartsWith(msg, "/reboot") && fromId == config.admin {
        return [Reboot], None;
      }
      if StartsWith(msg, "/reset_db") && fromId == config.admin {
        return [ResetDb], None;
      }
      return [MeshText("unknown command", fromId)], None;
    }

    /** `notify_on_new_node(packet, interface)` */
    method NotifyOnNewNode(fromId: string, env: Env) returns (effects: seq<Effect>, exc: Option<Exc>)
      requires database.Valid()
      modifies database
      ensures database.Valid()
      ensures database.connection == old(database.connection) && database.filters == old(database.filters)
      ensures (effects, exc, DbOf(database))
        == NewNodeNotice(config, env, old(database.connection), fromId, old(DbOf(database)))
    {
      var lookup := database.GetNodeRecord(fromId);
      if lookup.found {
        return [], None;
      }
      var info := GetNode(env.table, fromId);
      if info.None? || info.value == NoInfo {
        return [], None;
      }
      if info.value.user.None? {
        return [], Some(AttributeError("'NoneType' object has no attribute 'get'"));
      }
      var name := NoticeName(config, fromId, info.value.user.value.longName);
      if name.Err? {
        return [], Some(name.exc);
      }
      effects := [];
      if config.welcomeEnabled {
        effects := [MeshText(config.welcomeMessage, fromId)];
      }
      effects := effects + [Notification("New node: " + fromId + " -> " + name.value)];
      exc := None;
    }

    /** The sender's long name, looked up in the interface's table or the database. */
    method LookupSenderName(fromId: string, env: Env) returns (name: Result<Option<string>>)
      requires database.Valid()
      modifies database
      ensures database.Valid()
      ensures database.connection == old(database.connection) && database.filters == old(database.filters)
      ensures (name, DbOf(database)) == SenderName(env, old(database.connection), fromId, old(DbOf(database)))
    {
      var known := GetNode(env.table, fromId);
      if known.Some? {
        if known.value.user.None? {
          return Err(AttributeError("'NoneType' object has no attribute 'get'"));
        }
        return Ok(known.value.user.value.longName);
      }
      var lookup := database.GetNodeRecord(fromId);
      if lookup.found && lookup.record.Some? {
        return Ok(Some(lookup.record.value.nodeName));
      }
      return Ok(Some(fromId));
    }

    /** The memcache check, the APRS relay and the Telegram message. */
    method Forward(msg: string, name: string, env: Env) returns (effects: seq<Effect>, exc: Option<Exc>)
      modifies memcache
      ensures Outcome(effects, exc, DbOf(database), memcache.cache, pings)
        == Forwarded(aprs, env, msg, name, DbOf(database), old(memcache.cache), pings)
    {
      var key := name + ":" + msg;
      var hit := memcache.GetEx(key);
      if hit.Some? {
        return [], None;
      }
      memcache.Set(key, true, 300.0, env.now as real);
      effects := [];
      if StartsWith(msg, "APRS-") {
        if !aprs {
          return [], Some(AttributeError("'NoneType' object has no attribute 'send_text'"));
        }
        effects := [AprsText(AddresseeAsWritten(msg), name + ": " + AprsBody(msg))];
      }
      effects := effects + [RoomMessage(name + ": " + msg)];
      exc := None;
    }

    /** The broadcast branch of `on_receive`, from `store_message` on. */
    method OnBroadcast(p: Packet, fromId: string, msg: string, env: Env) returns (effects: seq<Effect>, exc: Option<Exc>)
      requires database.Valid()
      modifies database, memcache, this
      ensures database.Valid()
      ensures database.connection == old(database.connection) && database.filters == old(database.filters)
      ensures aprs == old(aprs)
      ensures Outcome(effects, exc, DbOf(database), memcache.cache, pings)
        == Broadcasted(config, old(aprs), env, old(database.connection), fromId, msg,
                       StoredMessage(old(DbOf(database)), old(database.connection), p, env.now),
                       old(memcache.cache), old(pings))
    {
      database.StoreMessage(p, env.now);
      var longName := LookupSenderName(fromId, env);
      if longName.Err? {
        return [], Some(longName.exc);
      }
      if StartsWith(msg, "/") {
        effects, exc := ProcessCommand(fromId, msg, env);
        return;
      }
      if RangeTest(msg) || Telemetry(msg, NodePart(fromId)) {
        return [], None;
      }
      if StartsWith(msg, env.selfName) || longName.value == Some(env.selfName) {
        return [], None;
      }
      if longName.value.None? {
        return [], Some(AttributeError("'NoneType' object has no attribute 'strip'"));
      }
      effects, exc := Forward(msg, Strip(longName.value.value), env);
    }

    /** `on_receive` from the hop-limit check on. */
    method Route(p: Packet, fromId: string, env: Env) returns (effects: seq<Effect>, exc: Option<Exc>)
      requires database.Valid()
      modifies database, memcache, this
      ensures database.Valid()
      ensures database.connection == old(database.connection) && database.filters == old(database.filters)
      ensures aprs == old(aprs)
      ensures Outcome(effects, exc, DbOf(database), memcache.cache, pings)
        == Routed(config, old(aprs), env, old(database.connection), p, fromId, old(DbOf(database)),
                  old(memcache.cache), old(pings))
    {
      if p.hopLimit.GetOr(0) > config.maxHopCount {
        return [], None;
      }
      if p.decoded.None? {
        return [], Some(AttributeError("'NoneType' object has no attribute 'get'"));
      }
      var d := p.decoded.value;
      if d.portnum != Some(TextPort) {
        effects := [];
        if d.portnum == Some(PositionPort) {
          if config.nodeLogEnabled {
            effects := [NodeLog(p)];
          }
          database.StoreLocation(p, env.now);
          if aprs {
            effects := effects + [AprsLocation(p)];
          }
        } else if d.portnum == Some(ReplyPort) {
          effects := [Pong(p)];
        }
        return effects, None;
      }
      var msg := d.text.GetOr("");
      if p.toId != Some(Broadcast) {
        if StartsWith(msg, "/") {
          effects, exc := ProcessCommand(fromId, msg, env);
          return;
        }
        var text := env.reply(fromId, msg);
        effects := [];
        if |text| > 0 {
          effects := [MeshText(text, fromId)];
        }
        return effects, None;
      }
      effects, exc := OnBroadcast(p, fromId, msg, env);
    }

    /** `on_receive(packet, interface)`: `packet` is the packet before its "fromId" is filled in. */
    method OnReceive(packet: Packet, env: Env) returns (effects: seq<Effect>, exc: Option<Exc>)
      requires database.Valid()
      modifies database, memcache, this
      ensures database.Valid()
      ensures database.connection == old(database.connection) && database.filters == old(database.filters)
      ensures aprs == old(aprs)
      ensures Outcome(effects, exc, DbOf(database), memcache.cache, pings)
        == Receive(config, old(aprs), env, old(database.filters), old(database.connection), packet,
                   old(DbOf(database)), old(memcache.cache), old(pings))
    {
      var sender := SenderId(packet);
      if sender.Err? {
        return [], Some(sender.exc);
      }
      var fromId := sender.value;
      var p := packet.(fromId := Some(fromId));
      if Filter.Banned(database.filters, Filter.Meshtastic, fromId) {
        return [], None;
      }
      var notice: seq<Effect> := [];
      if config.notificationsEnabled {
        var failed;
        notice, failed := NotifyOnNewNode(fromId, env);
        if failed.Some? {
          return notice, failed;
        }
      }
      effects, exc := Route(p, fromId, env);
      effects := notice + effects;
    }
  }
}
