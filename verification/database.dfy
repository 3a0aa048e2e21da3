/**
  * The node, location, message and filter tables (mtg/database/sqlite.py).
  *
  * The ORM tables are in-memory sequences in insertion order.  A record that the
  * source selects with `.first()` without ordering is the first one in table
  * order; a record reference (`node=`) is the referenced node's id.  Timestamps are
  * whole seconds; "now" is a parameter.
  */
module Database {
  import opened Wrappers
  import opened Strs
  import opened Mesh
  import Sorting

  datatype NodeRecord = NodeRecord(nodeId: string, nodeName: string, lastHeard: int, hwModel: string)

  datatype LocationRecord = LocationRecord(
    datetime: int,
    altitude: real,
    batteryLevel: real,
    latitude: real,
    longitude: real,
    rxSnr: real,
    node: Option<string>)

  datatype MessageRecord = MessageRecord(datetime: int, message: string, node: Option<string>)

  datatype FilterRecord = FilterRecord(connection: string, item: string, reason: string, active: bool)

  /** The `(found, record)` pair `get_node_record` returns. */
  datatype NodeLookup = NodeLookup(found: bool, record: Option<NodeRecord>)

  /** A location read back as `{"lat": ..., "lng": ...}`. */
  datatype LatLng = LatLng(lat: real, lng: real)

  // ---------------------------------------------------------------- lookups

  ghost predicate UniqueIds(nodes: seq<NodeRecord>) {
    forall i, j :: 0 <= i < j < |nodes| ==> nodes[i].nodeId != nodes[j].nodeId
  }

  /** The position of the record with this primary key. */
  function FindNode(nodes: seq<NodeRecord>, nodeId: string): (r: Option<nat>)
    ensures r.Some? ==> r.value < |nodes| && nodes[r.value].nodeId == nodeId
    ensures r.Some? ==> forall i :: 0 <= i < r.value ==> nodes[i].nodeId != nodeId
    ensures r.None? ==> forall i :: 0 <= i < |nodes| ==> nodes[i].nodeId != nodeId
    decreases |nodes|
  {
    if |nodes| == 0 then None
    else if nodes[0].nodeId == nodeId then Some(0)
    else match FindNode(nodes[1..], nodeId)
      case Some(i) => Some(i + 1)
      case None => None
  }

  /** The first record with this node name. */
  function FindNodeByName(nodes: seq<NodeRecord>, name: string): (r: Option<nat>)
    ensures r.Some? ==> r.value < |nodes| && nodes[r.value].nodeName == name
    ensures r.Some? ==> forall i :: 0 <= i < r.value ==> nodes[i].nodeName != name
    ensures r.None? ==> forall i :: 0 <= i < |nodes| ==> nodes[i].nodeName != name
    decreases |nodes|
  {
    if |nodes| == 0 then None
    else if nodes[0].nodeName == name then Some(0)
    else match FindNodeByName(nodes[1..], name)
      case Some(i) => Some(i + 1)
      case None => None
  }

  /** `get_filter(connection, identifier)`: the first matching filter record. */
  function GetFilter(filters: seq<FilterRecord>, connection: string, item: string): (r: Option<FilterRecord>)
    ensures r.Some? ==> r.value in filters && r.value.connection == connection && r.value.item == item
    ensures r.None? ==> forall f :: f in filters ==> !(f.connection == connection && f.item == item)
    decreases |filters|
  {
    if |filters| == 0 then None
    else if filters[0].connection == connection && filters[0].item == item then Some(filters[0])
    else GetFilter(filters[1..], connection, item)
  }

  // ---------------------------------------------------------------- get_node_record

  /** The name, last-heard time and hardware model `get_node_record` reads from the radio. */
  function HeardName(info: NodeInfo): string {
    if info.user.Some? then info.user.value.longName.GetOr("") else ""
  }

  function HeardModel(info: NodeInfo): string {
    if info.user.Some? then info.user.value.hwModel.GetOr("") else ""
  }

  /** The updated record of a known node: newest name, else the stored one, else the id. */
  function Refreshed(rec: NodeRecord, info: NodeInfo): (r: NodeRecord)
    ensures r.nodeId == rec.nodeId && r.hwModel == rec.hwModel
    ensures r.lastHeard == info.lastHeard.GetOr(0)
    ensures HeardName(info) != "" ==> r.nodeName == HeardName(info)
    ensures HeardName(info) == "" && rec.nodeName != "" ==> r.nodeName == rec.nodeName
    ensures HeardName(info) == "" && rec.nodeName == "" ==> r.nodeName == rec.nodeId
  {
    var name := if HeardName(info) != "" then HeardName(info) else rec.nodeName;
    rec.(nodeName := if name != "" then name else rec.nodeId, lastHeard := info.lastHeard.GetOr(0))
  }

  /** `get_node_record(node_id)` on the node table: the answer and the new table. */
  function NodeRecordStep(nodes: seq<NodeRecord>, connection: Option<seq<NodeEntry>>, nodeId: string)
    : (r: (NodeLookup, seq<NodeRecord>))
    ensures connection.None? ==> r == (NodeLookup(false, None), nodes)
    ensures r.0.found <==> connection.Some? && FindNode(nodes, nodeId).Some?
    ensures r.0.record.Some? ==> r.0.record.value.nodeId == nodeId
    ensures r.0.found ==> r.0.record.Some?
    ensures !r.0.found && r.0.record.None? ==> r.1 == nodes
    ensures !r.0.found && r.0.record.Some? ==> r.1 == nodes + [r.0.record.value]
    ensures |r.1| == |nodes| || |r.1| == |nodes| + 1
    ensures connection.Some? && FindNode(nodes, nodeId).None? ==>
      var info := NodeOrEmpty(connection.value, nodeId);
      (r.0.record.Some? <==> HeardName(info) != "" && HeardModel(info) != "")
      && (r.0.record.Some? ==>
            r.0.record.value == NodeRecord(nodeId, HeardName(info), info.lastHeard.GetOr(0), HeardModel(info)))
    ensures r.0.found ==>
      var i := FindNode(nodes, nodeId).value;
      r.0.record == Some(Refreshed(nodes[i], NodeOrEmpty(connection.value, nodeId)))
      && r.1 == nodes[i := r.0.record.value]
    ensures r.0.record.Some? ==> FindNode(r.1, nodeId).Some?
  {
    if connection.None? then (NodeLookup(false, None), nodes)
    else
      var info := NodeOrEmpty(connection.value, nodeId);
      match FindNode(nodes, nodeId)
      case None =>
        if HeardName(info) != "" && HeardModel(info) != "" then
          var rec := NodeRecord(nodeId, HeardName(info), info.lastHeard.GetOr(0), HeardModel(info));
          assert (nodes + [rec])[|nodes|].nodeId == nodeId;
          (NodeLookup(false, Some(rec)), nodes + [rec])
        else (NodeLookup(false, None), nodes)
      case Some(i) =>
        var rec := Refreshed(nodes[i], info);
        assert nodes[i := rec][i].nodeId == nodeId;
        (NodeLookup(true, Some(rec)), nodes[i := rec])
  }

  /** A known node is updated in place: the table keeps its length and its ids. */
  lemma {:induction false} KnownNodeUpdatedInPlace(nodes: seq<NodeRecord>, table: seq<NodeEntry>, nodeId: string)
    requires FindNode(nodes, nodeId).Some?
    ensures var r := NodeRecordStep(nodes, Some(table), nodeId);
      r.0.found && |r.1| == |nodes|
      && (forall k :: 0 <= k < |nodes| ==> r.1[k].nodeId == nodes[k].nodeId)
      && r.1[FindNode(nodes, nodeId).value] == r.0.record.value
  {
  }

  /** Creating or refreshing a record never gives two records the same id. */
  lemma {:induction false} NodeRecordKeepsIdsUnique(nodes: seq<NodeRecord>, connection: Option<seq<NodeEntry>>, nodeId: string)
    requires UniqueIds(nodes)
    ensures UniqueIds(NodeRecordStep(nodes, connection, nodeId).1)
  {
    var r := NodeRecordStep(nodes, connection, nodeId);
    if connection.Some? && FindNode(nodes, nodeId).Some? {
      KnownNodeUpdatedInPlace(nodes, connection.value, nodeId);
    }
  }

  // ---------------------------------------------------------------- queries

  function CountLocations(locations: seq<LocationRecord>, nodeId: string): nat
    decreases |locations|
  {
    if |locations| == 0 then 0
    else CountLocations(locations[..|locations| - 1], nodeId)
         + (if locations[|locations| - 1].node == Some(nodeId) then 1 else 0)
  }

  function CountMessages(messages: seq<MessageRecord>, nodeId: string): nat
    decreases |messages|
  {
    if |messages| == 0 then 0
    else CountMessages(messages[..|messages| - 1], nodeId)
         + (if messages[|messages| - 1].node == Some(nodeId) then 1 else 0)
  }

  /** The messages of one node, in table order. */
  function MessagesOf(messages: seq<MessageRecord>, nodeId: string): (r: seq<MessageRecord>)
    ensures forall m :: m in r <==> m in messages && m.node == Some(nodeId)
    ensures multiset(r) <= multiset(messages)
    decreases |messages|
  {
    if |messages| == 0 then []
    else
      var rest := MessagesOf(messages[..|messages| - 1], nodeId);
      var last := messages[|messages| - 1];
      assert messages == messages[..|messages| - 1] + [last];
      if last.node == Some(nodeId) then rest + [last] else rest
  }

  /** The counts are the sizes of the node's own records, `node_record.locations` and
      `node_record.messages`. */
  lemma {:induction false} CountsAreOwnRecords(locations: seq<LocationRecord>, messages: seq<MessageRecord>, nodeId: string)
    ensures CountLocations(locations, nodeId) == |LocationsOf(locations, nodeId)|
    ensures CountMessages(messages, nodeId) == |MessagesOf(messages, nodeId)|
  {
    LocationCount(locations, nodeId);
    MessageCount(messages, nodeId);
  }

  lemma {:induction false} LocationCount(locations: seq<LocationRecord>, nodeId: string)
    ensures CountLocations(locations, nodeId) == |LocationsOf(locations, nodeId)|
    decreases |locations|
  {
    if |locations| > 0 {
      LocationCount(locations[..|locations| - 1], nodeId);
    }
  }

  lemma {:induction false} MessageCount(messages: seq<MessageRecord>, nodeId: string)
    ensures CountMessages(messages, nodeId) == |MessagesOf(messages, nodeId)|
    decreases |messages|
  {
    if |messages| > 0 {
      MessageCount(messages[..|messages| - 1], nodeId);
    }
  }

  /** `get_stats(node_id)`: an unknown node dereferences None. */
  function Stats(nodes: seq<NodeRecord>, locations: seq<LocationRecord>, messages: seq<MessageRecord>, nodeId: string)
    : (r: Result<string>)
    ensures r.Err? <==> FindNode(nodes, nodeId).None?
    ensures r.Err? ==> r.exc == AttributeError("'NoneType' object has no attribute 'locations'")
    ensures r.Ok? ==> r.value == "Locations: " + NatToString(|LocationsOf(locations, nodeId)|)
                                 + ". Messages: " + NatToString(|MessagesOf(messages, nodeId)|)
  {
    CountsAreOwnRecords(locations, messages, nodeId);
    if FindNode(nodes, nodeId).None? then Err(AttributeError("'NoneType' object has no attribute 'locations'"))
    else Ok("Locations: " + NatToString(CountLocations(locations, nodeId)) + ". Messages: "
            + NatToString(CountMessages(messages, nodeId)))
  }

  /** The report reads back: the two numbers parse out of it again. */
  lemma StatsRoundTrip(nodes: seq<NodeRecord>, locations: seq<LocationRecord>, messages: seq<MessageRecord>, nodeId: string)
    requires FindNode(nodes, nodeId).Some?
    ensures var text := Stats(nodes, locations, messages, nodeId).value;
      var nl := |NatToString(|LocationsOf(locations, nodeId)|)|;
      11 + nl + 12 <= |text|
      && ParseNat(text[11..11 + nl]) == Some(|LocationsOf(locations, nodeId)|)
      && ParseNat(text[11 + nl + 12..]) == Some(|MessagesOf(messages, nodeId)|)
  {
    var a := NatToString(|LocationsOf(locations, nodeId)|);
    var b := NatToString(|MessagesOf(messages, nodeId)|);
    var text := "Locations: " + a + ". Messages: " + b;
    assert text[11..11 + |a|] == a;
    assert text[11 + |a| + 12..] == b;
    NatRoundTrip(|LocationsOf(locations, nodeId)|);
    NatRoundTrip(|MessagesOf(messages, nodeId)|);
  }

  /** `get_normalized_node(name)`: the first record whose cleaned name is non-empty and equal. */
  function FirstNormalized(nodes: seq<NodeRecord>, name: string): (r: Option<NodeRecord>)
    ensures r.Some? ==> r.value in nodes && |NormalizeName(r.value.nodeName)| > 0
                        && NormalizeName(r.value.nodeName) == name
    ensures r.None? ==> forall n :: n in nodes ==> |NormalizeName(n.nodeName)| == 0 || NormalizeName(n.nodeName) != name
    decreases |nodes|
  {
    if |nodes| == 0 then None
    else
      var normalized := NormalizeName(nodes[0].nodeName);
      if |normalized| > 0 && normalized == name then Some(nodes[0])
      else
        var r := FirstNormalized(nodes[1..], name);
        assert forall n :: n in nodes ==> n == nodes[0] || n in nodes[1..];
        r
  }

  /** `get_node_info(node_id)` */
  function NodeInfoRecord(nodes: seq<NodeRecord>, nodeId: string): (r: Result<NodeRecord>)
    ensures r.Ok? <==> FindNode(nodes, nodeId).Some?
    ensures r.Ok? ==> r.value.nodeId == nodeId && r.value in nodes
    ensures r.Err? ==> r.exc == RuntimeError("node " + nodeId + " not found")
  {
    match FindNode(nodes, nodeId)
    case None => Err(RuntimeError("node " + nodeId + " not found"))
    case Some(i) => Ok(nodes[i])
  }

  function NewestFirstKey(l: LocationRecord): int { -l.datetime }

  /** The locations of one node, in table order. */
  function LocationsOf(locations: seq<LocationRecord>, nodeId: string): (r: seq<LocationRecord>)
    ensures forall l :: l in r <==> l in locations && l.node == Some(nodeId)
    ensures multiset(r) <= multiset(locations)
    decreases |locations|
  {
    if |locations| == 0 then []
    else
      var rest := LocationsOf(locations[..|locations| - 1], nodeId);
      var last := locations[|locations| - 1];
      assert locations == locations[..|locations| - 1] + [last];
      if last.node == Some(nodeId) then rest + [last] else rest
  }

  /** `get_last_coordinates(node_id)`: the location ordered first by descending datetime. */
  function LastCoordinates(nodes: seq<NodeRecord>, locations: seq<LocationRecord>, nodeId: string)
    : (r: Result<LatLng>)
    ensures FindNode(nodes, nodeId).None? ==> r == Err(RuntimeError("node " + nodeId + " not found"))
    ensures FindNode(nodes, nodeId).Some? && |LocationsOf(locations, nodeId)| == 0 ==>
      r == Err(RuntimeError("node " + nodeId + " has no stored locations"))
  {
    if FindNode(nodes, nodeId).None? then Err(RuntimeError("node " + nodeId + " not found"))
    else
      var sorted := Sorting.SortBy(LocationsOf(locations, nodeId), NewestFirstKey);
      if |sorted| == 0 then Err(RuntimeError("node " + nodeId + " has no stored locations"))
      else Ok(LatLng(sorted[0].latitude, sorted[0].longitude))
  }

  /** The coordinates returned are those of a location of that node with the latest datetime. */
  lemma {:induction false} LastCoordinatesAreNewest(nodes: seq<NodeRecord>, locations: seq<LocationRecord>, nodeId: string)
    requires LastCoordinates(nodes, locations, nodeId).Ok?
    ensures exists l :: (l in locations && l.node == Some(nodeId)
      && LastCoordinates(nodes, locations, nodeId).value == LatLng(l.latitude, l.longitude)
      && forall m :: m in locations && m.node == Some(nodeId) ==> m.datetime <= l.datetime)
  {
    var mine := LocationsOf(locations, nodeId);
    var sorted := Sorting.SortBy(mine, NewestFirstKey);
    Sorting.SortByCorrect(mine, NewestFirstKey);
    var l := sorted[0];
    assert l in multiset(mine);
    forall m | m in locations && m.node == Some(nodeId) ensures m.datetime <= l.datetime {
      assert m in multiset(sorted);
      var j :| 0 <= j < |sorted| && sorted[j] == m;
      if j > 0 {
        assert NewestFirstKey(sorted[0]) <= NewestFirstKey(sorted[j]);
      }
    }
  }

  /** `get_node_track(node_name, tail)`: the record looked up by id for "!..." names, else by name. */
  function TrackNode(nodes: seq<NodeRecord>, name: string): (r: Option<NodeRecord>)
    ensures r.Some? ==> r.value in nodes
    ensures r.Some? && StartsWith(name, "!") ==> r.value.nodeId == name
    ensures r.Some? && !StartsWith(name, "!") ==> r.value.nodeName == name
  {
    var i := if StartsWith(name, "!") then FindNode(nodes, name) else FindNodeByName(nodes, name);
    if i.Some? then Some(nodes[i.value]) else None
  }

  function InWindow(locations: seq<LocationRecord>, cutoff: int): (r: seq<LocationRecord>)
    ensures forall l :: l in r <==> l in locations && l.datetime >= cutoff
    ensures multiset(r) <= multiset(locations)
    decreases |locations|
  {
    if |locations| == 0 then []
    else
      var rest := InWindow(locations[..|locations| - 1], cutoff);
      var last := locations[|locations| - 1];
      assert locations == locations[..|locations| - 1] + [last];
      if last.datetime >= cutoff then rest + [last] else rest
  }

  /** The location records the track is built from, newest first. */
  function TrackRecords(nodes: seq<NodeRecord>, locations: seq<LocationRecord>, name: string, tail: int, now: int)
    : seq<LocationRecord>
  {
    match TrackNode(nodes, name)
    case None => []
    case Some(rec) => Sorting.SortBy(InWindow(LocationsOf(locations, rec.nodeId), now - tail), NewestFirstKey)
  }

  function Track(nodes: seq<NodeRecord>, locations: seq<LocationRecord>, name: string, tail: int, now: int)
    : (r: seq<LatLng>)
    ensures |r| == |TrackRecords(nodes, locations, name, tail, now)|
    ensures forall i :: 0 <= i < |r| ==>
      r[i] == LatLng(TrackRecords(nodes, locations, name, tail, now)[i].latitude,
                     TrackRecords(nodes, locations, name, tail, now)[i].longitude)
  {
    var recs := TrackRecords(nodes, locations, name, tail, now);
    seq(|recs|, i requires 0 <= i < |recs| => LatLng(recs[i].latitude, recs[i].longitude))
  }

  /** The track of a known node is exactly its locations inside the window, newest first;
      an unknown node has an empty track. */
  lemma {:induction false} TrackIsWindowNewestFirst(nodes: seq<NodeRecord>, locations: seq<LocationRecord>,
                                                    name: string, tail: int, now: int)
    ensures TrackNode(nodes, name).None? ==> TrackRecords(nodes, locations, name, tail, now) == []
    ensures TrackNode(nodes, name).Some? ==>
      var recs := TrackRecords(nodes, locations, name, tail, now);
      var id := TrackNode(nodes, name).value.nodeId;
      (forall l :: l in recs <==> l in locations && l.node == Some(id) && l.datetime >= now - tail)
      && multiset(recs) == multiset(InWindow(LocationsOf(locations, id), now - tail))
      && (forall i, j :: 0 <= i < j < |recs| ==> recs[i].datetime >= recs[j].datetime)
  {
    if TrackNode(nodes, name).Some? {
      var id := TrackNode(nodes, name).value.nodeId;
      var window := InWindow(LocationsOf(locations, id), now - tail);
      Sorting.SortByCorrect(window, NewestFirstKey);
      var recs := Sorting.SortBy(window, NewestFirstKey);
      forall l ensures l in recs <==> l in window {
        assert l in recs <==> l in multiset(recs);
      }
      forall i, j | 0 <= i < j < |recs| ensures recs[i].datetime >= recs[j].datetime {
        assert NewestFirstKey(recs[i]) <= NewestFirstKey(recs[j]);
      }
    }
  }

  // ---------------------------------------------------------------- records written

  /** The location `store_location` records for a packet. */
  function PacketLocation(packet: Packet, node: Option<string>, now: int): (l: LocationRecord)
    ensures l.datetime == now && l.node == node
    ensures packet.decoded.None? || packet.decoded.value.position.None? ==>
      l.altitude == 0.0 && l.batteryLevel == 100.0 && l.latitude == 0.0 && l.longitude == 0.0
    ensures packet.rxSnr.None? ==> l.rxSnr == 0.0
    ensures packet.rxSnr.Some? ==> l.rxSnr == packet.rxSnr.value
    ensures packet.decoded.Some? && packet.decoded.value.position.Some? ==>
      var p := packet.decoded.value.position.value;
      l.altitude == p.altitude.GetOr(0.0) && l.batteryLevel == p.batteryLevel.GetOr(100.0)
      && l.latitude == p.latitude.GetOr(0.0) && l.longitude == p.longitude.GetOr(0.0)
  {
    var none := Position(None, None, None, None, None, None, None, false);
    var p := if packet.decoded.Some? then packet.decoded.value.position.GetOr(none) else none;
    LocationRecord(now, p.altitude.GetOr(0.0), p.batteryLevel.GetOr(100.0),
                   p.latitude.GetOr(0.0), p.longitude.GetOr(0.0), packet.rxSnr.GetOr(0.0), node)
  }

  /** The text `store_message` records for a packet. */
  function PacketText(packet: Packet): string {
    if packet.decoded.Some? then packet.decoded.value.text.GetOr("") else ""
  }

  // ---------------------------------------------------------------- the database object

  class MeshtasticDB {
    /** The Meshtastic connection's node table, once `set_meshtastic` has been called. */
    var connection: Option<seq<NodeEntry>>
    var nodes: seq<NodeRecord>
    var locations: seq<LocationRecord>
    var messages: seq<MessageRecord>
    var filters: seq<FilterRecord>

    ghost predicate Valid()
      reads this
    {
      UniqueIds(nodes)
    }

    constructor ()
      ensures Valid() && connection == None
      ensures nodes == [] && locations == [] && messages == [] && filters == []
    {
      connection := None;
      nodes := [];
      locations := [];
      messages := [];
      filters := [];
    }

    /** `set_meshtastic(connection)` */
    method SetMeshtastic(table: seq<NodeEntry>)
      modifies this
      ensures connection == Some(table)
      ensures nodes == old(nodes) && locations == old(locations) && messages == old(messages) && filters == old(filters)
    {
      connection := Some(table);
    }

    /** `get_node_record(node_id)`: creates a record for a new named node, refreshes a known one. */
    method GetNodeRecord(nodeId: string) returns (r: NodeLookup)
      requires Valid()
      modifies this
      ensures Valid()
      ensures (r, nodes) == NodeRecordStep(old(nodes), old(connection), nodeId)
      ensures connection == old(connection) && locations == old(locations)
      ensures messages == old(messages) && filters == old(filters)
    {
      NodeRecordKeepsIdsUnique(nodes, connection, nodeId);
      if connection.None? {
        return NodeLookup(false, None);
      }
      var info := NodeOrEmpty(connection.value, nodeId);
      var lastHeard := info.lastHeard.GetOr(0);
      var name := HeardName(info);
      var hw := HeardModel(info);
      var i := FindNode(nodes, nodeId);
      if i.None? {
        if name != "" && hw != "" {
          var rec := NodeRecord(nodeId, name, lastHeard, hw);
          nodes := nodes + [rec];
          return NodeLookup(false, Some(rec));
        }
        return NodeLookup(false, None);
      }
      var rec := nodes[i.value];
      name := if name != "" then name else rec.nodeName;
      rec := rec.(nodeName := if name != "" then name else nodeId, lastHeard := lastHeard);
      nodes := nodes[i.value := rec];
      return NodeLookup(true, Some(rec));
    }

    /** `get_normalized_node(node_name)`: a search loop with early return. */
    method GetNormalizedNode(name: string) returns (r: Option<NodeRecord>)
      ensures r == FirstNormalized(nodes, name)
    {
      var i := 0;
      while i < |nodes|
        invariant 0 <= i <= |nodes|
        invariant FirstNormalized(nodes, name) == FirstNormalized(nodes[i..], name)
      {
        var normalized := NormalizeName(nodes[i].nodeName);
        assert nodes[i..][1..] == nodes[i + 1..];
        if |normalized| != 0 && normalized == name {
          return Some(nodes[i]);
        }
        i := i + 1;
      }
      return None;
    }

    /** `store_message(packet)` at clock time `now`. */
    method StoreMessage(packet: Packet, now: int)
      requires Valid()
      modifies this
      ensures Valid()
      ensures packet.fromId.None? ==> nodes == old(nodes)
      ensures packet.fromId.Some? ==> nodes == NodeRecordStep(old(nodes), old(connection), packet.fromId.value).1
      ensures var rec := if packet.fromId.Some? then NodeRecordStep(old(nodes), old(connection), packet.fromId.value).0.record else None;
        messages == old(messages) + [MessageRecord(now, PacketText(packet), if rec.Some? then Some(rec.value.nodeId) else None)]
      ensures connection == old(connection) && locations == old(locations) && filters == old(filters)
    {
      var rec: Option<NodeRecord> := None;
      if packet.fromId.Some? {
        var lookup := GetNodeRecord(packet.fromId.value);
        rec := lookup.record;
      }
      var node := if rec.Some? then Some(rec.value.nodeId) else None;
      messages := messages + [MessageRecord(now, PacketText(packet), node)];
    }

    /** `store_location(packet)` at clock time `now`: nothing without a sender id. */
    method StoreLocation(packet: Packet, now: int)
      requires Valid()
      modifies this
      ensures Valid()
      ensures !HasFromId(packet) ==>
        nodes == old(nodes) && locations == old(locations) && messages == old(messages)
      ensures HasFromId(packet) ==>
        var step := NodeRecordStep(old(nodes), old(connection), packet.fromId.value);
        var node := if step.0.record.Some? then Some(step.0.record.value.nodeId) else None;
        nodes == step.1 && locations == old(locations) + [PacketLocation(packet, node, now)]
        && messages == old(messages)
      ensures connection == old(connection) && filters == old(filters)
    {
      if !HasFromId(packet) {
        return;
      }
      var lookup := GetNodeRecord(packet.fromId.value);
      var node := if lookup.record.Some? then Some(lookup.record.value.nodeId) else None;
      locations := locations + [PacketLocation(packet, node, now)];
    }

    /** `set_coordinates(node_id, lat, lon)` at clock time `now`. */
    method SetCoordinates(nodeId: string, lat: real, lon: real, now: int)
      modifies this
      ensures FindNode(old(nodes), nodeId).None? ==> locations == old(locations)
      ensures FindNode(old(nodes), nodeId).Some? ==>
        locations == old(locations) + [LocationRecord(now, 0.0, 100.0, lat, lon, 0.0, Some(nodeId))]
      ensures nodes == old(nodes) && messages == old(messages)
      ensures connection == old(connection) && filters == old(filters)
    {
      if FindNode(nodes, nodeId).None? {
        return;
      }
      locations := locations + [LocationRecord(now, 0.0, 100.0, lat, lon, 0.0, Some(nodeId))];
    }
  }

  /** Coordinates written by `set_coordinates` are what `get_last_coordinates` returns
      afterwards, provided no stored location of that node is newer. */
  lemma SetThenLastCoordinates(nodes: seq<NodeRecord>, locations: seq<LocationRecord>,
                               nodeId: string, lat: real, lon: real, now: int)
    requires FindNode(nodes, nodeId).Some?
    requires forall l :: l in locations && l.node == Some(nodeId) ==> l.datetime < now
    ensures LastCoordinates(nodes, locations + [LocationRecord(now, 0.0, 100.0, lat, lon, 0.0, Some(nodeId))], nodeId)
            == Ok(LatLng(lat, lon))
  {
    NewestAppendedIsLast(nodes, locations, LocationRecord(now, 0.0, 100.0, lat, lon, 0.0, Some(nodeId)), nodeId);
  }

  /** A location newer than every stored one of its node is what
      `get_last_coordinates` returns next. */
  lemma {:induction false} NewestAppendedIsLast(nodes: seq<NodeRecord>, locations: seq<LocationRecord>,
                                               added: LocationRecord, nodeId: string)
    requires FindNode(nodes, nodeId).Some? && added.node == Some(nodeId)
    requires forall l :: l in locations && l.node == Some(nodeId) ==> l.datetime < added.datetime
    ensures LastCoordinates(nodes, locations + [added], nodeId) == Ok(LatLng(added.latitude, added.longitude))
  {
    var all := locations + [added];
    assert LocationsOf(all, nodeId) == LocationsOf(locations, nodeId) + [added] by {
      assert all[..|all| - 1] == locations;
    }
    assert added in all;
    LastCoordinatesAreNewest(nodes, all, nodeId);
    var l :| l in all && l.node == Some(nodeId)
      && LastCoordinates(nodes, all, nodeId).value == LatLng(l.latitude, l.longitude)
      && forall m :: m in all && m.node == Some(nodeId) ==> m.datetime <= l.datetime;
    assert added.datetime <= l.datetime;
  }
}
