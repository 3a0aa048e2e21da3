/**
  * The dictionaries the gateway passes around, as values: the node entries of the
  * Meshtastic interface's `nodes` table and the received packets.
  *
  * Every optional dictionary key is an `Option` (`None` stands for "absent or
  * None").  A dictionary is truthy in Python when it has at least one key, so
  * `User` and `Position` carry an `otherKeys` flag for keys the gateway never reads.
  */
module Mesh {
  import opened Wrappers

  datatype User = User(id: Option<string>, longName: Option<string>, hwModel: Option<string>, otherKeys: bool)
  {
    /** The truthiness of the `user` dictionary. */
    predicate Truthy() {
      id.Some? || longName.Some? || hwModel.Some? || otherKeys
    }
  }

  datatype Position = Position(
    latitude: Option<real>,
    longitude: Option<real>,
    altitude: Option<real>,
    batteryLevel: Option<real>,
    latitudeI: Option<string>,
    longitudeI: Option<string>,
    admin1: Option<string>,
    otherKeys: bool)
  {
    /** The truthiness of the `position` dictionary. */
    predicate Truthy() {
      latitude.Some? || longitude.Some? || altitude.Some? || batteryLevel.Some?
      || latitudeI.Some? || longitudeI.Some? || admin1.Some? || otherKeys
    }

    /** `position.get(k)` is truthy for a coordinate: present and non-zero. */
    predicate HasCoordinates() {
      latitude.Some? && latitude.value != 0.0 && longitude.Some? && longitude.value != 0.0
    }
  }

  datatype Metrics = Metrics(channelUtilization: Option<real>, airUtilTx: Option<real>)

  datatype NodeInfo = NodeInfo(
    user: Option<User>,
    position: Option<Position>,
    snr: Option<real>,
    lastHeard: Option<int>,
    deviceMetrics: Option<Metrics>)
  {
    /** `node_info.get('position')` is truthy. */
    predicate HasPosition() { position.Some? && position.value.Truthy() }

    /** `node_info.get('user')` is truthy. */
    predicate HasUser() { user.Some? && user.value.Truthy() }
  }

  /** The empty dictionary `{}`. */
  const NoInfo: NodeInfo := NodeInfo(None, None, None, None, None)

  /** One `node_id: node_info` item of the interface's node table, in table order. */
  datatype NodeEntry = NodeEntry(key: string, info: NodeInfo)

  ghost predicate DistinctKeys(nodes: seq<NodeEntry>) {
    forall i, j :: 0 <= i < j < |nodes| ==> nodes[i].key != nodes[j].key
  }

  /** `nodes.get(key)` */
  function GetNode(nodes: seq<NodeEntry>, key: string): (r: Option<NodeInfo>)
    ensures r.Some? <==> exists i :: 0 <= i < |nodes| && nodes[i].key == key
    ensures r.Some? ==> exists i :: 0 <= i < |nodes| && nodes[i].key == key && nodes[i].info == r.value
    decreases |nodes|
  {
    if |nodes| == 0 then None
    else if nodes[0].key == key then Some(nodes[0].info)
    else
      var r := GetNode(nodes[1..], key);
      assert r.Some? ==> exists i :: 0 <= i < |nodes[1..]| && nodes[1..][i].key == key && nodes[1..][i].info == r.value;
      r
  }

  /** `nodes.get(key, {})` */
  function NodeOrEmpty(nodes: seq<NodeEntry>, key: string): NodeInfo {
    GetNode(nodes, key).GetOr(NoInfo)
  }

  datatype Decoded = Decoded(portnum: Option<string>, text: Option<string>, position: Option<Position>)

  /** A received Meshtastic packet, as a dictionary. */
  datatype Packet = Packet(
    fromId: Option<string>,
    from: Option<int>,
    toId: Option<string>,
    decoded: Option<Decoded>,
    hopLimit: Option<int>,
    rxSnr: Option<real>,
    rxTime: Option<int>)

  /** `packet.get("fromId")` is truthy. */
  predicate HasFromId(p: Packet) {
    p.fromId.Some? && |p.fromId.value| > 0
  }
}
