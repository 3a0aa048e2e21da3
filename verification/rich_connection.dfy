/**
  * The database-backed Meshtastic connection (mtg/connection/rich/richconnection.py).
  *
  * `get_set_last_position` falls back on a random point near the configured map
  * centre when the database has no usable coordinates, and `nodes_with_position`
  * gives every node a position, synthesising one where needed and adding the
  * reverse-geocoded region name.  The random draws, Python's `str(float)`, the
  * clock and the reverse geocoder are parameters.
  *
  * The node infos the interface hands out are the interface's own dictionaries,
  * so the positions written by `nodes_with_position` stay in the interface's node
  * table; the model updates that table entry by entry.
  */
module RichConnection {
  import opened Wrappers
  import opened Strs
  import opened Mesh
  import opened Database
  import MeshConnection

  /** `center + random.randrange(1000) / 10000` for the draw `r`. */
  function Candidate(center: real, r: nat): (c: real)
    ensures r < 1000 ==> center <= c < center + 0.1
  {
    center + (r as real) / 10000.0
  }

  /** `x or fallback` for a coordinate. */
  function OrElse(x: real, fallback: real): (r: real)
    ensures x != 0.0 ==> r == x
    ensures x == 0.0 ==> r == fallback
  {
    if x != 0.0 then x else fallback
  }

  /** The database lookup: a node without a user id is looked up as `None`, which no
      record has. */
  function Lookup(nodes: seq<NodeRecord>, locations: seq<LocationRecord>, nodeId: Option<string>): (r: Result<LatLng>)
    ensures nodeId.None? ==> r.Err?
    ensures nodeId.Some? ==> r == LastCoordinates(nodes, locations, nodeId.value)
  {
    match nodeId
    case None => Err(RuntimeError("node None not found"))
    case Some(id) => LastCoordinates(nodes, locations, id)
  }

  /** `get_set_last_position(node_id)` given the two candidates: the position
      returned and the location table afterwards. */
  function LastPosition(nodes: seq<NodeRecord>, locations: seq<LocationRecord>, nodeId: Option<string>,
                        cand: LatLng, now: int): (r: (LatLng, seq<LocationRecord>))
  {
    match Lookup(nodes, locations, nodeId)
    case Ok(found) => (LatLng(OrElse(found.lat, cand.lat), OrElse(found.lng, cand.lng)), locations)
    case Err(_) =>
      var written :=
        if nodeId.Some? && FindNode(nodes, nodeId.value).Some?
        then locations + [LocationRecord(now, 0.0, 100.0, cand.lat, cand.lng, 0.0, nodeId)]
        else locations;
      (cand, written)
  }

  /** `get_set_last_position(node_id)` on the connection's database, given the two
      candidates: reads the last coordinates, writes the candidates when there are none. */
  method StoreLastPosition(database: MeshtasticDB, nodeId: Option<string>, cand: LatLng, now: int)
    returns (at: LatLng)
    modifies database
    ensures (at, database.locations) == LastPosition(old(database.nodes), old(database.locations), nodeId, cand, now)
    ensures database.nodes == old(database.nodes) && database.messages == old(database.messages)
    ensures database.connection == old(database.connection) && database.filters == old(database.filters)
  {
    var lat, lon := 0.0, 0.0;
    var found := Lookup(database.nodes, database.locations, nodeId);
    if found.Ok? {
      lat, lon := found.value.lat, found.value.lng;
    } else if nodeId.Some? {
      database.SetCoordinates(nodeId.value, cand.lat, cand.lng, now);
    }
    lat := OrElse(lat, cand.lat);
    lon := OrElse(lon, cand.lng);
    at := LatLng(lat, lon);
  }

  /** Stored non-zero coordinates come back unchanged and nothing is written. */
  lemma StoredCoordinatesKept(nodes: seq<NodeRecord>, locations: seq<LocationRecord>, nodeId: string,
                              cand: LatLng, now: int)
    requires LastCoordinates(nodes, locations, nodeId).Ok?
    requires LastCoordinates(nodes, locations, nodeId).value.lat != 0.0
    requires LastCoordinates(nodes, locations, nodeId).value.lng != 0.0
    ensures LastPosition(nodes, locations, Some(nodeId), cand, now)
            == (LastCoordinates(nodes, locations, nodeId).value, locations)
  {
  }

  /** Stored zero coordinates are replaced by the candidates, again without a write. */
  lemma ZeroCoordinatesReplaced(nodes: seq<NodeRecord>, locations: seq<LocationRecord>, nodeId: string,
                                cand: LatLng, now: int)
    requires LastCoordinates(nodes, locations, nodeId) == Ok(LatLng(0.0, 0.0))
    ensures LastPosition(nodes, locations, Some(nodeId), cand, now) == (cand, locations)
  {
  }

  /** When the lookup raises, the candidates are returned, and they are stored exactly
      when the node has a record. */
  lemma FallbackStored(nodes: seq<NodeRecord>, locations: seq<LocationRecord>, nodeId: string,
                       cand: LatLng, now: int)
    requires LastCoordinates(nodes, locations, nodeId).Err?
    ensures LastPosition(nodes, locations, Some(nodeId), cand, now).0 == cand
    ensures FindNode(nodes, nodeId).Some? <==>
      LastPosition(nodes, locations, Some(nodeId), cand, now).1
      == locations + [LocationRecord(now, 0.0, 100.0, cand.lat, cand.lng, 0.0, Some(nodeId))]
    ensures FindNode(nodes, nodeId).None? ==> LastPosition(nodes, locations, Some(nodeId), cand, now).1 == locations
  {
  }

  /** A fallback written for a known node is what the next call finds: with non-zero
      candidates, a later call returns them without drawing on its own candidates
      and without writing again. */
  lemma {:induction false} FallbackRemembered(nodes: seq<NodeRecord>, locations: seq<LocationRecord>, nodeId: string,
                                             cand: LatLng, next: LatLng, now: int, later: int)
    requires FindNode(nodes, nodeId).Some?
    requires LastCoordinates(nodes, locations, nodeId).Err?
    requires cand.lat != 0.0 && cand.lng != 0.0
    ensures var written := LastPosition(nodes, locations, Some(nodeId), cand, now).1;
      LastPosition(nodes, written, Some(nodeId), next, later) == (cand, written)
  {
    var written := locations + [LocationRecord(now, 0.0, 100.0, cand.lat, cand.lng, 0.0, Some(nodeId))];
    SetThenLastCoordinates(nodes, locations, nodeId, cand.lat, cand.lng, now);
  }

  // ---------------------------------------------------------------- nodes_with_position

  /** `str(x).replace('.', '')[:9]`, with `str` given. */
  function IntegerDigits(x: real, repr: real -> string): (r: string)
    ensures |r| <= 9
    ensures forall i :: 0 <= i < |r| ==> r[i] != '.'
  {
    var digits := KeepChars(repr(x), c => c != '.');
    if |digits| <= 9 then digits else digits[..9]
  }

  /** The position dictionary written for a node that lacks coordinates. */
  function Synthesized(at: LatLng, repr: real -> string): (p: Position)
    ensures p.latitude == Some(at.lat) && p.longitude == Some(at.lng) && p.altitude == Some(100.0)
  {
    Position(Some(at.lat), Some(at.lng), Some(100.0), None,
             Some(IntegerDigits(at.lat, repr)), Some(IntegerDigits(at.lng, repr)), None, false)
  }

  /** `node_info.get('user', {}).get('id')` */
  function UserId(info: NodeInfo): Option<string> {
    if info.user.Some? then info.user.value.id else None
  }

  /** `node_info.get('position', {})` */
  function PositionOrEmpty(info: NodeInfo): Position {
    info.position.GetOr(Position(None, None, None, None, None, None, None, false))
  }

  /** What one pass depends on besides the location table: the node records, the map
      centre, the random source (the value of the k-th draw of the pass), `str(float)`,
      the reverse geocoder (the `admin1` names of its results) and the clock. */
  datatype Env = Env(nodes: seq<NodeRecord>, center: LatLng, randrange: nat -> nat,
                     repr: real -> string, rg: (real, real) -> seq<string>, now: int)

  /** The location table and the number of draws taken so far. */
  datatype PassState = PassState(locations: seq<LocationRecord>, draws: nat)

  /** The position a node ends up with, and the state after it. */
  function Located(info: NodeInfo, env: Env, st: PassState): (r: (Position, PassState))
    ensures r.0.latitude.Some? && r.0.longitude.Some?
    ensures PositionOrEmpty(info).HasCoordinates() ==> r == (PositionOrEmpty(info), st)
    ensures !PositionOrEmpty(info).HasCoordinates() ==> r.0.altitude == Some(100.0) && r.1.draws == st.draws + 2
    ensures |st.locations| <= |r.1.locations| && r.1.locations[..|st.locations|] == st.locations
  {
    var pos := PositionOrEmpty(info);
    if pos.HasCoordinates() then (pos, st)
    else
      var cand := LatLng(Candidate(env.center.lat, env.randrange(st.draws)),
                         Candidate(env.center.lng, env.randrange(st.draws + 1)));
      var (at, written) := LastPosition(env.nodes, st.locations, UserId(info), cand, env.now);
      (Synthesized(at, env.repr), PassState(written, st.draws + 2))
  }

  /** The node info as `nodes_with_position` leaves it. */
  function Enrich(info: NodeInfo, env: Env, st: PassState): (r: (NodeInfo, PassState))
    ensures r.1 == Located(info, env, st).1
  {
    var (pos, st') := Located(info, env, st);
    var found := env.rg(pos.latitude.value, pos.longitude.value);
    var pos' := if |found| > 0 then pos.(admin1 := Some(found[0])) else pos;
    (info.(position := Some(pos')), st')
  }

  /** What the source promises of each node it returns, whatever the database holds:
      the other keys untouched, coordinates present, the node's own coordinates kept
      when it had them and altitude 100 otherwise, and `admin1` from the first
      geocoder result when there is one. */
  ghost predicate EnrichedFrom(orig: NodeInfo, out: NodeInfo, rg: (real, real) -> seq<string>) {
    out.user == orig.user && out.snr == orig.snr && out.lastHeard == orig.lastHeard
    && out.deviceMetrics == orig.deviceMetrics
    && out.position.Some?
    && var p := out.position.value;
    p.latitude.Some? && p.longitude.Some?
    && (PositionOrEmpty(orig).HasCoordinates() ==>
          p.latitude == PositionOrEmpty(orig).latitude && p.longitude == PositionOrEmpty(orig).longitude)
    && (!PositionOrEmpty(orig).HasCoordinates() ==> p.altitude == Some(100.0))
    && (|rg(p.latitude.value, p.longitude.value)| > 0 ==> p.admin1 == Some(rg(p.latitude.value, p.longitude.value)[0]))
    && (|rg(p.latitude.value, p.longitude.value)| == 0 && PositionOrEmpty(orig).HasCoordinates() ==>
          p.admin1 == PositionOrEmpty(orig).admin1)
  }

  lemma EnrichOne(info: NodeInfo, env: Env, st: PassState)
    ensures EnrichedFrom(info, Enrich(info, env, st).0, env.rg)
  {
  }

  /** The whole pass over the node infos, threading the state. */
  function Pass(infos: seq<NodeInfo>, env: Env, st: PassState): (r: (seq<NodeInfo>, PassState))
    ensures |r.0| == |infos|
    decreases |infos|
  {
    if |infos| == 0 then ([], st)
    else
      var (first, st') := Enrich(infos[0], env, st);
      var (rest, st'') := Pass(infos[1..], env, st');
      ([first] + rest, st'')
  }

  /** One output per node, in order, each enriched from its own node; the location
      table only grows. */
  lemma {:induction false} PassEnriches(infos: seq<NodeInfo>, env: Env, st: PassState)
    ensures forall i :: 0 <= i < |infos| ==> EnrichedFrom(infos[i], Pass(infos, env, st).0[i], env.rg)
    ensures var after := Pass(infos, env, st).1.locations;
      |st.locations| <= |after| && after[..|st.locations|] == st.locations
    decreases |infos|
  {
    if |infos| > 0 {
      var (first, st') := Enrich(infos[0], env, st);
      EnrichOne(infos[0], env, st);
      PassEnriches(infos[1..], env, st');
      var rest := Pass(infos[1..], env, st').0;
      forall i | 0 <= i < |infos| ensures EnrichedFrom(infos[i], Pass(infos, env, st).0[i], env.rg) {
        if i > 0 {
          assert Pass(infos, env, st).0[i] == rest[i - 1];
          assert infos[i] == infos[1..][i - 1];
        }
      }
      var mid := st'.locations;
      var after := Pass(infos, env, st).1.locations;
      assert after[..|mid|] == mid;
      assert after[..|st.locations|] == after[..|mid|][..|st.locations|];
    }
  }

  lemma PassStep(infos: seq<NodeInfo>, i: nat, env: Env, st: PassState)
    requires i < |infos|
    ensures var next := Enrich(infos[i], env, st);
      var rest := Pass(infos[i + 1..], env, next.1);
      Pass(infos[i..], env, st) == ([next.0] + rest.0, rest.1)
  {
    assert infos[i..][0] == infos[i];
    assert infos[i..][1..] == infos[i + 1..];
  }

  class RichConnection {
    const database: MeshtasticDB
    /** `WebApp.Center_Latitude` and `WebApp.Center_Longitude`, already converted. */
    const centerLat: real
    const centerLon: real
    /** The interface's node table, shared with the base connection. */
    var interfaceNodes: Option<seq<NodeEntry>>

    ghost predicate Valid()
      reads this
    {
      interfaceNodes.Some? ==> DistinctKeys(interfaceNodes.value)
    }

    constructor (database: MeshtasticDB, centerLat: real, centerLon: real, interfaceNodes: Option<seq<NodeEntry>>)
      requires interfaceNodes.Some? ==> DistinctKeys(interfaceNodes.value)
      ensures Valid()
      ensures this.database == database && this.centerLat == centerLat && this.centerLon == centerLon
      ensures this.interfaceNodes == interfaceNodes
    {
      this.database := database;
      this.centerLat := centerLat;
      this.centerLon := centerLon;
      this.interfaceNodes := interfaceNodes;
    }

    /** `get_set_last_position(node_id)` with the draws `rLat` and `rLon`. */
    method GetSetLastPosition(nodeId: Option<string>, rLat: nat, rLon: nat, now: int) returns (at: LatLng)
      modifies database
      ensures var cand := LatLng(Candidate(centerLat, rLat), Candidate(centerLon, rLon));
        (at, database.locations) == LastPosition(old(database.nodes), old(database.locations), nodeId, cand, now)
      ensures database.nodes == old(database.nodes) && database.messages == old(database.messages)
      ensures database.connection == old(database.connection) && database.filters == old(database.filters)
    {
      var cand := LatLng(Candidate(centerLat, rLat), Candidate(centerLon, rLon));
      at := StoreLastPosition(database, nodeId, cand, now);
    }

    /** One iteration of `nodes_with_position`. */
    method EnrichNode(info: NodeInfo, env: Env, draws: nat) returns (out: NodeInfo, draws': nat)
      requires env.nodes == database.nodes && env.center == LatLng(centerLat, centerLon)
      modifies database
      ensures (out, PassState(database.locations, draws')) == Enrich(info, env, PassState(old(database.locations), draws))
      ensures database.nodes == old(database.nodes) && database.messages == old(database.messages)
      ensures database.connection == old(database.connection) && database.filters == old(database.filters)
    {
      var pos := PositionOrEmpty(info);
      draws' := draws;
      if !pos.HasCoordinates() {
        var at := GetSetLastPosition(UserId(info), env.randrange(draws), env.randrange(draws + 1), env.now);
        pos := Synthesized(at, env.repr);
        draws' := draws + 2;
      }
      var found := env.rg(pos.latitude.value, pos.longitude.value);
      if |found| > 0 {
        pos := pos.(admin1 := Some(found[0]));
      }
      out := info.(position := Some(pos));
    }

    /** The loop of `nodes_with_position`: each node info enriched in turn, the
        draws and the database's locations threaded through. */
    method EnrichAll(infos: seq<NodeInfo>, env: Env) returns (nodeList: seq<NodeInfo>)
      requires env.nodes == database.nodes && env.center == LatLng(centerLat, centerLon)
      modifies database
      ensures var pass := Pass(infos, env, PassState(old(database.locations), 0));
        nodeList == pass.0 && database.locations == pass.1.locations
      ensures database.nodes == old(database.nodes) && database.messages == old(database.messages)
      ensures database.connection == old(database.connection) && database.filters == old(database.filters)
    {
      ghost var whole := Pass(infos, env, PassState(database.locations, 0));
      var draws := 0;
      nodeList := [];
      assert infos[0..] == infos && [] + whole.0 == whole.0;
      for i := 0 to |infos|
        invariant |nodeList| == i
        invariant var rest := Pass(infos[i..], env, PassState(database.locations, draws));
          whole == (nodeList + rest.0, rest.1)
        invariant env.nodes == database.nodes
        invariant database.messages == old(database.messages)
        invariant database.connection == old(database.connection) && database.filters == old(database.filters)
      {
        ghost var before := PassState(database.locations, draws);
        var out, draws' := EnrichNode(infos[i], env, draws);
        PassStep(infos, i, env, before);
        ghost var rest := Pass(infos[i + 1..], env, PassState(database.locations, draws')).0;
        assert (nodeList + [out]) + rest == nodeList + ([out] + rest);
        nodeList := nodeList + [out];
        draws := draws';
      }
      assert infos[|infos|..] == [];
    }

    /** `nodes_with_position`: every node of `nodes_with_info`, in order, with the
        positions written back into the interface's table. */
    method NodesWithPosition(randrange: nat -> nat, repr: real -> string, rg: (real, real) -> seq<string>, now: int)
      returns (nodeList: seq<NodeInfo>)
      requires Valid()
      modifies this, database
      ensures Valid()
      ensures var env := Env(old(database.nodes), LatLng(centerLat, centerLon), randrange, repr, rg, now);
        var pass := Pass(MeshConnection.WithInfo(MeshConnection.Nodes(old(interfaceNodes))), env,
                         PassState(old(database.locations), 0));
        nodeList == pass.0 && database.locations == pass.1.locations
      ensures interfaceNodes.None? <==> old(interfaceNodes).None?
      ensures interfaceNodes.Some? ==>
        |interfaceNodes.value| == |nodeList|
        && forall i :: 0 <= i < |nodeList| ==>
             interfaceNodes.value[i] == NodeEntry(old(interfaceNodes).value[i].key, nodeList[i])
      ensures database.nodes == old(database.nodes) && database.messages == old(database.messages)
      ensures database.connection == old(database.connection) && database.filters == old(database.filters)
    {
      var entries := MeshConnection.Nodes(interfaceNodes);
      var infos := MeshConnection.WithInfo(entries);
      var env := Env(database.nodes, LatLng(centerLat, centerLon), randrange, repr, rg, now);
      nodeList := EnrichAll(infos, env);
      if interfaceNodes.Some? {
        var written := seq(|entries|, k requires 0 <= k < |entries| => NodeEntry(entries[k].key, nodeList[k]));
        assert forall k :: 0 <= k < |entries| ==> written[k].key == entries[k].key;
        interfaceNodes := Some(written);
      }
    }
  }
}
