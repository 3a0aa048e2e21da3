/**
  * The map web application's views (mtg/webapp/webapp.py).
  *
  * The query string arrives already split by `parse_qs` into lists of values per
  * key.  The data view reads the node list the rich connection's `nodes_with_user`
  * returns and the connection's MQTT status table; formatting a coordinate with
  * `str(round(x, 5))` and a time with `strftime` are parameters, as are the clock
  * and the conversion of the alert's creation time to Kyiv local time.
  */
module WebApp {
  import opened Wrappers
  import opened Strs
  import opened Mesh
  import opened Database
  import opened Memcache
  import RichConnection

  // ---------------------------------------------------------------- get_tail / track

  /** `get_tail`: the name and the tail in seconds.  A "tail" value that is no
      integer leaves the default in place. */
  function GetTail(query: map<string, seq<string>>, lastHeardDefault: int): (r: (string, int))
    ensures "tail" in query && |query["tail"]| > 0 && ParseInt(query["tail"][0]).Some? ==>
      r.1 == ParseInt(query["tail"][0]).value
    ensures !("tail" in query && |query["tail"]| > 0 && ParseInt(query["tail"][0]).Some?) ==>
      r.1 == lastHeardDefault
    ensures "name" in query && |query["name"]| > 0 ==> r.0 == query["name"][0]
    ensures !("name" in query && |query["name"]| > 0) ==> r.0 == ""
  {
    var tails := if "tail" in query then query["tail"] else [];
    var tail :=
      if |tails| > 0 && ParseInt(tails[0]).Some? then ParseInt(tails[0]).value else lastHeardDefault;
    var names := if "name" in query then query["name"] else [];
    (if |names| > 0 then names[0] else "", tail)
  }

  /** A tail written as an integer is read back, whatever the default. */
  lemma TailRoundTrip(t: int, name: string, lastHeardDefault: int)
    ensures GetTail(map["tail" := [IntToString(t)], "name" := [name]], lastHeardDefault) == (name, t)
  {
    IntRoundTrip(t);
  }

  /** `RenderTrackView.dispatch_request`: the stored track of the named node, or
      nothing without a name. */
  function TrackView(nodes: seq<NodeRecord>, locations: seq<LocationRecord>,
                     query: map<string, seq<string>>, lastHeardDefault: int, now: int): (r: seq<LatLng>)
    ensures var (name, tail) := GetTail(query, lastHeardDefault);
      |name| == 0 ==> r == []
    ensures var (name, tail) := GetTail(query, lastHeardDefault);
      |name| > 0 ==> r == Track(nodes, locations, name, tail, now)
  {
    var (name, tail) := GetTail(query, lastHeardDefault);
    if |name| > 0 then Track(nodes, locations, name, tail, now) else []
  }

  // ---------------------------------------------------------------- format_hw

  /** `format_hw(hw_model)`: a link for the four known boards, else the model itself. */
  function FormatHw(hw: string): (r: string)
    ensures hw !in {"TBEAM", "TLORA", "T_ECHO", "DIY"} ==> r == hw
  {
    if hw == "TBEAM" then "<a href=\"https://meshtastic.org/docs/hardware/devices/tbeam/\">TBEAM</a>"
    else if hw == "TLORA" then "<a href=\"https://meshtastic.org/docs/hardware/devices/lora/\">TLORA</a>"
    else if hw == "T_ECHO" then "<a href=\"https://meshtastic.org/docs/hardware/devices/techo\">T-ECHO</a>"
    else if hw == "DIY" then "<a href=\"https://meshtastic.discourse.group/t/meshtastic-diy-project/3831/1\">DIY</a>"
    else hw
  }

  /** A model is shown unchanged exactly when it is not one of the four known boards. */
  lemma FormatHwKnown(hw: string)
    ensures FormatHw(hw) == hw <==> hw !in {"TBEAM", "TLORA", "T_ECHO", "DIY"}
  {
    if hw in {"TBEAM", "TLORA", "T_ECHO", "DIY"} {
      KnownChanged(hw);
    }
  }

  lemma KnownChanged(hw: string)
    requires hw == "TBEAM" || hw == "TLORA" || hw == "T_ECHO" || hw == "DIY"
    ensures FormatHw(hw) != hw
  {
    assert |hw| <= 6 < |FormatHw(hw)|;
  }

  // ---------------------------------------------------------------- the data view

  /** One row of the data view's JSON: twelve fields in this order. */
  datatype Row = Row(longName: Option<string>, latitude: string, longitude: string, hwModel: string,
                     snr: real, lastHeard: string, batteryLevel: real, altitude: real,
                     channelUtilization: int, airUtilTx: int, color: string, mqttStatus: string)

  /** `str(round(x, 5))` and `datetime.fromtimestamp(t).strftime(...)`. */
  datatype Formatters = Formatters(coordinate: real -> string, heard: int -> string)

  /** The marker colour: green for MQTT "online", blue for any other MQTT status,
      red without one. */
  function MarkerColor(mqtt: map<string, string>, nodeId: Option<string>): (c: string)
    ensures c == "green" <==> nodeId.Some? && nodeId.value in mqtt && mqtt[nodeId.value] == "online"
    ensures c == "blue" <==> nodeId.Some? && nodeId.value in mqtt && mqtt[nodeId.value] != "online"
    ensures c == "red" <==> nodeId.None? || nodeId.value !in mqtt
  {
    if nodeId.Some? && nodeId.value in mqtt then
      if mqtt[nodeId.value] == "online" then "green" else "blue"
    else "red"
  }

  /** `node_mqtt_status(node_id)` */
  function MqttStatus(mqtt: map<string, string>, nodeId: Option<string>): string {
    if nodeId.Some? && nodeId.value in mqtt then mqtt[nodeId.value] else "N/A"
  }

  function UserOf(info: NodeInfo): User {
    info.user.GetOr(User(None, None, None, false))
  }

  function PositionOf(info: NodeInfo): Position {
    info.position.GetOr(Position(None, None, None, None, None, None, None, false))
  }

  /** `node_info.get('lastHeard', 0)` */
  function HeardAt(info: NodeInfo): int {
    info.lastHeard.GetOr(0)
  }

  /** The node's own coordinates when both are truthy, else the database's latest. */
  function Coordinates(info: NodeInfo, nodes: seq<NodeRecord>, locations: seq<LocationRecord>): (r: Option<LatLng>)
    ensures PositionOf(info).HasCoordinates() ==>
      r == Some(LatLng(PositionOf(info).latitude.value, PositionOf(info).longitude.value))
    ensures !PositionOf(info).HasCoordinates() ==>
      var stored := RichConnection.Lookup(nodes, locations, UserOf(info).id);
      (r.None? <==> stored.Err?) && (stored.Ok? ==> r == Some(stored.value))
  {
    var pos := PositionOf(info);
    if pos.HasCoordinates() then Some(LatLng(pos.latitude.value, pos.longitude.value))
    else match RichConnection.Lookup(nodes, locations, UserOf(info).id)
      case Ok(at) => Some(at)
      case Err(_) => None
  }

  /** The row a node contributes, or None when it is skipped. */
  function NodeRow(info: NodeInfo, nodes: seq<NodeRecord>, locations: seq<LocationRecord>,
                   mqtt: map<string, string>, name: string, tail: int, now: real, fmt: Formatters): (r: Option<Row>)
    ensures r.Some? <==>
      Coordinates(info, nodes, locations).Some?
      && now - HeardAt(info) as real <= tail as real
      && (|name| == 0 || UserOf(info).longName == Some(name))
    ensures r.Some? ==> (r.value.longName == UserOf(info).longName
      && r.value.color == MarkerColor(mqtt, UserOf(info).id)
      && r.value.mqttStatus == MqttStatus(mqtt, UserOf(info).id)
      && (info.snr.None? ==> r.value.snr == 10.0)
      && (info.snr.Some? ==> r.value.snr == info.snr.value))
  {
    var user := UserOf(info);
    var pos := PositionOf(info);
    var metrics := info.deviceMetrics.GetOr(Metrics(None, None));
    match Coordinates(info, nodes, locations)
    case None => None
    case Some(at) =>
      if now - HeardAt(info) as real > tail as real then None
      else if |name| > 0 && user.longName != Some(name) then None
      else Some(Row(user.longName, fmt.coordinate(at.lat), fmt.coordinate(at.lng),
                    FormatHw(user.hwModel.GetOr("unknown")), info.snr.GetOr(10.0),
                    fmt.heard(HeardAt(info)), pos.batteryLevel.GetOr(100.0), pos.altitude.GetOr(0.0),
                    Trunc(metrics.channelUtilization.GetOr(0.0)), Trunc(metrics.airUtilTx.GetOr(0.0)),
                    MarkerColor(mqtt, user.id), MqttStatus(mqtt, user.id)))
  }

  /** The row-or-skip of each node, for fixed query, database and MQTT table. */
  function RowOf(nodes: seq<NodeRecord>, locations: seq<LocationRecord>, mqtt: map<string, string>,
                 name: string, tail: int, now: real, fmt: Formatters): NodeInfo -> Option<Row>
  {
    info => NodeRow(info, nodes, locations, mqtt, name, tail, now, fmt)
  }

  /** All the rows, in node order. */
  function DataRows(infos: seq<NodeInfo>, nodes: seq<NodeRecord>, locations: seq<LocationRecord>,
                    mqtt: map<string, string>, name: string, tail: int, now: real, fmt: Formatters): seq<Row>
  {
    FilterMap(infos, RowOf(nodes, locations, mqtt, name, tail, now, fmt))
  }

  /** The rows are exactly the rows of the nodes that pass the filters. */
  lemma RowsOfKeptNodes(infos: seq<NodeInfo>, nodes: seq<NodeRecord>, locations: seq<LocationRecord>,
                        mqtt: map<string, string>, name: string, tail: int, now: real, fmt: Formatters)
    ensures |DataRows(infos, nodes, locations, mqtt, name, tail, now, fmt)| <= |infos|
    ensures forall row :: row in DataRows(infos, nodes, locations, mqtt, name, tail, now, fmt) <==>
      exists i :: 0 <= i < |infos| && NodeRow(infos[i], nodes, locations, mqtt, name, tail, now, fmt) == Some(row)
  {
    FilterMapMembers(infos, RowOf(nodes, locations, mqtt, name, tail, now, fmt));
  }

  /** With a name given, every row is that node's. */
  lemma NameFilter(infos: seq<NodeInfo>, nodes: seq<NodeRecord>, locations: seq<LocationRecord>,
                   mqtt: map<string, string>, name: string, tail: int, now: real, fmt: Formatters)
    requires |name| > 0
    ensures forall row :: row in DataRows(infos, nodes, locations, mqtt, name, tail, now, fmt) ==>
      row.longName == Some(name)
  {
    RowsOfKeptNodes(infos, nodes, locations, mqtt, name, tail, now, fmt);
  }

  /** `RenderDataView.dispatch_request` over the node list, with the query already read. */
  method DataView(infos: seq<NodeInfo>, nodes: seq<NodeRecord>, locations: seq<LocationRecord>,
                  mqtt: map<string, string>, name: string, tail: int, now: real, fmt: Formatters)
    returns (rows: seq<Row>)
    ensures rows == DataRows(infos, nodes, locations, mqtt, name, tail, now, fmt)
  {
    rows := [];
    for i := 0 to |infos|
      invariant rows == DataRows(infos[..i], nodes, locations, mqtt, name, tail, now, fmt)
    {
      assert infos[..i + 1][..i] == infos[..i] && infos[..i + 1][i] == infos[i];
      var user := UserOf(infos[i]);
      var at := Coordinates(infos[i], nodes, locations);
      if at.None? {
        continue;
      }
      if now - HeardAt(infos[i]) as real > tail as real {
        continue;
      }
      if |name| > 0 && user.longName != Some(name) {
        continue;
      }
      var row := NodeRow(infos[i], nodes, locations, mqtt, name, tail, now, fmt);
      rows := rows + [row.value];
    }
    assert infos[..|infos|] == infos;
  }

  // ---------------------------------------------------------------- air raid alerts

  /** `region_table` */
  const Regions: map<int, string> := map[3 := "Khmelnystjka", 4 := "Vinnytsjka", 5 := "Rivnenska",
    8 := "Volynska", 9 := "Dnipro", 10 := "Zhytomyrska", 11 := "Zakarpattya", 12 := "Zaporizhzhja",
    13 := "Ivano-Fr", 14 := "Kyiv obl", 15 := "Kirovohrad", 16 := "Luhansk", 17 := "Mykolaiv",
    18 := "Odesa", 19 := "Poltava", 20 := "Sumy", 21 := "Ternopil", 22 := "Kharkiv", 23 := "Kherson",
    24 := "Cherkasy", 25 := "Chernihiv", 26 := "Chernivtsi", 27 := "Lviv", 28 := "Donetsjk",
    31 := "Kyiv", 9999 := "Krym"]

  /** `translation_table`: geocoder names that differ from the alert service's. */
  const Translations: map<string, string> := map["Dnipropetrovsk" := "Dnipro", "Kiev" := "Kyiv obl",
    "Kyiv City" := "Kyiv", "Odessa" := "Odesa"]

  /** `str.capitalize()` on ASCII text. */
  function Capitalize(s: string): (r: string)
    ensures |r| == |s|
  {
    if |s| == 0 then "" else [UpperChar(s[0])] + Lower(s[1..])
  }

  /** The request body's fields. */
  datatype Alert = Alert(alarmType: Option<string>, regionId: Option<int>, status: Option<string>,
                         createdAt: Option<string>)

  /** `region_table.get(region_id)` */
  function Place(alert: Alert): Option<string> {
    var id := alert.regionId.GetOr(0);
    if id in Regions then Some(Regions[id]) else None
  }

  /**
    * The alert text.  `localTime(createdAt)` is the `strptime` of the creation time
    * as UTC, converted to Kyiv time and printed as "%H:%M:%S"; None is the
    * ValueError of a creation time `strptime` rejects.  The body fails, in source
    * order, on a missing "status" (`None.lower()`), then on a missing "createdAt"
    * (`None + '+0000'`), then on a creation time that does not parse.
    */
  function AlertText(alert: Alert, localTime: string -> Option<string>): (r: Result<string>)
    ensures alert.status.None? ==> r == Err(AttributeError("'NoneType' object has no attribute 'lower'"))
    ensures alert.status.Some? && alert.createdAt.None? ==> r == Err(TypeError)
    ensures alert.status.Some? && alert.createdAt.Some? && localTime(alert.createdAt.value).None? ==>
      r == Err(ValueError)
    ensures r.Ok? <==> alert.status.Some? && alert.createdAt.Some? && localTime(alert.createdAt.value).Some?
    ensures r.Ok? ==> StartsWith(r.value, "Alert: " + Shown(alert.alarmType) + ", " + Shown(Place(alert)) + ", ")
    ensures r.Ok? ==>
      var tail := " since " + localTime(alert.createdAt.value).value;
      |tail| <= |r.value| && r.value[|r.value| - |tail|..] == tail
  {
    if alert.status.None? then Err(AttributeError("'NoneType' object has no attribute 'lower'"))
    else if alert.createdAt.None? then Err(TypeError)
    else match localTime(alert.createdAt.value)
      case None => Err(ValueError)
      case Some(time) =>
        var head := "Alert: " + Shown(alert.alarmType) + ", " + Shown(Place(alert)) + ", ";
        var tail := " since " + time;
        var text := head + Capitalize(Lower(alert.status.value)) + tail;
        assert text[..|head|] == head;
        assert text[|text| - |tail|..] == tail;
        Ok(text)
  }

  /** What an accepted alert does: the Telegram notification, if any, and the
      arguments of the `slow_alert` thread it starts. */
  datatype Dispatch = Dispatch(telegram: Option<string>, place: Option<string>, text: string)

  /** Whether `slow_alert` sends to a node, and to which id. */
  function TargetOf(place: Option<string>): NodeInfo -> Option<Option<string>>
  {
    info =>
      var admin1 := PositionOf(info).admin1;
      if admin1.Some? && |admin1.value| > 0 && place == Some(Translate(admin1.value))
      then Some(UserOf(info).id) else None
  }

  /** The node ids `slow_alert(place, text)` sends to: the nodes whose translated
      `admin1` is the alert's place. */
  function AlertTargets(infos: seq<NodeInfo>, place: Option<string>): seq<Option<string>>
  {
    FilterMap(infos, TargetOf(place))
  }

  function Translate(admin1: string): string {
    if admin1 in Translations then Translations[admin1] else admin1
  }

  /** "Kiev" is alerted with the Kyiv region (14) and "Kyiv City" with the city (31). */
  lemma TranslationExamples()
    ensures Translate("Kiev") == Regions[14] && Translate("Kyiv City") == Regions[31]
    ensures Translate("Lviv") == Regions[27]
  {
  }

  /** What `dispatch_request` answers and the cache it leaves, for the alert
      `alert` handled at clock time `now`. */
  function AirRaid(alert: Alert, localTime: string -> Option<string>, enabled: bool, cache: map<string, Entry<bool>>, now: real):
    (r: (Result<Option<Dispatch>>, map<string, Entry<bool>>))
    ensures r.0.Err? <==> AlertText(alert, localTime).Err?
    ensures r.0.Err? ==> r.0.exc == AlertText(alert, localTime).exc
    ensures r.0.Ok? && r.0.value.Some? <==>
      AlertText(alert, localTime).Ok? && enabled && LookupData(cache, AlertText(alert, localTime).value) != Some(true)
    ensures r.0.Ok? && r.0.value.Some? ==>
      r.0.value.value.text == AlertText(alert, localTime).value && r.0.value.value.place == Place(alert)
      && r.1 == cache[r.0.value.value.text := MakeEntry(true, 60.0, now)]
    ensures !(r.0.Ok? && r.0.value.Some?) ==> r.1 == cache
  {
    match AlertText(alert, localTime)
    case Err(e) => (Err(e), cache)
    case Ok(text) =>
      if !enabled || LookupData(cache, text) == Some(true) then (Ok(None), cache)
      else
        var telegram := if alert.regionId.GetOr(0) in {14, 31} then Some(text) else None;
        (Ok(Some(Dispatch(telegram, Place(alert), text))), cache[text := MakeEntry(true, 60.0, now)])
  }

  /** With alerts disabled nothing is sent and nothing cached; a body whose text
      cannot be built fails all the same. */
  lemma DisabledSilent(alert: Alert, localTime: string -> Option<string>, cache: map<string, Entry<bool>>, now: real)
    ensures AlertText(alert, localTime).Ok? ==> AirRaid(alert, localTime, false, cache, now) == (Ok(None), cache)
    ensures AlertText(alert, localTime).Err? ==> AirRaid(alert, localTime, false, cache, now).0.Err?
  {
  }

  /** The same alert a second time, before its cache entry is reaped, sends nothing. */
  lemma {:induction false} RepeatedAlertSilent(alert: Alert, localTime: string -> Option<string>, enabled: bool,
                                               cache: map<string, Entry<bool>>, now: real, later: real)
    requires AirRaid(alert, localTime, enabled, cache, now).0.Ok?
    ensures var (_, cache') := AirRaid(alert, localTime, enabled, cache, now);
      AirRaid(alert, localTime, enabled, cache', later) == (Ok(None), cache')
  {
    var text := AlertText(alert, localTime).value;
    var (r, cache') := AirRaid(alert, localTime, enabled, cache, now);
    if r.value.Some? {
      SetThenGet(cache, text, true, 60.0, now);
    }
  }

  /** Telegram hears of an accepted alert exactly for the Kyiv region (14) and the
      city (31). */
  lemma TelegramOnlyForKyiv(alert: Alert, localTime: string -> Option<string>, enabled: bool, cache: map<string, Entry<bool>>, now: real)
    requires AirRaid(alert, localTime, enabled, cache, now).0.Ok? && AirRaid(alert, localTime, enabled, cache, now).0.value.Some?
    ensures var d := AirRaid(alert, localTime, enabled, cache, now).0.value.value;
      d.telegram.Some? <==> alert.regionId.GetOr(0) == 14 || alert.regionId.GetOr(0) == 31
    ensures var d := AirRaid(alert, localTime, enabled, cache, now).0.value.value;
      d.telegram.Some? ==> d.telegram.value == d.text && Place(alert).Some?
  {
  }

  class RenderAirRaidView {
    /** `WebApp.AirRaidEnabled` */
    const enabled: bool
    const memcache: Memcache<string, bool>

    constructor (enabled: bool, memcache: Memcache<string, bool>)
      ensures this.enabled == enabled && this.memcache == memcache
    {
      this.enabled := enabled;
      this.memcache := memcache;
    }

    /** `dispatch_request()` */
    method DispatchRequest(alert: Alert, localTime: string -> Option<string>, now: real) returns (r: Result<Option<Dispatch>>)
      modifies memcache
      ensures (r, memcache.cache) == AirRaid(alert, localTime, enabled, old(memcache.cache), now)
    {
      var text := AlertText(alert, localTime);
      if text.Err? {
        return Err(text.exc);
      }
      if !enabled {
        return Ok(None);
      }
      var seen := memcache.Get(text.value);
      if seen == Some(true) {
        return Ok(None);
      }
      memcache.Set(text.value, true, 60.0, now);
      var telegram: Option<string> := None;
      var region := alert.regionId.GetOr(0);
      if region == 14 || region == 31 {
        telegram := Some(text.value);
      }
      return Ok(Some(Dispatch(telegram, Place(alert), text.value)));
    }

    /** `slow_alert(place, text)` over the connection's `nodes_with_position`: the
        destination ids of the `send_text` calls, in order. */
    method SlowAlert(infos: seq<NodeInfo>, place: Option<string>) returns (sent: seq<Option<string>>)
      ensures sent == AlertTargets(infos, place)
    {
      sent := [];
      for i := 0 to |infos|
        invariant sent == AlertTargets(infos[..i], place)
      {
        assert infos[..i + 1][..i] == infos[..i] && infos[..i + 1][i] == infos[i];
        var admin1 := PositionOf(infos[i]).admin1;
        if admin1.None? || |admin1.value| == 0 {
          continue;
        }
        if Some(Translate(admin1.value)) == place {
          sent := sent + [UserOf(infos[i]).id];
        }
      }
      assert infos[..|infos|] == infos;
    }
  }

  /** Every alerted node has a position whose translated region is the alert's place,
      and every such node is alerted. */
  lemma TargetsMatchPlace(infos: seq<NodeInfo>, place: Option<string>)
    ensures forall id :: id in AlertTargets(infos, place) <==>
      exists i :: 0 <= i < |infos| && UserOf(infos[i]).id == id
        && PositionOf(infos[i]).admin1.Some? && |PositionOf(infos[i]).admin1.value| > 0
        && place == Some(Translate(PositionOf(infos[i]).admin1.value))
  {
    FilterMapMembers(infos, TargetOf(place));
  }
}
