/**
  * The MQTT status-topic handler (mtg/connection/mqtt/handler.py).
  *
  * A status message arrives on a topic such as `msh/2/stat/!a1b2c3d4`; the node id
  * is "!" plus whatever follows the only "!" of the topic.  Decoding the payload
  * as UTF-8 and Python's `str(bytes)` are parameters.  The node callback is
  * represented by whether one is set: the handler's observable effect is the
  * call it makes.
  */
module MqttHandler {
  import opened Wrappers
  import opened Strs
  import opened Database
  import opened Filter

  const NodePrefix: char := '!'

  /** The arguments of one `node_callback(node, payload)` call. */
  datatype NodeStatus = NodeStatus(node: string, payload: string)

  /** The payload as text: UTF-8 when it decodes, else the printed bytes. */
  function PayloadText(payload: seq<int>, decode: seq<int> -> Option<string>, bytesRepr: seq<int> -> string): (r: string)
    ensures decode(payload).Some? ==> r == decode(payload).value
    ensures decode(payload).None? ==> r == bytesRepr(payload)
  {
    match decode(payload)
    case Some(text) => text
    case None => bytesRepr(payload)
  }

  class MqttHandler {
    /** The configured topic, such as "msh". */
    var topic: string
    var hasCallback: bool
    /** The filter the handler consults, if one is set. */
    var filter: Option<FilterKind>

    constructor (topic: string)
      ensures this.topic == topic && !hasCallback && filter == None
    {
      this.topic := topic;
      hasCallback := false;
      filter := None;
    }

    /** `set_node_callback(callback)` */
    method SetNodeCallback()
      modifies this
      ensures hasCallback && topic == old(topic) && filter == old(filter)
    {
      hasCallback := true;
    }

    /** `set_filter(filter_class)` */
    method SetFilter(kind: FilterKind)
      modifies this
      ensures filter == Some(kind) && topic == old(topic) && hasCallback == old(hasCallback)
    {
      filter := Some(kind);
    }

    /** `handler(topic, payload)`: the callback it makes, if any.  `filters` is the
        database's filter table. */
    method Handler(msgTopic: string, payload: string, filters: seq<FilterRecord>) returns (call: Option<NodeStatus>)
      ensures |Split(msgTopic, NodePrefix)| != 2 ==> call == None
      ensures call.Some? ==>
        var pieces := Split(msgTopic, NodePrefix);
        |pieces| == 2
        && call.value == NodeStatus([NodePrefix] + pieces[1], payload)
        && hasCallback
        && StartsWith(msgTopic, topic + "/2/stat/")
        && !(filter.Some? && Banned(filters, filter.value, call.value.node))
      ensures call.None? && |Split(msgTopic, NodePrefix)| == 2 ==>
        var node := [NodePrefix] + Split(msgTopic, NodePrefix)[1];
        (filter.Some? && Banned(filters, filter.value, node)) || !hasCallback || !StartsWith(msgTopic, topic + "/2/stat/")
    {
      var pieces := Split(msgTopic, NodePrefix);
      if |pieces| != 2 {
        return None;
      }
      var node := [NodePrefix] + pieces[1];
      if filter.Some? && Banned(filters, filter.value, node) {
        return None;
      }
      if hasCallback && StartsWith(msgTopic, topic + "/2/stat/") {
        return Some(NodeStatus(node, payload));
      }
      return None;
    }
  }

  /** A status topic naming one node reaches the callback with that node's id, unless banned. */
  lemma {:induction false} StatusTopicReported(topic: string, id: string, filters: seq<FilterRecord>, kind: FilterKind)
    requires NodePrefix !in topic && NodePrefix !in id
    requires !Banned(filters, kind, [NodePrefix] + id)
    ensures var msgTopic := topic + "/2/stat/" + [NodePrefix] + id;
      var pieces := Split(msgTopic, NodePrefix);
      |pieces| == 2 && [NodePrefix] + pieces[1] == [NodePrefix] + id
  {
    var msgTopic := topic + "/2/stat/" + [NodePrefix] + id;
    var head := topic + "/2/stat/";
    assert msgTopic == head + [NodePrefix] + id;
    SplitOnce(head, id, NodePrefix);
  }

  /** Splitting `a + [sep] + b` where neither side holds the separator gives exactly [a, b]. */
  lemma {:induction false} SplitOnce(a: string, b: string, sep: char)
    requires sep !in a && sep !in b
    ensures Split(a + [sep] + b, sep) == [a, b]
    decreases |a|
  {
    SplitNone(b, sep);
    var s := a + [sep] + b;
    if |a| == 0 {
      assert s[0] == sep && s[1..] == b;
    } else {
      SplitOnce(a[1..], b, sep);
      assert a[0] in a;
      assert s[0] == a[0] && s[1..] == a[1..] + [sep] + b;
      assert [a[0]] + a[1..] == a;
    }
  }

  lemma {:induction false} SplitNone(s: string, sep: char)
    requires sep !in s
    ensures Split(s, sep) == [s]
    decreases |s|
  {
    if |s| > 0 {
      assert s[0] in s;
      SplitNone(s[1..], sep);
      assert [s[0]] + s[1..] == s;
    }
  }
}
