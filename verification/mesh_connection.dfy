/**
  * The Meshtastic device connection (mtg/connection/meshtastic/meshtastic.py):
  * the per-node MQTT status table, the views of the interface's node table,
  * the size rule of `send_text`, the compaction of the node table printed by
  * the library, and the command FIFO.
  *
  * The device interface is represented by its node table (`interface.nodes`)
  * and by the text `showNodes` prints, both given; the calls made on it are
  * returned as values.
  */
module MeshConnection {
  import opened Wrappers
  import opened Strs
  import opened Mesh
  import opened Database
  import opened Filter
  import Message

  // ---------------------------------------------------------------- node views

  /** `self.interface.nodes or {}` */
  function Nodes(interfaceNodes: Option<seq<NodeEntry>>): (r: seq<NodeEntry>)
    ensures interfaceNodes.None? ==> r == []
    ensures interfaceNodes.Some? ==> r == interfaceNodes.value
  {
    match interfaceNodes
    case None => []
    case Some(nodes) => nodes
  }

  /** `[self.nodes.get(node) for node in self.nodes]` */
  function WithInfo(nodes: seq<NodeEntry>): (r: seq<NodeInfo>)
    ensures |r| == |nodes|
  {
    seq(|nodes|, i requires 0 <= i < |nodes| =>
      assert GetNode(nodes, nodes[i].key).Some?;
      GetNode(nodes, nodes[i].key).value)
  }

  /** In a table with distinct keys, the i-th info is the i-th entry's own. */
  lemma {:induction false} WithInfoInOrder(nodes: seq<NodeEntry>)
    requires DistinctKeys(nodes)
    ensures forall i :: 0 <= i < |nodes| ==> WithInfo(nodes)[i] == nodes[i].info
  {
    forall i | 0 <= i < |nodes| ensures WithInfo(nodes)[i] == nodes[i].info {
      var r := GetNode(nodes, nodes[i].key);
      var j :| 0 <= j < |nodes| && nodes[j].key == nodes[i].key && nodes[j].info == r.value;
      assert j == i;
    }
  }

  /** The elements of `s` that satisfy `p`, in order. */
  function KeepWhere(s: seq<NodeInfo>, p: NodeInfo -> bool): (r: seq<NodeInfo>)
    ensures |r| <= |s|
    ensures forall x :: x in r <==> x in s && p(x)
    decreases |s|
  {
    if |s| == 0 then []
    else
      var rest := KeepWhere(s[..|s| - 1], p);
      var last := s[|s| - 1];
      assert s == s[..|s| - 1] + [last];
      if p(last) then rest + [last] else rest
  }

  /** `a` is `b` with some elements left out, the rest in the same order. */
  ghost predicate IsSubsequence(a: seq<NodeInfo>, b: seq<NodeInfo>)
    decreases |b|
  {
    |a| == 0
    || (|b| > 0
        && (IsSubsequence(a, b[..|b| - 1])
            || (a[|a| - 1] == b[|b| - 1] && IsSubsequence(a[..|a| - 1], b[..|b| - 1]))))
  }

  lemma {:induction false} KeepWhereSubsequence(s: seq<NodeInfo>, p: NodeInfo -> bool)
    ensures IsSubsequence(KeepWhere(s, p), s)
    decreases |s|
  {
    if |s| > 0 {
      KeepWhereSubsequence(s[..|s| - 1], p);
      var rest := KeepWhere(s[..|s| - 1], p);
      if p(s[|s| - 1]) {
        assert (rest + [s[|s| - 1]])[..|rest|] == rest;
      }
    }
  }

  /** Filtering twice is filtering once by both tests. */
  lemma {:induction false} KeepWhereTwice(s: seq<NodeInfo>, p: NodeInfo -> bool, q: NodeInfo -> bool, pq: NodeInfo -> bool)
    requires forall x :: pq(x) == (p(x) && q(x))
    ensures KeepWhere(KeepWhere(s, p), q) == KeepWhere(s, pq)
    decreases |s|
  {
    if |s| > 0 {
      var pre := s[..|s| - 1];
      var last := s[|s| - 1];
      KeepWhereTwice(pre, p, q, pq);
      var kp := KeepWhere(pre, p);
      if p(last) {
        assert (kp + [last])[..|kp|] == kp;
      }
    }
  }

  predicate PositionKnown(n: NodeInfo) { n.HasPosition() }
  predicate UserKnown(n: NodeInfo) { n.HasUser() }
  predicate PositionAndUser(n: NodeInfo) { n.HasPosition() && n.HasUser() }

  /** `nodes_with_position`: the infos whose `position` is truthy. */
  function WithPosition(nodes: seq<NodeEntry>): seq<NodeInfo> {
    KeepWhere(WithInfo(nodes), PositionKnown)
  }

  /** `nodes_with_user`: of those, the infos whose `user` is truthy. */
  function WithUser(nodes: seq<NodeEntry>): seq<NodeInfo> {
    KeepWhere(WithPosition(nodes), UserKnown)
  }

  /** The three views are nested in order: users within positions within all infos, and
      the user view is exactly the infos that have both a position and a user. */
  lemma {:induction false} ViewsNested(nodes: seq<NodeEntry>)
    ensures IsSubsequence(WithPosition(nodes), WithInfo(nodes))
    ensures IsSubsequence(WithUser(nodes), WithPosition(nodes))
    ensures WithUser(nodes) == KeepWhere(WithInfo(nodes), PositionAndUser)
    ensures IsSubsequence(WithUser(nodes), WithInfo(nodes))
  {
    KeepWhereSubsequence(WithInfo(nodes), PositionKnown);
    KeepWhereSubsequence(WithPosition(nodes), UserKnown);
    KeepWhereTwice(WithInfo(nodes), PositionKnown, UserKnown, PositionAndUser);
    KeepWhereSubsequence(WithInfo(nodes), PositionAndUser);
  }

  // ---------------------------------------------------------------- send_text

  /** `send_text(msg, **kwargs)`: one direct `sendText` below half the payload size,
      otherwise `split_message` with half the payload size as the limit. */
  method SendText<K>(msg: string, payloadLen: nat, kwargs: K) returns (r: Result<seq<Message.Call<K>>>)
    ensures |msg| < payloadLen / 2 ==> r == Ok([Message.Call(msg, kwargs)])
    ensures |msg| >= payloadLen / 2 && !Message.DividesByZero(msg, payloadLen / 2) ==>
      var texts := Message.Emitted(Message.Parts(msg, payloadLen / 2), payloadLen / 2);
      r.Ok? && |r.value| == |texts| && forall i :: 0 <= i < |texts| ==> r.value[i] == Message.Call(texts[i], kwargs)
    ensures |msg| >= payloadLen / 2 && Message.DividesByZero(msg, payloadLen / 2) ==> r == Err(ZeroDivisionError)
    ensures payloadLen >= 2 && r.Ok? ==> forall i :: 0 <= i < |r.value| ==> |r.value[i].text| <= payloadLen / 2
  {
    var half := payloadLen / 2;
    if |msg| < half {
      return Ok([Message.Call(msg, kwargs)]);
    }
    r := Message.SplitMessage(msg, half, kwargs);
    if half > 0 {
      Message.CallsWithinLimit(Message.Parts(msg, half), half);
    }
  }

  // ---------------------------------------------------------------- format_nodes

  /** The box-drawing characters `format_nodes` removes. */
  const BoxChars: set<char> := {
    '\U{2552}', '\U{2550}', '\U{2564}', '\U{2555}', '\U{2558}', '\U{2567}', '\U{255B}',
    '\U{255E}', '\U{256A}', '\U{2561}', '\U{251C}', '\U{2500}', '\U{253C}', '\U{2524}'}

  /** The vertical rule, which becomes a comma. */
  const VerticalRule: char := '\U{2502}'

  /** The printed table with rules removed and column separators turned into commas. */
  function CleanTable(table: string): (r: string)
    ensures forall i :: 0 <= i < |r| ==> r[i] !in BoxChars && r[i] != VerticalRule
    decreases |table|
  {
    if |table| == 0 then ""
    else if table[0] in BoxChars then CleanTable(table[1..])
    else [if table[0] == VerticalRule then ',' else table[0]] + CleanTable(table[1..])
  }

  /** `line.lstrip(',').rstrip(',').rstrip('\n')` */
  function CleanLine(line: string): string {
    RStrip(RStrip(LStrip(line, {','}), {','}), {'\n'})
  }

  /** One column after `strip()`: in the header every column is bold with its dots
      escaped; in other rows only the first column, followed by a backtick. */
  function FormatColumn(column: string, i: nat, header: bool): string {
    if i != 0 then column
    else if header then ReplaceAll("**" + column + "**", ".", "\\.")
    else BoldFirst(column)
  }

  /** The first column of a row after the header: bold, then a backtick. */
  function BoldFirst(column: string): (r: string)
    ensures |r| == |column| + 5 && r[|r| - 1] == '`'
  {
    "**" + column + "**`"
  }

  /** The entries of `new_line`: the counter `i` only advances outside the header. */
  function FormattedColumns(columns: seq<string>, header: bool): (r: seq<string>)
    ensures |r| == |columns|
  {
    seq(|columns|, k requires 0 <= k < |columns| =>
      FormatColumn(Strip(columns[k]), if header then 0 else k, header) + ", ")
  }

  /** One reassembled line; `rstrip(', ')` removes any trailing commas and spaces. */
  function FormatRow(line: string, header: bool): string {
    var joined := RStrip(Message.Concat(FormattedColumns(Split(line, ','), header)), {',', ' '});
    if header then joined else joined + "`"
  }

  /** `new_nodes`: empty lines are skipped and only the first kept line is the header. */
  function FormatRows(lines: seq<string>, header: bool): seq<string>
    decreases |lines|
  {
    if |lines| == 0 then []
    else if CleanLine(lines[0]) == "" then FormatRows(lines[1..], header)
    else [FormatRow(CleanLine(lines[0]), header)] + FormatRows(lines[1..], false)
  }

  /** The filter loop reads the fourth ", "-separated field of every row. */
  predicate RowsIndexable(rows: seq<string>) {
    forall k :: 0 <= k < |rows| ==> |SplitStr(rows[k], ", ")| >= 4
  }

  /** What `format_nodes` returns for the text `showNodes` printed (None for no table). */
  function FormattedTable(table: Option<string>): (r: Result<string>)
    ensures table.None? || table == Some("") ==> r == Ok("No other nodes")
    ensures r.Err? ==> r.exc == IndexError
  {
    if table.None? || table.value == "" then Ok("No other nodes")
    else
      var rows := FormatRows(Split(CleanTable(table.value), '\n'), true);
      if RowsIndexable(rows) then Ok(Join(rows, "\n")) else Err(IndexError)
  }

  lemma ColumnAt(columns: seq<string>, header: bool, k: int)
    requires 0 <= k < |columns|
    ensures FormattedColumns(columns, header)[k] == FormatColumn(Strip(columns[k]), if header then 0 else k, header) + ", "
  {
  }

  lemma PrefixStep<T>(xs: seq<T>, k: int)
    requires 0 <= k < |xs|
    ensures xs[..k + 1] == xs[..k] + [xs[k]]
  {
  }

  /** The column loop of `format_nodes` for one line. */
  method FormatLine(line: string, header: bool) returns (row: string)
    ensures row == FormatRow(line, header)
  {
    var columns := Split(line, ',');
    ghost var expected := FormattedColumns(columns, header);
    var i: nat := 0;
    var newLine: seq<string> := [];
    var k := 0;
    while k < |columns|
      invariant 0 <= k <= |columns|
      invariant i == if header then 0 else k
      invariant newLine == expected[..k]
    {
      var column := Strip(columns[k]);
      if i == 0 {
        column := if header then ReplaceAll("**" + column + "**", ".", "\\.") else "**" + column + "**`";
      }
      assert column == FormatColumn(Strip(columns[k]), i, header);
      ColumnAt(columns, header, k);
      PrefixStep(expected, k);
      newLine := newLine + [column + ", "];
      if !header {
        i := i + 1;
      }
      k := k + 1;
    }
    assert newLine == expected;
    var reassembled := RStrip(Message.Concat(newLine), {',', ' '});
    row := if header then reassembled else reassembled + "`";
  }

  /** One line of the rest: skipped when blank, else formatted with the current flag. */
  lemma FormatRowsStep(lines: seq<string>, j: int, header: bool)
    requires 0 <= j < |lines|
    ensures FormatRows(lines[j..], header) ==
      if CleanLine(lines[j]) == "" then FormatRows(lines[j + 1..], header)
      else [FormatRow(CleanLine(lines[j]), header)] + FormatRows(lines[j + 1..], false)
  {
    assert lines[j..][1..] == lines[j + 1..];
  }

  lemma RowsAppend(done: seq<string>, row: string, rest: seq<string>)
    ensures done + ([row] + rest) == (done + [row]) + rest
  {
  }

  /** The line loop of `format_nodes`: the rows built so far and the `header` flag. */
  method BuildRows(lines: seq<string>) returns (newNodes: seq<string>)
    ensures newNodes == FormatRows(lines, true)
  {
    newNodes := [];
    var header := true;
    var j := 0;
    while j < |lines|
      invariant 0 <= j <= |lines|
      invariant newNodes + FormatRows(lines[j..], header) == FormatRows(lines, true)
    {
      FormatRowsStep(lines, j, header);
      var line := CleanLine(lines[j]);
      if line != "" {
        var row := FormatLine(line, header);
        RowsAppend(newNodes, row, FormatRows(lines[j + 1..], false));
        newNodes := newNodes + [row];
        header := false;
      }
      j := j + 1;
    }
  }

  /** The filter loop of `format_nodes`: it reads the node id in the fourth field of every
      row and asks the filter about ids starting with "!"; the rows it keeps are discarded. */
  method FilterRows(rows: seq<string>, filters: seq<FilterRecord>, kind: FilterKind) returns (indexable: bool)
    ensures indexable == RowsIndexable(rows)
  {
    var filtered: seq<string> := [];
    var k := 0;
    while k < |rows|
      invariant 0 <= k <= |rows|
      invariant forall m :: 0 <= m < k ==> |SplitStr(rows[m], ", ")| >= 4
    {
      var pieces := SplitStr(rows[k], ", ");
      if |pieces| < 4 {
        return false;
      }
      var nodeId := pieces[3];
      if StartsWith(nodeId, "!") && !Banned(filters, kind, nodeId) {
        filtered := filtered + [rows[k]];
      }
      k := k + 1;
    }
    return true;
  }

  /** Rows whose first column is bold: `**<first column>**` then a backtick, and a closing
      backtick at the end of the row. */
  lemma {:induction false} DataRowShape(line: string)
    ensures var first := Strip(Split(line, ',')[0]);
      StartsWith(FormatRow(line, false), BoldFirst(first)) && EndsWith(FormatRow(line, false), "`")
  {
    var columns := Split(line, ',');
    var cols := FormattedColumns(columns, false);
    assert cols[0] == BoldFirst(Strip(columns[0])) + ", ";
    ClosedRow(cols, BoldFirst(Strip(columns[0])));
  }

  /** Trailing commas and spaces never reach back into a first entry ending in a backtick. */
  lemma {:induction false} ClosedRow(cols: seq<string>, head: string)
    requires |cols| > 0 && cols[0] == head + ", "
    requires |head| > 0 && head[|head| - 1] == '`'
    ensures StartsWith(RStrip(Message.Concat(cols), {',', ' '}) + "`", head)
    ensures EndsWith(RStrip(Message.Concat(cols), {',', ' '}) + "`", "`")
  {
    ConcatStartsWith(cols);
    var joined := Message.Concat(cols);
    assert joined[..|cols[0]|] == cols[0];
    assert joined[|head| - 1] == cols[0][|head| - 1] == '`';
    RStripKeeps(joined, {',', ' '}, |head|);
    var r := RStrip(joined, {',', ' '});
    assert r[..|head|] == joined[..|head|] == head;
    var row := r + "`";
    assert row[..|head|] == head;
    assert row[|row| - 1..] == "`";
  }

  lemma {:induction false} ConcatStartsWith(xs: seq<string>)
    requires |xs| > 0
    ensures StartsWith(Message.Concat(xs), xs[0])
    decreases |xs|
  {
    if |xs| > 1 {
      ConcatStartsWith(xs[..|xs| - 1]);
      var pre := Message.Concat(xs[..|xs| - 1]);
      assert (pre + xs[|xs| - 1])[..|xs[0]|] == pre[..|xs[0]|];
    }
  }

  /** `rstrip` never removes a character outside its set, nor anything before it. */
  lemma {:induction false} RStripKeeps(s: string, chars: set<char>, p: nat)
    requires 0 < p <= |s| && s[p - 1] !in chars
    ensures |RStrip(s, chars)| >= p
    decreases |s|
  {
    if s[|s| - 1] in chars {
      RStripKeeps(s[..|s| - 1], chars, p);
    }
  }

  /** `new_nodes` has one row per line that is not empty after cleaning. */
  lemma {:induction false} OneRowPerLine(lines: seq<string>, header: bool)
    ensures |FormatRows(lines, header)| == CountNonEmpty(lines)
    decreases |lines|
  {
    if |lines| > 0 {
      OneRowPerLine(lines[1..], false);
      OneRowPerLine(lines[1..], header);
    }
  }

  function CountNonEmpty(lines: seq<string>): nat
    decreases |lines|
  {
    if |lines| == 0 then 0 else (if CleanLine(lines[0]) == "" then 0 else 1) + CountNonEmpty(lines[1..])
  }

  // ---------------------------------------------------------------- commands

  /** What a line of the command FIFO asks of the device. */
  datatype Command = Reboot | ResetDb

  /** The checks of `run_cmd_loop` for one line: both prefixes are tested. */
  function LineCommands(line: string): (r: seq<Command>)
    ensures Reboot in r <==> StartsWith(RStrip(line, {'\n'}), "reboot")
    ensures ResetDb in r <==> StartsWith(RStrip(line, {'\n'}), "reset_db")
    ensures |r| <= 1
  {
    var text := RStrip(line, {'\n'});
    assert StartsWith(text, "reboot") ==> text[2] == 'b';
    assert StartsWith(text, "reset_db") ==> text[2] == 's';
    (if StartsWith(text, "reboot") then [Reboot] else [])
    + (if StartsWith(text, "reset_db") then [ResetDb] else [])
  }

  function AllCommands(lines: seq<string>): seq<Command>
    decreases |lines|
  {
    if |lines| == 0 then [] else AllCommands(lines[..|lines| - 1]) + LineCommands(lines[|lines| - 1])
  }

  /** The device is rebooted once for every line starting "reboot". */
  lemma {:induction false} RebootPerLine(lines: seq<string>)
    ensures multiset(AllCommands(lines))[Reboot] == CountPrefixed(lines, "reboot")
    decreases |lines|
  {
    if |lines| > 0 {
      RebootPerLine(lines[..|lines| - 1]);
    }
  }

  function CountPrefixed(lines: seq<string>, prefix: string): nat
    decreases |lines|
  {
    if |lines| == 0 then 0
    else CountPrefixed(lines[..|lines| - 1], prefix)
         + (if StartsWith(RStrip(lines[|lines| - 1], {'\n'}), prefix) then 1 else 0)
  }

  // ---------------------------------------------------------------- the connection object

  class MeshtasticConnection {
    /** `interface.nodes`: None before the device reports its table. */
    var interfaceNodes: Option<seq<NodeEntry>>
    /** `mqtt_nodes`: its keys in insertion order and the status of each. */
    var mqttKeys: seq<string>
    var mqttStatus: map<string, string>
    var filter: FilterKind
    var exit: bool

    ghost predicate Valid()
      reads this
    {
      (forall i, j :: 0 <= i < j < |mqttKeys| ==> mqttKeys[i] != mqttKeys[j])
      && (forall k :: k in mqttStatus <==> k in mqttKeys)
    }

    constructor (filter: FilterKind)
      ensures Valid() && mqttKeys == [] && mqttStatus == map[] && !exit
      ensures interfaceNodes == None && this.filter == filter
    {
      interfaceNodes := None;
      mqttKeys := [];
      mqttStatus := map[];
      this.filter := filter;
      exit := false;
    }

    /** `on_mqtt_node(node_id, payload)`: a new key goes to the end, a known key keeps its place. */
    method OnMqttNode(nodeId: string, payload: string)
      requires Valid()
      modifies this
      ensures Valid()
      ensures mqttStatus == old(mqttStatus)[nodeId := payload]
      ensures mqttKeys == if nodeId in old(mqttStatus) then old(mqttKeys) else old(mqttKeys) + [nodeId]
      ensures interfaceNodes == old(interfaceNodes) && filter == old(filter) && exit == old(exit)
    {
      if nodeId !in mqttStatus {
        mqttKeys := mqttKeys + [nodeId];
      }
      mqttStatus := mqttStatus[nodeId := payload];
    }

    /** `nodes_mqtt`: the keys, each once, in insertion order. */
    method NodesMqtt() returns (keys: seq<string>)
      requires Valid()
      ensures forall k :: k in keys <==> k in mqttStatus
      ensures forall i, j :: 0 <= i < j < |keys| ==> keys[i] != keys[j]
      ensures keys == mqttKeys
    {
      keys := mqttKeys;
    }

    /** `node_has_mqtt(node_id)` */
    method NodeHasMqtt(nodeId: string) returns (b: bool)
      ensures b <==> nodeId in mqttStatus
    {
      b := nodeId in mqttStatus;
    }

    /** `node_mqtt_status(node_id)`: the stored status, or "N/A". */
    method NodeMqttStatus(nodeId: string) returns (s: string)
      ensures nodeId in mqttStatus ==> s == mqttStatus[nodeId]
      ensures nodeId !in mqttStatus ==> s == "N/A"
    {
      s := if nodeId in mqttStatus then mqttStatus[nodeId] else "N/A";
    }

    /** `format_nodes()` for the table `showNodes` printed: the filter is consulted for
        rows whose fourth field is a node id, but every row is returned. */
    method FormatNodes(table: Option<string>, filters: seq<FilterRecord>) returns (r: Result<string>)
      ensures r == FormattedTable(table)
    {
      if table.None? || table.value == "" {
        return Ok("No other nodes");
      }
      var newNodes := BuildRows(Split(CleanTable(table.value), '\n'));
      var indexable := FilterRows(newNodes, filters, filter);
      if !indexable {
        return Err(IndexError);
      }
      return Ok(Join(newNodes, "\n"));
    }

    /** One pass of `run_cmd_loop` over the lines read from the command FIFO. */
    method RunCmdLoop(lines: seq<string>) returns (commands: seq<Command>)
      ensures commands == AllCommands(lines)
    {
      commands := [];
      for i := 0 to |lines|
        invariant commands == AllCommands(lines[..i])
      {
        assert lines[..i + 1][..i] == lines[..i];
        var line := RStrip(lines[i], {'\n'});
        if StartsWith(line, "reboot") {
          commands := commands + [Reboot];
        }
        if StartsWith(line, "reset_db") {
          commands := commands + [ResetDb];
        }
      }
      assert lines[..|lines|] == lines;
    }

    /** `shutdown()` */
    method Shutdown()
      modifies this
      ensures exit
      ensures interfaceNodes == old(interfaceNodes) && mqttKeys == old(mqttKeys)
      ensures mqttStatus == old(mqttStatus) && filter == old(filter)
    {
      exit := true;
    }
  }
}
