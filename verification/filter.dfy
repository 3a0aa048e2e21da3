/**
  * Ban lists (mtg/filter/filter.py).
  *
  * Each filter class differs only in the connection type it looks records up
  * under; `banned(identifier)` asks the database for the filter record of that
  * (connection type, identifier) pair and answers with its `active` flag.  The
  * database's filter table is passed as a value.
  */
module Filter {
  import opened Wrappers
  import opened Database

  /** The filter classes: `Filter`, `TelegramFilter`, `MeshtasticFilter`, `CallSignFilter`. */
  datatype FilterKind = Base | Telegram | Meshtastic | CallSign

  /** The class attribute `connection_type` each filter class sets. */
  function ConnectionType(kind: FilterKind): (r: string)
    ensures kind == Base <==> r == ""
    ensures kind == Telegram <==> r == "Telegram"
    ensures kind == Meshtastic <==> r == "Meshtastic"
    ensures kind == CallSign <==> r == "Callsign"
  {
    match kind
    case Base => ""
    case Telegram => "Telegram"
    case Meshtastic => "Meshtastic"
    case CallSign => "Callsign"
  }

  /** `banned(identifier)`: the record's `active` flag, or false when there is no record. */
  function Banned(filters: seq<FilterRecord>, kind: FilterKind, identifier: string): (r: bool)
    ensures r ==> exists f :: f in filters && f.connection == ConnectionType(kind) && f.item == identifier && f.active
    ensures (forall f :: f in filters ==> !(f.connection == ConnectionType(kind) && f.item == identifier)) ==> !r
  {
    match GetFilter(filters, ConnectionType(kind), identifier)
    case None => false
    case Some(record) => record.active
  }

  /** With a single record for the pair, `banned` answers with exactly its `active` flag. */
  lemma {:induction false} SingleRecordDecides(filters: seq<FilterRecord>, kind: FilterKind, identifier: string, i: nat)
    requires i < |filters| && filters[i].connection == ConnectionType(kind) && filters[i].item == identifier
    requires forall j :: 0 <= j < |filters| && j != i ==>
      !(filters[j].connection == ConnectionType(kind) && filters[j].item == identifier)
    ensures Banned(filters, kind, identifier) == filters[i].active
  {
    var r := GetFilter(filters, ConnectionType(kind), identifier);
    assert r.Some?;
    var k :| 0 <= k < |filters| && filters[k] == r.value;
    assert k == i;
  }

  /** Adding a record for one connection type changes no answer for another. */
  lemma {:induction false} KindsIndependent(filters: seq<FilterRecord>, added: FilterRecord,
                                            kind: FilterKind, identifier: string)
    requires added.connection != ConnectionType(kind)
    ensures Banned(filters + [added], kind, identifier) == Banned(filters, kind, identifier)
  {
    GetFilterAppend(filters, added, ConnectionType(kind), identifier);
  }

  lemma {:induction false} GetFilterAppend(filters: seq<FilterRecord>, added: FilterRecord, connection: string, item: string)
    requires !(added.connection == connection && added.item == item)
    ensures GetFilter(filters + [added], connection, item) == GetFilter(filters, connection, item)
    decreases |filters|
  {
    if |filters| > 0 {
      assert (filters + [added])[1..] == filters[1..] + [added];
      GetFilterAppend(filters[1..], added, connection, item);
    }
  }
}
