/**
  * ITU call-sign prefix lookup (mtg/utils/rf/prefixes/__init__.py).
  *
  * Every country module defines a class whose `PREFIXES` list holds the call-sign
  * prefixes allotted to it.  The classes are discovered by walking the package,
  * so their order is an input here: `classes` lists each class's name and
  * prefixes in discovery order.  `get_prefixes` collects them into a dictionary
  * (kept in insertion order), and the two lookups search that dictionary.
  */
module Prefixes {
  import opened Wrappers
  import opened Strs

  /** One prefix class: its class name and its `PREFIXES`. */
  datatype Country = Country(name: string, prefixes: seq<string>)

  // ---------------------------------------------------------------- get_prefixes

  /** The position of the entry named `name`, if any. */
  function IndexOfName(table: seq<Country>, name: string): (r: Option<nat>)
    ensures r.Some? ==> r.value < |table| && table[r.value].name == name
    ensures r.None? ==> forall i :: 0 <= i < |table| ==> table[i].name != name
    decreases |table|
  {
    if |table| == 0 then None
    else if table[|table| - 1].name == name then Some(|table| - 1)
    else IndexOfName(table[..|table| - 1], name)
  }

  /** `prefixes[name] = value` on an insertion-ordered dictionary. */
  function Put(table: seq<Country>, c: Country): (r: seq<Country>)
    ensures IndexOfName(table, c.name).Some? ==> r == table[IndexOfName(table, c.name).value := c]
    ensures IndexOfName(table, c.name).None? ==> r == table + [c]
  {
    match IndexOfName(table, c.name)
    case Some(i) => table[i := c]
    case None => table + [c]
  }

  /** The dictionary `get_prefixes` builds from all the classes. */
  function Table(classes: seq<Country>): seq<Country>
    decreases |classes|
  {
    if |classes| == 0 then []
    else Put(Table(classes[..|classes| - 1]), classes[|classes| - 1])
  }

  ghost predicate DistinctNames(classes: seq<Country>) {
    forall i, j :: 0 <= i < j < |classes| ==> classes[i].name != classes[j].name
  }

  /** `get_prefixes()`: the first class without prefixes raises `RuntimeError`. */
  method GetPrefixes(classes: seq<Country>) returns (r: Result<seq<Country>>)
    ensures r.Ok? <==> forall i :: 0 <= i < |classes| ==> |classes[i].prefixes| > 0
    ensures r.Ok? ==> r.value == Table(classes)
    ensures r.Err? ==> exists i :: (0 <= i < |classes| && |classes[i].prefixes| == 0
      && (forall k :: 0 <= k < i ==> |classes[k].prefixes| > 0)
      && r.exc == RuntimeError("Class " + classes[i].name + " doesn't have prefixes assigned"))
  {
    var table: seq<Country> := [];
    for i := 0 to |classes|
      invariant table == Table(classes[..i])
      invariant forall k :: 0 <= k < i ==> |classes[k].prefixes| > 0
    {
      if |classes[i].prefixes| == 0 {
        return Err(RuntimeError("Class " + classes[i].name + " doesn't have prefixes assigned"));
      }
      assert classes[..i + 1][..i] == classes[..i];
      table := Put(table, classes[i]);
    }
    assert classes[..|classes|] == classes;
    return Ok(table);
  }

  /** With distinct class names the dictionary is the class list itself. */
  lemma {:induction false} DistinctTable(classes: seq<Country>)
    requires DistinctNames(classes)
    ensures Table(classes) == classes
    decreases |classes|
  {
    if |classes| > 0 {
      var init := classes[..|classes| - 1];
      DistinctTable(init);
      assert IndexOfName(init, classes[|classes| - 1].name).None?;
      assert init + [classes[|classes| - 1]] == classes;
    }
  }

  // ---------------------------------------------------------------- lookups

  /** Whether the upper-cased call sign starts with one of `prefixes`. */
  predicate AnyPrefix(prefixes: seq<string>, upper: string)
    decreases |prefixes|
  {
    |prefixes| > 0 && (StartsWith(upper, prefixes[0]) || AnyPrefix(prefixes[1..], upper))
  }

  /** `get_country_by_callsign` over the dictionary: the first country, in order,
      with a matching prefix. */
  function CountryByCallsign(countries: seq<Country>, callsign: string): (r: Option<string>)
    decreases |countries|
  {
    if |countries| == 0 then None
    else if AnyPrefix(countries[0].prefixes, Upper(callsign)) then Some(countries[0].name)
    else CountryByCallsign(countries[1..], callsign)
  }

  /** `get_prefixes_by_callsign` over the dictionary: that country's whole list. */
  function PrefixesByCallsign(countries: seq<Country>, callsign: string): (r: Option<seq<string>>)
    decreases |countries|
  {
    if |countries| == 0 then None
    else if AnyPrefix(countries[0].prefixes, Upper(callsign)) then Some(countries[0].prefixes)
    else PrefixesByCallsign(countries[1..], callsign)
  }

  /** The country found is the first one whose prefixes match; with none matching
      both lookups give None. */
  lemma {:induction false} FirstMatchWins(countries: seq<Country>, callsign: string)
    ensures CountryByCallsign(countries, callsign).None? <==>
      forall i :: 0 <= i < |countries| ==> !AnyPrefix(countries[i].prefixes, Upper(callsign))
    ensures CountryByCallsign(countries, callsign).Some? ==>
      exists i :: 0 <= i < |countries| && AnyPrefix(countries[i].prefixes, Upper(callsign))
        && (forall j :: 0 <= j < i ==> !AnyPrefix(countries[j].prefixes, Upper(callsign)))
        && CountryByCallsign(countries, callsign) == Some(countries[i].name)
        && PrefixesByCallsign(countries, callsign) == Some(countries[i].prefixes)
    decreases |countries|
  {
    if |countries| > 0 && !AnyPrefix(countries[0].prefixes, Upper(callsign)) {
      var rest := countries[1..];
      FirstMatchWins(rest, callsign);
      if CountryByCallsign(rest, callsign).Some? {
        var i :| 0 <= i < |rest| && AnyPrefix(rest[i].prefixes, Upper(callsign))
          && (forall j :: 0 <= j < i ==> !AnyPrefix(rest[j].prefixes, Upper(callsign)))
          && CountryByCallsign(rest, callsign) == Some(rest[i].name)
          && PrefixesByCallsign(rest, callsign) == Some(rest[i].prefixes);
        assert countries[i + 1] == rest[i];
        forall j | 0 <= j < i + 1 ensures !AnyPrefix(countries[j].prefixes, Upper(callsign)) {
          if j > 0 { assert countries[j] == rest[j - 1]; }
        }
      } else {
        forall i | 0 <= i < |countries| ensures !AnyPrefix(countries[i].prefixes, Upper(callsign)) {
          if i > 0 { assert countries[i] == rest[i - 1]; }
        }
      }
    }
  }

  /** Both lookups find something for exactly the same call signs. */
  lemma {:induction false} LookupsAgree(countries: seq<Country>, callsign: string)
    ensures CountryByCallsign(countries, callsign).Some? <==> PrefixesByCallsign(countries, callsign).Some?
    decreases |countries|
  {
    if |countries| > 0 {
      LookupsAgree(countries[1..], callsign);
    }
  }

  lemma UpperOfLowerChar(c: char)
    ensures UpperChar(LowerChar(c)) == UpperChar(c)
  {
  }

  /** Matching upper-cases the call sign, so its case never matters. */
  lemma {:induction false} CaseInsensitive(countries: seq<Country>, callsign: string)
    ensures CountryByCallsign(countries, Lower(callsign)) == CountryByCallsign(countries, callsign)
    ensures PrefixesByCallsign(countries, Lower(callsign)) == PrefixesByCallsign(countries, callsign)
    decreases |countries|
  {
    forall i | 0 <= i < |callsign| ensures Upper(Lower(callsign))[i] == Upper(callsign)[i] {
      UpperOfLowerChar(callsign[i]);
    }
    assert Upper(Lower(callsign)) == Upper(callsign);
    if |countries| > 0 {
      CaseInsensitive(countries[1..], callsign);
    }
  }

  /** 'SM' is listed both for Sweden and for Poland; the country met first wins. */
  lemma SharedPrefixGoesToFirst()
    ensures CountryByCallsign([Country("Sweden", ["SM"]), Country("Poland", ["SM", "SP"])], "sm5abc") == Some("Sweden")
    ensures CountryByCallsign([Country("Poland", ["SM", "SP"]), Country("Sweden", ["SM"])], "sm5abc") == Some("Poland")
  {
    assert Upper("sm5abc") == "SM5ABC";
    assert StartsWith("SM5ABC", "SM");
  }

  /** `get_country_by_callsign(callsign)`: `get_prefixes` errors propagate. */
  method GetCountryByCallsign(classes: seq<Country>, callsign: string) returns (r: Result<Option<string>>)
    ensures r.Err? <==> exists i :: 0 <= i < |classes| && |classes[i].prefixes| == 0
    ensures r.Ok? ==> r.value == CountryByCallsign(Table(classes), callsign)
  {
    var countries := GetPrefixes(classes);
    if countries.Err? {
      return Err(countries.exc);
    }
    if |countries.value| == 0 {
      return Ok(None);
    }
    return Ok(CountryByCallsign(countries.value, callsign));
  }

  /** `get_prefixes_by_callsign(callsign)` */
  method GetPrefixesByCallsign(classes: seq<Country>, callsign: string) returns (r: Result<Option<seq<string>>>)
    ensures r.Err? <==> exists i :: 0 <= i < |classes| && |classes[i].prefixes| == 0
    ensures r.Ok? ==> r.value == PrefixesByCallsign(Table(classes), callsign)
  {
    var countries := GetPrefixes(classes);
    if countries.Err? {
      return Err(countries.exc);
    }
    if |countries.value| == 0 {
      return Ok(None);
    }
    return Ok(PrefixesByCallsign(countries.value, callsign));
  }
}
