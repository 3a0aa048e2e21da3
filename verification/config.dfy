/**
  * Two-level configuration access (mtg/config/config.py).
  *
  * `config.Section.Key` is served by `__getattr__`: the first access records the
  * section name in `elements` and returns the object itself, the second looks the
  * pair up in the parsed INI file and resets `elements`.  The INI file is given as
  * already parsed sections; option names are folded to lower case and missing
  * options fall back to the DEFAULT section, as Python's ConfigParser does.  The
  * parser is a plain `ConfigParser()`, so every value read goes through its
  * basic interpolation: "%%" reads as "%", "%(name)s" as another option's value,
  * and any other "%" raises.
  */
module Config {
  import opened Wrappers
  import opened Strs

  /** Parsed INI sections: section name to (lower-case option name to raw value). */
  type Sections = map<string, map<string, string>>

  /** The type argument of `enforce_type`. */
  datatype ValueType = BoolType | IntType | FloatType | StrType

  datatype Value = BoolValue(b: bool) | IntValue(i: int) | FloatValue(r: real) | StrValue(s: string)

  /** `config[section][option]`: `None` where ConfigParser raises `KeyError`. */
  function LookupOption(s: Sections, section: string, option: string): (r: Option<string>)
    ensures section != "DEFAULT" && section !in s ==> r == None
    ensures section in s && Lower(option) in s[section] ==> r == Some(s[section][Lower(option)])
  {
    var key := Lower(option);
    var defaults := if "DEFAULT" in s then s["DEFAULT"] else map[];
    if section != "DEFAULT" && section !in s then None
    else if section in s && key in s[section] then Some(s[section][key])
    else if key in defaults then Some(defaults[key])
    else None
  }

  // ---------------------------------------------------------------- interpolation

  /** `configparser.MAX_INTERPOLATION_DEPTH` */
  const MaxDepth: nat := 10

  /** The options a reference may name: the section's own, over those of DEFAULT. */
  function Vars(s: Sections, section: string): (m: map<string, string>)
    ensures section in s ==> forall k :: k in s[section] ==> k in m && m[k] == s[section][k]
  {
    (if "DEFAULT" in s then s["DEFAULT"] else map[]) + (if section in s then s[section] else map[])
  }

  /** The position of the first ")" in `s`, or `|s|` when there is none. */
  function CloseAt(s: string): (i: nat)
    ensures i <= |s|
    ensures forall k :: 0 <= k < i ==> s[k] != ')'
    ensures i < |s| ==> s[i] == ')'
    decreases |s|
  {
    if |s| == 0 || s[0] == ')' then 0 else 1 + CloseAt(s[1..])
  }

  /** `_KEYCRE.match` on what follows "%(": a non-empty name up to the first ")",
      which must be followed by "s"; the name and the text after the reference. */
  function Reference(s: string): (r: Option<(string, string)>)
    ensures r.Some? ==> |r.value.0| > 0 && ')' !in r.value.0 && s == r.value.0 + ")s" + r.value.1
  {
    var i := CloseAt(s);
    if 0 < i && i + 1 < |s| && s[i + 1] == 's' then
      assert s == s[..i] + ")s" + s[i + 2..];
      Some((s[..i], s[i + 2..]))
    else None
  }

  /** `p + r` for a successful `r`. */
  function Prefixed(p: string, r: Result<string>): Result<string> {
    match r
    case Ok(t) => Ok(p + t)
    case Err(e) => Err(e)
  }

  /**
    * `BasicInterpolation._interpolate_some` on `rest` at nesting `depth`: text up to
    * a "%" is kept, "%%" gives "%", "%(name)s" gives the option `name` (lower-cased),
    * itself interpolated one level deeper when it holds a "%"; a "%" followed by
    * anything else, a malformed reference, a missing option and a nesting deeper
    * than `MaxDepth` raise.
    */
  function Interpolate(vars: map<string, string>, rest: string, depth: nat): (r: Result<string>)
    decreases MaxDepth + 1 - depth, |rest|
  {
    if depth > MaxDepth then Err(InterpolationDepthError)
    else if |rest| == 0 then Ok("")
    else if rest[0] != '%' then Prefixed([rest[0]], Interpolate(vars, rest[1..], depth))
    else if |rest| >= 2 && rest[1] == '%' then Prefixed("%", Interpolate(vars, rest[2..], depth))
    else if |rest| >= 2 && rest[1] == '(' then
      match Reference(rest[2..])
      case None => Err(InterpolationSyntaxError)
      case Some((name, after)) =>
        var key := Lower(name);
        if key !in vars then Err(InterpolationMissingOptionError)
        else
          var v := vars[key];
          var head := if '%' in v then Interpolate(vars, v, depth + 1) else Ok(v);
          match head
          case Err(e) => Err(e)
          case Ok(h) => Prefixed(h, Interpolate(vars, after, depth))
    else Err(InterpolationSyntaxError)
  }

  /** A value without "%" reads as written. */
  lemma {:induction false} NoPercentKept(vars: map<string, string>, v: string, depth: nat)
    requires '%' !in v && depth <= MaxDepth
    ensures Interpolate(vars, v, depth) == Ok(v)
    decreases |v|
  {
    if |v| > 0 {
      NoPercentKept(vars, v[1..], depth);
      assert [v[0]] + v[1..] == v;
    }
  }

  /** The value with every "%" doubled, as it must be written to read as `s`. */
  function Escape(s: string): (r: string)
    ensures |r| >= |s|
    decreases |s|
  {
    if |s| == 0 then ""
    else if s[0] == '%' then "%%" + Escape(s[1..])
    else [s[0]] + Escape(s[1..])
  }

  /** Doubling every "%" is undone by the interpolation. */
  lemma {:induction false} EscapeRoundTrip(vars: map<string, string>, s: string, depth: nat)
    requires depth <= MaxDepth
    ensures Interpolate(vars, Escape(s), depth) == Ok(s)
    decreases |s|
  {
    if |s| > 0 {
      var e := Escape(s);
      EscapeRoundTrip(vars, s[1..], depth);
      if s[0] == '%' {
        assert e[2..] == Escape(s[1..]);
      } else {
        assert e[1..] == Escape(s[1..]);
      }
      assert [s[0]] + s[1..] == s;
    }
  }

  /** A "%" that starts neither "%%" nor "%(" raises, whatever follows it. */
  lemma {:induction false} LonePercentRaises(vars: map<string, string>, pre: string, post: string, depth: nat)
    requires '%' !in pre && depth <= MaxDepth
    requires |post| == 0 || (post[0] != '%' && post[0] != '(')
    ensures Interpolate(vars, pre + "%" + post, depth) == Err(InterpolationSyntaxError)
    decreases |pre|
  {
    var v := pre + "%" + post;
    if |pre| > 0 {
      assert v[1..] == pre[1..] + "%" + post;
      LonePercentRaises(vars, pre[1..], post, depth);
    } else {
      assert v == "%" + post;
      assert |v| >= 2 ==> v[1] == post[0];
    }
  }

  /** "%(name)s" reads as the value of the option `name` when that value has no "%". */
  lemma ReferenceExpanded(vars: map<string, string>, name: string, depth: nat)
    requires |name| > 0 && ')' !in name && depth <= MaxDepth
    requires Lower(name) in vars && '%' !in vars[Lower(name)]
    ensures Interpolate(vars, "%(" + name + ")s", depth) == Ok(vars[Lower(name)])
  {
    var v := "%(" + name + ")s";
    assert v[2..] == name + ")s" + "";
    assert Reference(v[2..]) == Some((name, "")) by {
      var r := Reference(v[2..]);
      assert CloseAt(v[2..]) == |name| by {
        assert v[2..][|name|] == ')';
        assert forall k :: 0 <= k < |name| ==> v[2..][k] == name[k];
      }
      assert v[2..][..|name|] == name;
    }
    assert vars[Lower(name)] + "" == vars[Lower(name)];
  }

  /** A map-link template with a bare "%s" cannot be read; written with "%%s" it
      reads as the template with "%s". */
  lemma MapLinkTemplates(vars: map<string, string>)
    ensures Interpolate(vars, "m/%s", 1) == Err(InterpolationSyntaxError)
    ensures Interpolate(vars, "m/%%s", 1) == Ok("m/%s")
  {
    LonePercentRaises(vars, "m/", "s", 1);
    assert "m/" + "%" + "s" == "m/%s";
    EscapeRoundTrip(vars, "m/%s", 1);
    assert Escape("m/%s") == "m/%%s" by {
      assert Escape("s") == "s";
      assert Escape("%s") == "%%s";
      assert Escape("/%s") == "/%%s";
    }
  }

  /** `config[section][option]`: `KeyError` for a missing section or option, else the
      interpolated value. */
  function GetOption(s: Sections, section: string, option: string): (r: Result<string>)
    ensures LookupOption(s, section, option).None? ==> r == Err(KeyError)
    ensures LookupOption(s, section, option).Some? && '%' !in LookupOption(s, section, option).value ==>
      r == Ok(LookupOption(s, section, option).value)
    ensures r.Err? ==> r.exc in {KeyError, InterpolationSyntaxError, InterpolationMissingOptionError, InterpolationDepthError}
  {
    match LookupOption(s, section, option)
    case None => Err(KeyError)
    case Some(v) =>
      InterpolationFails(Vars(s, section), v, 1);
      if '%' in v then Interpolate(Vars(s, section), v, 1)
      else NoPercentKept(Vars(s, section), v, 1); Interpolate(Vars(s, section), v, 1)
  }

  /** Interpolation raises only its own three exceptions. */
  lemma {:induction false} InterpolationFails(vars: map<string, string>, rest: string, depth: nat)
    ensures Interpolate(vars, rest, depth).Err? ==>
      Interpolate(vars, rest, depth).exc in {InterpolationSyntaxError, InterpolationMissingOptionError, InterpolationDepthError}
    decreases MaxDepth + 1 - depth, |rest|
  {
    if depth <= MaxDepth && |rest| > 0 {
      if rest[0] != '%' {
        InterpolationFails(vars, rest[1..], depth);
      } else if |rest| >= 2 && rest[1] == '%' {
        InterpolationFails(vars, rest[2..], depth);
      } else if |rest| >= 2 && rest[1] == '(' && Reference(rest[2..]).Some? {
        var (name, after) := Reference(rest[2..]).value;
        if Lower(name) in vars {
          if '%' in vars[Lower(name)] {
            InterpolationFails(vars, vars[Lower(name)], depth + 1);
          }
          InterpolationFails(vars, after, depth);
        }
      }
    }
  }

  // ---------------------------------------------------------------- enforce_type

  /**
    * `Config.enforce_type(value_type, value)`.  `bool` compares the lower-cased
    * text with "true"; `int` is Python's `int()` on a decimal literal with optional
    * sign and surrounding whitespace; `float` is Python's `float()`, a parameter.
    */
  function EnforceType(t: ValueType, value: string, parseFloat: string -> Option<real>): (r: Result<Value>)
    ensures t == BoolType ==> r == Ok(BoolValue(Lower(value) == "true"))
    ensures t == StrType ==> r == Ok(StrValue(value))
    ensures r.Err? ==> r.exc == ValueError && (t == IntType || t == FloatType)
  {
    match t
    case BoolType => Ok(BoolValue(Lower(value) == "true"))
    case IntType =>
      (match ParseInt(Strip(value))
       case Some(i) => Ok(IntValue(i))
       case None => Err(ValueError))
    case FloatType =>
      (match parseFloat(value)
       case Some(x) => Ok(FloatValue(x))
       case None => Err(ValueError))
    case StrType => Ok(StrValue(value))
  }

  lemma {:induction false} LowerOfUpper(s: string)
    ensures Lower(Upper(s)) == Lower(s)
  {
    assert |Lower(Upper(s))| == |Lower(s)|;
    forall i | 0 <= i < |s| ensures Lower(Upper(s))[i] == Lower(s)[i] {
    }
  }

  /** The boolean conversion ignores case: "TRUE", "True" and "true" agree. */
  lemma BoolIgnoresCase(value: string, parseFloat: string -> Option<real>)
    ensures EnforceType(BoolType, Upper(value), parseFloat) == EnforceType(BoolType, value, parseFloat)
  {
    LowerOfUpper(value);
  }

  lemma {:induction false} NoSpaceInNumber(i: int)
    ensures Strip(IntToString(i)) == IntToString(i)
  {
    var s := IntToString(i);
    assert !IsSpace(s[0]);
    assert !IsSpace(s[|s| - 1]) by {
      if i < 0 {
        assert s[|s| - 1] == NatToString(-i)[|NatToString(-i)| - 1];
      }
    }
  }

  /** Converting the decimal text of an integer gives back that integer. */
  lemma IntRoundTrip(i: int, parseFloat: string -> Option<real>)
    ensures EnforceType(IntType, IntToString(i), parseFloat) == Ok(IntValue(i))
  {
    var text := IntToString(i);
    NoSpaceInNumber(i);
    Strs.IntRoundTrip(i);
    IntOfParsed(text, i, parseFloat);
  }

  lemma IntOfParsed(value: string, i: int, parseFloat: string -> Option<real>)
    requires ParseInt(Strip(value)) == Some(i)
    ensures EnforceType(IntType, value, parseFloat) == Ok(IntValue(i))
  {
  }

  // ---------------------------------------------------------------- __getattr__

  /** What an attribute access yields: the object itself, a value, or an exception. */
  datatype Access = Proxy | Found(value: string) | Raised(exc: Exc)

  /** One `__getattr__(attr)`: the result and the new `elements`. */
  function AttrStep(config: Option<Sections>, elements: seq<string>, attr: string): (r: (Access, seq<string>))
    ensures config.None? ==> r == (Raised(AttributeError("config is empty")), elements)
    ensures |elements| <= 2 ==> |r.1| <= 2
    ensures r.0.Found? ==> r.1 == []
    ensures r.0.Proxy? && |elements| < 2 ==> r.1 == elements + [attr]
    ensures r.0.Raised? && config.Some? ==> |r.1| == 2 && GetOption(config.value, r.1[0], r.1[1]) == Err(r.0.exc)
  {
    if config.None? then (Raised(AttributeError("config is empty")), elements)
    else
      var els := if |elements| < 2 then elements + [attr] else elements;
      if |els| == 2 then
        match GetOption(config.value, els[0], els[1])
        case Ok(v) => (Found(v), [])
        case Err(e) => (Raised(e), els)
      else (Proxy, els)
  }

  class Config {
    var config: Option<Sections>
    var elements: seq<string>

    constructor ()
      ensures config == None && elements == []
    {
      config := None;
      elements := [];
    }

    /** `read()`: the file's sections, already parsed. */
    method Read(parsed: Sections)
      modifies this
      ensures config == Some(parsed) && elements == old(elements)
    {
      config := Some(parsed);
    }

    /** `__getattr__(attr)` */
    method GetAttr(attr: string) returns (r: Access)
      modifies this
      ensures (r, elements) == AttrStep(old(config), old(elements), attr)
      ensures config == old(config)
    {
      if config.None? {
        return Raised(AttributeError("config is empty"));
      }
      if |elements| < 2 {
        elements := elements + [attr];
      }
      if |elements| == 2 {
        var v := GetOption(config.value, elements[0], elements[1]);
        if v.Err? {
          return Raised(v.exc);
        }
        elements := [];
        return Found(v.value);
      }
      return Proxy;
    }
  }

  /** `config.Section.Key` from a fresh state: the first access returns the object and
      records the section, the second returns the value and resets `elements`. */
  lemma SectionThenKey(s: Sections, section: string, key: string)
    requires GetOption(s, section, key).Ok?
    ensures AttrStep(Some(s), [], section) == (Proxy, [section])
    ensures AttrStep(Some(s), [section], key) == (Found(GetOption(s, section, key).value), [])
  {
    assert [] + [section] == [section];
    assert [section] + [key] == [section, key];
  }

  /** A two-step access that fails (a missing option, or a value the interpolation
      rejects) leaves both names in `elements`; from then on every access, whatever
      its name, repeats the failing lookup. */
  lemma {:induction false} MissingKeyWedges(s: Sections, section: string, key: string, attr: string)
    requires GetOption(s, section, key).Err?
    ensures AttrStep(Some(s), [section], key) == (Raised(GetOption(s, section, key).exc), [section, key])
    ensures AttrStep(Some(s), [section, key], attr) == (Raised(GetOption(s, section, key).exc), [section, key])
  {
    assert [section] + [key] == [section, key];
  }
}
