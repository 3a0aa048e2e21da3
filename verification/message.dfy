/**
  * Splitting long texts for transports with a size limit (mtg/utils/message.py).
  *
  * `split_message` packs the non-empty lines of a message into parts and hands
  * every part (or, when a part is too long, fixed-size slices of it) to a
  * callback.  The callback is modelled by the list of calls it receives.
  * `split_user_message` wraps a user's text and prefixes every piece with the
  * sender and an `[i/n]` counter; `textwrap` is a parameter.
  */
module Message {
  import opened Wrappers
  import opened Strs

  /** One invocation of the callback: the text and the keyword arguments passed through. */
  datatype Call<K> = Call(text: string, kwargs: K)

  /** The two variables of the packing loop: finished parts and the part being filled. */
  datatype Packing = Packing(parts: seq<seq<string>>, part: seq<string>)

  // ---------------------------------------------------------------- specification

  /** One iteration of the packing loop.  The length test leaves out the newline
      that joining the new line to the part will add. */
  function PackStep(st: Packing, line: string, chunkLen: int): Packing {
    if |line| == 0 then st
    else if |Join(st.part, "\n") + line| < chunkLen then Packing(st.parts, st.part + [line])
    else Packing(st.parts + [st.part], [line])
  }

  function PackLines(lines: seq<string>, chunkLen: int): Packing
    decreases |lines|
  {
    if |lines| == 0 then Packing([], [])
    else PackStep(PackLines(lines[..|lines| - 1], chunkLen), lines[|lines| - 1], chunkLen)
  }

  /** The list of parts after the packing loop, the last (possibly empty) part included. */
  function Parts(msg: string, chunkLen: int): seq<seq<string>> {
    var p := PackLines(Split(msg, '\n'), chunkLen);
    p.parts + [p.part]
  }

  function Min(a: int, b: int): int { if a <= b then a else b }

  /** `text[i*c : i*c + c]` for `i in range(len(text) // c + 1)`; Python clamps slice ends. */
  function Slices(text: string, chunkLen: int): (r: seq<string>)
    requires chunkLen > 0
    ensures |r| == |text| / chunkLen + 1
  {
    seq(|text| / chunkLen + 1,
        i requires 0 <= i < |text| / chunkLen + 1 =>
          text[Min(i * chunkLen, |text|)..Min(i * chunkLen + chunkLen, |text|)])
  }

  /** The callback texts for one joined part.  With a negative limit the slice
      count `len // chunk_len + 1` is not positive, so nothing is sent. */
  function PartTexts(text: string, chunkLen: int): seq<string> {
    if |text| < chunkLen then [text]
    else if chunkLen > 0 then Slices(text, chunkLen)
    else []
  }

  /** The callback texts for a list of parts; empty parts are skipped. */
  function Emitted(parts: seq<seq<string>>, chunkLen: int): seq<string>
    decreases |parts|
  {
    if |parts| == 0 then []
    else
      var last := parts[|parts| - 1];
      Emitted(parts[..|parts| - 1], chunkLen)
        + (if |last| == 0 then [] else PartTexts(Join(last, "\n"), chunkLen))
  }

  /** The lines of `lines` that are not empty, in order. */
  function NonEmpty(lines: seq<string>): seq<string>
    decreases |lines|
  {
    if |lines| == 0 then []
    else
      var last := lines[|lines| - 1];
      NonEmpty(lines[..|lines| - 1]) + (if |last| == 0 then [] else [last])
  }

  function Flatten(parts: seq<seq<string>>): seq<string>
    decreases |parts|
  {
    if |parts| == 0 then [] else Flatten(parts[..|parts| - 1]) + parts[|parts| - 1]
  }

  function Concat(texts: seq<string>): string
    decreases |texts|
  {
    if |texts| == 0 then "" else Concat(texts[..|texts| - 1]) + texts[|texts| - 1]
  }

  /** A zero limit divides by zero at the first non-empty part, before any call. */
  predicate DividesByZero(msg: string, chunkLen: int) {
    chunkLen == 0 && |NonEmpty(Split(msg, '\n'))| > 0
  }

  // ---------------------------------------------------------------- split_message

  /** The packing loop of `split_message`: groups the non-empty lines into parts. */
  method PackParts(lines: seq<string>, chunkLen: int) returns (parts: seq<seq<string>>)
    ensures parts == PackLines(lines, chunkLen).parts + [PackLines(lines, chunkLen).part]
  {
    parts := [];
    var part: seq<string> := [];
    var i := 0;
    while i < |lines|
      invariant 0 <= i <= |lines|
      invariant Packing(parts, part) == PackLines(lines[..i], chunkLen)
    {
      assert lines[..i + 1][..i] == lines[..i];
      var line := lines[i];
      if |line| != 0 {
        if |Join(part, "\n") + line| < chunkLen {
          part := part + [line];
        } else {
          parts := parts + [part];
          part := [line];
        }
      }
      i := i + 1;
    }
    assert lines[..|lines|] == lines;
    parts := parts + [part];
  }

  /** The slicing loop for a part that is not shorter than the limit. */
  method SliceText(line: string, chunkLen: int) returns (slices: seq<string>)
    requires chunkLen > 0
    ensures slices == Slices(line, chunkLen)
  {
    var n := |line| / chunkLen + 1;
    slices := [];
    var k := 0;
    while k < n
      invariant 0 <= k <= n
      invariant slices == Slices(line, chunkLen)[..k]
    {
      assert Slices(line, chunkLen)[..k + 1] == Slices(line, chunkLen)[..k] + [Slices(line, chunkLen)[k]];
      slices := slices + [line[Min(k * chunkLen, |line|)..Min(k * chunkLen + chunkLen, |line|)]];
      k := k + 1;
    }
  }

  /** The sending loop of `split_message`: the texts handed to the callback, in order. */
  method EmitParts(parts: seq<seq<string>>, chunkLen: int) returns (texts: seq<string>)
    requires chunkLen != 0 || forall k :: 0 <= k < |parts| ==> |parts[k]| == 0
    ensures texts == Emitted(parts, chunkLen)
  {
    texts := [];
    var j := 0;
    while j < |parts|
      invariant 0 <= j <= |parts|
      invariant texts == Emitted(parts[..j], chunkLen)
    {
      assert parts[..j + 1][..j] == parts[..j];
      var p := parts[j];
      if |p| != 0 {
        var line := Join(p, "\n");
        if |line| < chunkLen {
          texts := texts + [line];
        } else if chunkLen > 0 {
          var slices := SliceText(line, chunkLen);
          texts := texts + slices;
        }
      }
      j := j + 1;
    }
    assert parts[..|parts|] == parts;
  }

  /** `split_message(msg, chunk_len, callback, **kwargs)`: the calls made to `callback`. */
  method SplitMessage<K>(msg: string, chunkLen: int, kwargs: K) returns (r: Result<seq<Call<K>>>)
    ensures DividesByZero(msg, chunkLen) ==> r == Err(ZeroDivisionError)
    ensures !DividesByZero(msg, chunkLen) ==>
      r.Ok? && |r.value| == |Emitted(Parts(msg, chunkLen), chunkLen)|
      && forall i :: 0 <= i < |r.value| ==>
           r.value[i] == Call(Emitted(Parts(msg, chunkLen), chunkLen)[i], kwargs)
  {
    var lines := Split(msg, '\n');
    var parts := PackParts(lines, chunkLen);
    if chunkLen == 0 {
      if |NonEmpty(lines)| > 0 {
        return Err(ZeroDivisionError);
      }
      FlattenParts(lines, chunkLen);
    }
    var texts := EmitParts(parts, chunkLen);
    r := Ok(seq(|texts|, t requires 0 <= t < |texts| => Call(texts[t], kwargs)));
  }

  // ---------------------------------------------------------------- properties

  lemma {:induction false} JoinSnoc(parts: seq<string>, x: string, sep: string)
    ensures Join(parts + [x], sep) == if |parts| == 0 then x else Join(parts, sep) + sep + x
    decreases |parts|
  {
    if |parts| > 1 {
      assert (parts + [x])[1..] == parts[1..] + [x];
      JoinSnoc(parts[1..], x, sep);
    } else if |parts| == 1 {
      assert (parts + [x])[1..] == [x];
    }
  }

  lemma FlattenSnoc(parts: seq<seq<string>>, x: seq<string>)
    ensures Flatten(parts + [x]) == Flatten(parts) + x
  {
    assert (parts + [x])[..|parts|] == parts;
  }

  /** The packing keeps every non-empty line, in order, and nothing else. */
  lemma {:induction false} PackKeepsLines(lines: seq<string>, chunkLen: int)
    ensures var p := PackLines(lines, chunkLen); Flatten(p.parts + [p.part]) == NonEmpty(lines)
    decreases |lines|
  {
    if |lines| > 0 {
      var pre := lines[..|lines| - 1];
      var line := lines[|lines| - 1];
      PackKeepsLines(pre, chunkLen);
      var q := PackLines(pre, chunkLen);
      FlattenSnoc(q.parts, q.part);
      if |line| != 0 {
        if |Join(q.part, "\n") + line| < chunkLen {
          FlattenSnoc(q.parts, q.part + [line]);
        } else {
          FlattenSnoc(q.parts + [q.part], [line]);
          FlattenSnoc(q.parts, q.part);
        }
      }
    }
  }

  /** Every non-empty line of the message reaches exactly one part, in order. */
  lemma FlattenParts(lines: seq<string>, chunkLen: int)
    ensures var p := PackLines(lines, chunkLen); Flatten(p.parts + [p.part]) == NonEmpty(lines)
    ensures chunkLen == 0 && |NonEmpty(lines)| == 0 ==>
      var p := PackLines(lines, chunkLen); forall k :: 0 <= k < |p.parts + [p.part]| ==> |(p.parts + [p.part])[k]| == 0
  {
    PackKeepsLines(lines, chunkLen);
    if chunkLen == 0 && |NonEmpty(lines)| == 0 {
      NoLinesEmptyParts(lines, chunkLen);
    }
  }

  lemma {:induction false} NoLinesEmptyParts(lines: seq<string>, chunkLen: int)
    requires |NonEmpty(lines)| == 0
    ensures PackLines(lines, chunkLen) == Packing([], [])
    decreases |lines|
  {
    if |lines| > 0 {
      NoLinesEmptyParts(lines[..|lines| - 1], chunkLen);
    }
  }

  lemma {:induction false} OnlySeparators(s: string, sep: char)
    requires forall i :: 0 <= i < |s| ==> s[i] == sep
    ensures forall k :: 0 <= k < |Split(s, sep)| ==> Split(s, sep)[k] == ""
    decreases |s|
  {
    if |s| > 0 {
      OnlySeparators(s[1..], sep);
    }
  }

  lemma {:induction false} AllEmptyNonEmpty(lines: seq<string>)
    requires forall k :: 0 <= k < |lines| ==> lines[k] == ""
    ensures NonEmpty(lines) == []
    decreases |lines|
  {
    if |lines| > 0 {
      AllEmptyNonEmpty(lines[..|lines| - 1]);
    }
  }

  /** An empty message, or one made only of newlines, makes no callback call. */
  lemma NoTextNoCalls(msg: string, chunkLen: int)
    requires forall i :: 0 <= i < |msg| ==> msg[i] == '\n'
    ensures Emitted(Parts(msg, chunkLen), chunkLen) == []
    ensures !DividesByZero(msg, chunkLen)
  {
    var lines := Split(msg, '\n');
    OnlySeparators(msg, '\n');
    AllEmptyNonEmpty(lines);
    NoLinesEmptyParts(lines, chunkLen);
    var empty: seq<string> := [];
    assert Parts(msg, chunkLen) == [empty];
    assert [empty][..0] == [];
  }

  lemma {:induction false} NonEmptySnoc(lines: seq<string>, x: string)
    ensures NonEmpty(lines + [x]) == NonEmpty(lines) + (if |x| == 0 then [] else [x])
  {
    assert (lines + [x])[..|lines|] == lines;
  }

  /** While the joined text stays under the limit, every non-empty line joins the first part. */
  lemma {:induction false} PackShort(lines: seq<string>, chunkLen: int)
    requires |Join(NonEmpty(lines), "\n")| < chunkLen
    ensures PackLines(lines, chunkLen) == Packing([], NonEmpty(lines))
    decreases |lines|
  {
    if |lines| > 0 {
      var pre := lines[..|lines| - 1];
      var line := lines[|lines| - 1];
      assert lines == pre + [line];
      NonEmptySnoc(pre, line);
      if |line| != 0 {
        JoinSnoc(NonEmpty(pre), line, "\n");
        assert NonEmpty(lines) == NonEmpty(pre) + [line];
        assert |Join(NonEmpty(pre), "\n")| < chunkLen;
      } else {
        assert NonEmpty(lines) == NonEmpty(pre);
      }
      PackShort(pre, chunkLen);
    }
  }

  /** A message whose non-empty lines, joined, are shorter than the limit is sent in one call. */
  lemma ShortMessageOneCall(msg: string, chunkLen: int)
    requires |NonEmpty(Split(msg, '\n'))| > 0
    requires |Join(NonEmpty(Split(msg, '\n')), "\n")| < chunkLen
    ensures Emitted(Parts(msg, chunkLen), chunkLen) == [Join(NonEmpty(Split(msg, '\n')), "\n")]
  {
    PackShort(Split(msg, '\n'), chunkLen);
    var ne := NonEmpty(Split(msg, '\n'));
    assert Parts(msg, chunkLen) == [ne];
    assert [ne][..0] == [];
  }

  /** With a positive limit no call carries more than `chunk_len` characters. */
  lemma {:induction false} CallsWithinLimit(parts: seq<seq<string>>, chunkLen: int)
    requires chunkLen > 0
    ensures forall i :: 0 <= i < |Emitted(parts, chunkLen)| ==> |Emitted(parts, chunkLen)[i]| <= chunkLen
    decreases |parts|
  {
    if |parts| > 0 {
      var last := parts[|parts| - 1];
      CallsWithinLimit(parts[..|parts| - 1], chunkLen);
      var done := Emitted(parts[..|parts| - 1], chunkLen);
      var more := if |last| == 0 then [] else PartTexts(Join(last, "\n"), chunkLen);
      if |last| > 0 {
        PartTextsWithin(Join(last, "\n"), chunkLen);
      }
      forall i | 0 <= i < |done + more| ensures |(done + more)[i]| <= chunkLen {
        if i >= |done| {
          assert (done + more)[i] == more[i - |done|];
        }
      }
    }
  }

  /** Each slice of one part holds at most `chunk_len` characters. */
  lemma PartTextsWithin(text: string, chunkLen: int)
    requires chunkLen > 0
    ensures forall i :: 0 <= i < |PartTexts(text, chunkLen)| ==> |PartTexts(text, chunkLen)[i]| <= chunkLen
  {
  }

  lemma MulStep(k: int, c: int)
    ensures (k - 1) * c + c == k * c
  {
  }

  lemma {:induction false} MulMono(a: nat, b: nat, c: nat)
    requires a <= b
    ensures a * c <= b * c
    decreases b - a
  {
    if a < b {
      MulMono(a, b - 1, c);
      MulStep(b, c);
    }
  }

  lemma DivBounds(a: nat, c: int)
    requires c > 0
    ensures (a / c) * c <= a < (a / c) * c + c
  {
    assert a == (a / c) * c + a % c;
  }

  lemma DivExact(a: nat, c: int, k: nat)
    requires c > 0 && a == k * c
    ensures a / c == k
  {
    var q := a / c;
    assert a == q * c + a % c;
    if q < k {
      MulMono(q + 1, k, c);
      MulStep(q + 1, c);
    } else if q > k {
      MulMono(k + 1, q, c);
      MulStep(k + 1, c);
    }
  }

  lemma {:induction false} SlicesPrefix(text: string, chunkLen: int, k: nat)
    requires chunkLen > 0 && k <= |text| / chunkLen + 1
    ensures Concat(Slices(text, chunkLen)[..k]) == text[..Min(k * chunkLen, |text|)]
    decreases k
  {
    if k > 0 {
      var s := Slices(text, chunkLen);
      assert s[..k][..k - 1] == s[..k - 1];
      SlicesPrefix(text, chunkLen, k - 1);
      var a := Min((k - 1) * chunkLen, |text|);
      var b := Min(k * chunkLen, |text|);
      SliceAt(text, chunkLen, k);
      assert Concat(s[..k]) == Concat(s[..k - 1]) + s[k - 1];
      PrefixThenSlice(text, a, b);
    }
  }

  /** Slice `k - 1` runs from where slice `k - 2` stopped. */
  lemma SliceAt(text: string, chunkLen: int, k: nat)
    requires chunkLen > 0 && 0 < k <= |text| / chunkLen + 1
    ensures var a := Min((k - 1) * chunkLen, |text|); var b := Min(k * chunkLen, |text|);
      a <= b && Slices(text, chunkLen)[k - 1] == text[a..b]
  {
    MulStep(k, chunkLen);
  }

  lemma PrefixThenSlice(text: string, a: int, b: int)
    requires 0 <= a <= b <= |text|
    ensures text[..a] + text[a..b] == text[..b]
  {
  }

  /** Concatenating the calls made for one part gives back exactly that part's text. */
  lemma PartCoverage(text: string, chunkLen: int)
    requires chunkLen > 0
    ensures Concat(PartTexts(text, chunkLen)) == text
  {
    if |text| >= chunkLen {
      var q := |text| / chunkLen;
      var s := Slices(text, chunkLen);
      SlicesPrefix(text, chunkLen, q + 1);
      DivBounds(|text|, chunkLen);
      MulStep(q + 1, chunkLen);
      assert Min((q + 1) * chunkLen, |text|) == |text|;
      assert s[..q + 1] == s;
      assert PartTexts(text, chunkLen) == s;
    } else {
      assert [text][..0] == [];
    }
  }

  /** A part whose length is an exact multiple `k * chunk_len` is sent as `k` full
      slices followed by one empty call. */
  lemma ExactMultipleEndsEmpty(text: string, chunkLen: int, k: nat)
    requires chunkLen > 0 && k >= 1 && |text| == k * chunkLen
    ensures |PartTexts(text, chunkLen)| == k + 1
    ensures PartTexts(text, chunkLen)[k] == ""
    ensures forall i :: 0 <= i < k ==> |PartTexts(text, chunkLen)[i]| == chunkLen
  {
    DivExact(|text|, chunkLen, k);
    MulMono(1, k, chunkLen);
    var s := Slices(text, chunkLen);
    assert PartTexts(text, chunkLen) == s;
    forall i | 0 <= i < k ensures |s[i]| == chunkLen {
      MulMono(i + 1, k, chunkLen);
      MulStep(i + 1, chunkLen);
      MulMono(i, k, chunkLen);
    }
  }

  // ---------------------------------------------------------------- split_user_message

  /** `[p.strip() for p in wrap(msg) if p.strip()]` */
  function StrippedPieces(pieces: seq<string>): (r: seq<string>)
    ensures forall i :: 0 <= i < |r| ==> |r[i]| > 0
    decreases |pieces|
  {
    if |pieces| == 0 then []
    else
      var rest := StrippedPieces(pieces[..|pieces| - 1]);
      var s := Strip(pieces[|pieces| - 1]);
      if |s| == 0 then rest else rest + [s]
  }

  function Counter(n: nat, total: nat): string {
    "[" + NatToString(n) + "/" + NatToString(total) + "] "
  }

  /** Outcome of `split_user_message`; `OutOfFuel` stands for a loop that has not settled. */
  datatype UserSplit = Lines(lines: seq<string>) | Raised(exc: Exc) | OutOfFuel

  /** The `parts_count` the loop of `split_user_message` holds at round `j`: 1 at first,
      then the number of pieces the previous round's wrap gave. */
  function PartsAt(chunkLen: int, sender: string, msg: string, wrap: (int, string) -> seq<string>, j: nat): nat
    decreases j
  {
    if j == 0 then 1
    else |StrippedPieces(wrap(Room(chunkLen, sender, PartsAt(chunkLen, sender, msg, wrap, j - 1)), msg))|
  }

  /** Round `j` wraps (its width is positive) and does not settle, so the loop goes on. */
  predicate Rewraps(chunkLen: int, sender: string, msg: string, wrap: (int, string) -> seq<string>, j: nat) {
    var n := PartsAt(chunkLen, sender, msg, wrap, j);
    Room(chunkLen, sender, n) > 0 && |StrippedPieces(wrap(Room(chunkLen, sender, n), msg))| != n
  }

  /** Round `j` is reached: every earlier round went on. */
  predicate Reached(chunkLen: int, sender: string, msg: string, wrap: (int, string) -> seq<string>, j: nat) {
    forall i: nat :: i < j ==> Rewraps(chunkLen, sender, msg, wrap, i)
  }

  /** Round `j` wraps and gets as many pieces as the counter was sized for. */
  predicate Settles(chunkLen: int, sender: string, msg: string, wrap: (int, string) -> seq<string>, j: nat) {
    var n := PartsAt(chunkLen, sender, msg, wrap, j);
    Room(chunkLen, sender, n) > 0 && |StrippedPieces(wrap(Room(chunkLen, sender, n), msg))| == n
  }

  /** Some reached round below `fuel` has no room left, so `wrap` raises there. */
  predicate RaisesWithin(chunkLen: int, sender: string, msg: string, wrap: (int, string) -> seq<string>, fuel: nat) {
    exists j: nat :: j < fuel && Reached(chunkLen, sender, msg, wrap, j)
                    && Room(chunkLen, sender, PartsAt(chunkLen, sender, msg, wrap, j)) <= 0
  }

  /** Some reached round below `fuel` settles. */
  predicate SettlesWithin(chunkLen: int, sender: string, msg: string, wrap: (int, string) -> seq<string>, fuel: nat) {
    exists j: nat :: j < fuel && Reached(chunkLen, sender, msg, wrap, j) && Settles(chunkLen, sender, msg, wrap, j)
  }

  /** At most one reached round stops the loop. */
  lemma OneStop(chunkLen: int, sender: string, msg: string, wrap: (int, string) -> seq<string>, j: nat, k: nat)
    requires Reached(chunkLen, sender, msg, wrap, j) && !Rewraps(chunkLen, sender, msg, wrap, j)
    requires Reached(chunkLen, sender, msg, wrap, k) && !Rewraps(chunkLen, sender, msg, wrap, k)
    ensures j == k
  {
  }

  /** A reached round that goes on reaches the next one. */
  lemma ReachedNext(chunkLen: int, sender: string, msg: string, wrap: (int, string) -> seq<string>, j: nat)
    requires Reached(chunkLen, sender, msg, wrap, j) && Rewraps(chunkLen, sender, msg, wrap, j)
    ensures Reached(chunkLen, sender, msg, wrap, j + 1)
  {
  }

  /**
    * `split_user_message(sender, msg, chunk_len)`.  `wrap(width, msg)` is
    * `textwrap.TextWrapper(width=...).wrap(msg)`, which raises `ValueError` for a
    * width that is not positive.  The loop re-wraps until the number of pieces
    * equals the number the counter was sized for; `fuel` bounds the iterations.
    */
  method SplitUserMessage(sender: string, msg: string, chunkLen: int,
                          wrap: (int, string) -> seq<string>, fuel: nat)
    returns (r: UserSplit)
    ensures r.Lines? ==>
      var prefix := sender + ": ";
      var pieces := StrippedPieces(wrap(Room(chunkLen, sender, |r.lines|), msg));
      |pieces| == |r.lines|
      && forall i :: 0 <= i < |r.lines| ==>
           r.lines[i] == prefix + Counter(i + 1, |r.lines|) + pieces[i]
    ensures r.Raised? ==> r.exc == ValueError
    ensures r.Raised? <==> RaisesWithin(chunkLen, sender, msg, wrap, fuel)
    ensures r.Lines? <==> SettlesWithin(chunkLen, sender, msg, wrap, fuel)
    ensures r.Lines? ==>
      exists j: nat :: j < fuel && Reached(chunkLen, sender, msg, wrap, j)
                      && |r.lines| == PartsAt(chunkLen, sender, msg, wrap, j)
    ensures r.OutOfFuel? <==> Reached(chunkLen, sender, msg, wrap, fuel)
    ensures fuel > 0 && Room(chunkLen, sender, 1) <= 0 ==> r == Raised(ValueError)
  {
    NoRoomAtFirst(chunkLen, sender, msg, wrap, fuel);
    var prefix := sender + ": ";
    var partsCount: nat := 1;
    var steps: nat := 0;
    while steps < fuel
      invariant steps <= fuel
      invariant partsCount == PartsAt(chunkLen, sender, msg, wrap, steps)
      invariant Reached(chunkLen, sender, msg, wrap, steps)
    {
      var available := Room(chunkLen, sender, partsCount);
      if available <= 0 {
        RaisesAt(chunkLen, sender, msg, wrap, steps, fuel);
        return Raised(ValueError);
      }
      var parts := StrippedPieces(wrap(available, msg));
      if |parts| == partsCount {
        SettlesAt(chunkLen, sender, msg, wrap, steps, fuel);
        var lines := NumberLines(prefix, parts);
        return Lines(lines);
      }
      ReachedNext(chunkLen, sender, msg, wrap, steps);
      partsCount := |parts|;
      steps := steps + 1;
    }
    NoStopWithin(chunkLen, sender, msg, wrap, fuel);
    return OutOfFuel;
  }

  /** Without room for a one-part counter the very first round raises. */
  lemma NoRoomAtFirst(chunkLen: int, sender: string, msg: string, wrap: (int, string) -> seq<string>, fuel: nat)
    ensures fuel > 0 && Room(chunkLen, sender, 1) <= 0 ==> RaisesWithin(chunkLen, sender, msg, wrap, fuel)
  {
    if fuel > 0 && Room(chunkLen, sender, 1) <= 0 {
      assert PartsAt(chunkLen, sender, msg, wrap, 0) == 1;
      assert Reached(chunkLen, sender, msg, wrap, 0);
    }
  }

  /** Round `s` is reached and raises: it is the only reached stop below `fuel`. */
  lemma RaisesAt(chunkLen: int, sender: string, msg: string, wrap: (int, string) -> seq<string>, s: nat, fuel: nat)
    requires s < fuel && Reached(chunkLen, sender, msg, wrap, s)
    requires Room(chunkLen, sender, PartsAt(chunkLen, sender, msg, wrap, s)) <= 0
    ensures RaisesWithin(chunkLen, sender, msg, wrap, fuel)
    ensures !SettlesWithin(chunkLen, sender, msg, wrap, fuel)
    ensures !Reached(chunkLen, sender, msg, wrap, fuel)
  {
    if SettlesWithin(chunkLen, sender, msg, wrap, fuel) {
      var j: nat :| j < fuel && Reached(chunkLen, sender, msg, wrap, j) && Settles(chunkLen, sender, msg, wrap, j);
      OneStop(chunkLen, sender, msg, wrap, j, s);
    }
    assert !Rewraps(chunkLen, sender, msg, wrap, s);
  }

  /** Round `s` is reached and settles: it is the only reached stop below `fuel`. */
  lemma SettlesAt(chunkLen: int, sender: string, msg: string, wrap: (int, string) -> seq<string>, s: nat, fuel: nat)
    requires s < fuel && Reached(chunkLen, sender, msg, wrap, s) && Settles(chunkLen, sender, msg, wrap, s)
    ensures SettlesWithin(chunkLen, sender, msg, wrap, fuel)
    ensures !RaisesWithin(chunkLen, sender, msg, wrap, fuel)
    ensures !Reached(chunkLen, sender, msg, wrap, fuel)
  {
    if RaisesWithin(chunkLen, sender, msg, wrap, fuel) {
      var j: nat :| j < fuel && Reached(chunkLen, sender, msg, wrap, j)
                    && Room(chunkLen, sender, PartsAt(chunkLen, sender, msg, wrap, j)) <= 0;
      OneStop(chunkLen, sender, msg, wrap, j, s);
    }
    assert !Rewraps(chunkLen, sender, msg, wrap, s);
  }

  /** When every round below `fuel` goes on, none of them raises or settles. */
  lemma NoStopWithin(chunkLen: int, sender: string, msg: string, wrap: (int, string) -> seq<string>, fuel: nat)
    requires Reached(chunkLen, sender, msg, wrap, fuel)
    ensures !RaisesWithin(chunkLen, sender, msg, wrap, fuel)
    ensures !SettlesWithin(chunkLen, sender, msg, wrap, fuel)
  {
    forall j: nat | j < fuel
      ensures Room(chunkLen, sender, PartsAt(chunkLen, sender, msg, wrap, j)) > 0
      ensures !Settles(chunkLen, sender, msg, wrap, j)
    {
      assert Rewraps(chunkLen, sender, msg, wrap, j);
    }
  }

  /** The room left for text once the sender and an `[n/n] ` counter are in the line. */
  function Room(chunkLen: int, sender: string, n: nat): (r: int)
    ensures r < chunkLen - |sender|
  {
    chunkLen - (|sender| + 2) - |Counter(n, n)|
  }

  /** Prefixes each piece with the sender and its `[i/n] ` counter. */
  method NumberLines(prefix: string, parts: seq<string>) returns (lines: seq<string>)
    ensures |lines| == |parts|
    ensures forall i :: 0 <= i < |parts| ==> lines[i] == prefix + Counter(i + 1, |parts|) + parts[i]
  {
    lines := [];
    var idx := 0;
    while idx < |parts|
      invariant 0 <= idx <= |parts|
      invariant |lines| == idx
      invariant forall i :: 0 <= i < idx ==> lines[i] == prefix + Counter(i + 1, |parts|) + parts[i]
    {
      lines := lines + [prefix + Counter(idx + 1, |parts|) + parts[idx]];
      idx := idx + 1;
    }
  }

  /** Every line produced starts with the sender, then `[i/n] ` for its position `i` of `n`. */
  lemma UserLinesPrefixed(sender: string, lines: seq<string>, pieces: seq<string>)
    requires |pieces| == |lines|
    requires forall i :: 0 <= i < |lines| ==> lines[i] == sender + ": " + Counter(i + 1, |lines|) + pieces[i]
    ensures forall i :: 0 <= i < |lines| ==>
      StartsWith(lines[i], sender + ": [" + NatToString(i + 1) + "/" + NatToString(|lines|) + "] ")
  {
    forall i | 0 <= i < |lines|
      ensures StartsWith(lines[i], sender + ": [" + NatToString(i + 1) + "/" + NatToString(|lines|) + "] ")
    {
      assert lines[i] == (sender + ": [" + NatToString(i + 1) + "/" + NatToString(|lines|) + "] ") + pieces[i];
    }
  }
}
