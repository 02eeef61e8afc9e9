/** The two string formats the script renders: `"{:,d}"` for the data slots
    and `"Last updated: {}-{}-{} {}:{:02d}"` for the timestamp slot. */
module Format {
  import opened Wrappers
  import opened Decimal

  /** The string with every comma removed. */
  function RemoveCommas(s: string): (r: string)
    ensures |r| <= |s|
  {
    if s == [] then []
    else (if s[0] == ',' then [] else [s[0]]) + RemoveCommas(s[1..])
  }

  lemma {:induction false} RemoveCommasAppend(a: string, b: string)
    ensures RemoveCommas(a + b) == RemoveCommas(a) + RemoveCommas(b)
    decreases |a|
  {
    if a == [] {
      assert a + b == b;
    } else {
      var head := if a[0] == ',' then [] else [a[0]];
      assert (a + b)[0] == a[0];
      assert (a + b)[1..] == a[1..] + b;
      RemoveCommasAppend(a[1..], b);
      calc {
        RemoveCommas(a + b);
        head + RemoveCommas(a[1..] + b);
        head + (RemoveCommas(a[1..]) + RemoveCommas(b));
        (head + RemoveCommas(a[1..])) + RemoveCommas(b);
      }
    }
  }

  lemma {:induction false} RemoveCommasOfDigits(s: string)
    requires AllDigits(s)
    ensures RemoveCommas(s) == s
    decreases |s|
  {
    if s != [] {
      RemoveCommasOfDigits(s[1..]);
    }
  }

  /** A run of digits with a comma inserted before every third digit counted
      from the right, as the `,` option of Python's integer format does. */
  function Group(ds: string): (r: string)
    requires |ds| >= 1 && AllDigits(ds)
    ensures |r| == |ds| + (|ds| - 1) / 3
    ensures forall j :: 0 <= j < |r| ==> (r[j] == ',' <==> (|r| - j) % 4 == 0)
    ensures forall j :: 0 <= j < |r| && r[j] != ',' ==> IsDigit(r[j])
    ensures IsDigit(r[0])
    decreases |ds|
  {
    if |ds| <= 3 then ds
    else
      var g := Group(ds[..|ds| - 3]);
      var tail := ds[|ds| - 3..];
      GroupStep(g, tail);
      g + "," + tail
  }

  /** Appending a comma and three digits to a well-grouped string keeps the
      commas exactly at every fourth position from the right. */
  lemma GroupStep(g: string, tail: string)
    requires forall j :: 0 <= j < |g| ==> (g[j] == ',' <==> (|g| - j) % 4 == 0)
    requires forall j :: 0 <= j < |g| && g[j] != ',' ==> IsDigit(g[j])
    requires |tail| == 3 && AllDigits(tail)
    ensures var r := g + "," + tail;
      && (forall j :: 0 <= j < |r| ==> (r[j] == ',' <==> (|r| - j) % 4 == 0))
      && (forall j :: 0 <= j < |r| && r[j] != ',' ==> IsDigit(r[j]))
  {
    var r := g + "," + tail;
    forall j | 0 <= j < |r|
      ensures r[j] == ',' <==> (|r| - j) % 4 == 0
      ensures r[j] != ',' ==> IsDigit(r[j])
    {
      if j < |g| {
        assert r[j] == g[j];
        assert (|r| - j) % 4 == (|g| - j) % 4 by {
          assert |r| - j == (|g| - j) + 4;
        }
      } else if j > |g| {
        assert r[j] == tail[j - |g| - 1];
      }
    }
  }

  /** Removing the commas of a grouping gives back the digits. */
  lemma {:induction false} UngroupGroup(ds: string)
    requires |ds| >= 1 && AllDigits(ds)
    ensures RemoveCommas(Group(ds)) == ds
    decreases |ds|
  {
    if |ds| <= 3 {
      RemoveCommasOfDigits(ds);
    } else {
      var head, tail := ds[..|ds| - 3], ds[|ds| - 3..];
      assert ds == head + tail;
      var g := Group(head);
      UngroupGroup(head);
      RemoveCommasAppend(g + ",", tail);
      RemoveCommasAppend(g, ",");
      RemoveCommasOfDigits(tail);
    }
  }

  /** `"{:,d}".format(n)`: the sign, then the digits grouped in threes. */
  function Grouped(n: int): (s: string)
    ensures RemoveCommas(s) == Str(n)
    ensures s[0] == '-' <==> n < 0
    ensures forall j :: 0 <= j < |s| && s[j] != ',' && s[j] != '-' ==> IsDigit(s[j])
    ensures -1000 < n < 1000 ==> s == Str(n)
    ensures forall j :: (if n < 0 then 1 else 0) <= j < |s| ==> (s[j] == ',' <==> (|s| - j) % 4 == 0)
    ensures |s| > (if n < 0 then 1 else 0) && IsDigit(s[if n < 0 then 1 else 0])
  {
    var sign := if n < 0 then "-" else "";
    var ds := Digits(if n < 0 then -n else n);
    SignedGroup(sign, ds);
    sign + Group(ds)
  }

  /** A sign (or none) in front of a grouping: dropping the commas gives the
      sign and the digits, and the commas stay every fourth place from the
      right; three digits or fewer get no comma. */
  lemma SignedGroup(sign: string, ds: string)
    requires sign == "" || sign == "-"
    requires |ds| >= 1 && AllDigits(ds)
    ensures RemoveCommas(sign + Group(ds)) == sign + ds
    ensures (sign + Group(ds))[0] == '-' <==> sign == "-"
    ensures forall j :: 0 <= j < |sign + Group(ds)| && (sign + Group(ds))[j] != ',' && (sign + Group(ds))[j] != '-'
              ==> IsDigit((sign + Group(ds))[j])
    ensures forall j :: |sign| <= j < |sign + Group(ds)| ==>
              ((sign + Group(ds))[j] == ',' <==> (|sign + Group(ds)| - j) % 4 == 0)
    ensures |ds| <= 3 ==> sign + Group(ds) == sign + ds
    ensures |sign + Group(ds)| > |sign| && IsDigit((sign + Group(ds))[|sign|])
  {
    var g := Group(ds);
    UngroupGroup(ds);
    RemoveCommasAppend(sign, g);
    assert RemoveCommas(sign) == sign by {
      if sign == "-" {
        assert RemoveCommas(sign) == [sign[0]] + RemoveCommas(sign[1..]);
      }
    }
    SignKeepsCommas(sign, g);
    forall j | 0 <= j < |sign + g| && (sign + g)[j] != ',' && (sign + g)[j] != '-'
      ensures IsDigit((sign + g)[j])
    {
      assert j >= |sign|;
      assert (sign + g)[j] == g[j - |sign|];
    }
  }

  /** A prefix in front of a grouping leaves its commas where they were,
      counted from the right. */
  lemma SignKeepsCommas(sign: string, g: string)
    requires forall j :: 0 <= j < |g| ==> (g[j] == ',' <==> (|g| - j) % 4 == 0)
    ensures forall j :: |sign| <= j < |sign + g| ==> ((sign + g)[j] == ',' <==> (|sign + g| - j) % 4 == 0)
  {
    forall j | |sign| <= j < |sign + g|
      ensures (sign + g)[j] == ',' <==> (|sign + g| - j) % 4 == 0
    {
      assert (sign + g)[j] == g[j - |sign|];
    }
  }

  /** Reads a `{:,d}` rendering back: drop the commas, then parse as `int()` would. */
  function ParseGrouped(s: string): Option<int>
  {
    ParseInt(RemoveCommas(s))
  }

  /** Rendering with thousands separators loses nothing. */
  lemma GroupedRoundTrip(n: int)
    ensures ParseGrouped(Grouped(n)) == Some(n)
  {
    ParseIntOfStr(n);
  }

  /** `"{:02d}".format(n)` for a non-negative int: at least two digits,
      zero-filled on the left. */
  function Pad2(n: nat): (s: string)
    ensures AllDigits(s) && ParseDigits(s) == n
    ensures n < 100 ==> |s| == 2
    ensures n >= 10 ==> s == Digits(n)
  {
    ParseDigitsOfDigits(n);
    if n < 10 then
      assert ParseDigits(['0', DigitChar(n)]) == ParseDigits(['0']) * 10 + n by {
        assert ['0', DigitChar(n)][..1] == ['0'];
      }
      ['0', DigitChar(n)]
    else
      Digits(n)
  }

  /** The fields of `time.localtime()` that the timestamp shows. */
  datatype LocalTime = LocalTime(mday: nat, mon: nat, year: nat, hour: nat, min: nat)

  const TIMESTAMP_PREFIX: string := "Last updated: "

  /** The text of slot 12: day, month, year and hour unpadded, minutes
      zero-filled to two digits. */
  function Timestamp(t: LocalTime): (s: string)
    ensures |s| >= |TIMESTAMP_PREFIX| + 10
    ensures s[..|TIMESTAMP_PREFIX|] == TIMESTAMP_PREFIX
    ensures t.min < 100 ==> s[|s| - 3] == ':' && s[|s| - 2..] == Pad2(t.min)
  {
    TIMESTAMP_PREFIX + Digits(t.mday) + "-" + Digits(t.mon) + "-" + Digits(t.year)
      + " " + Digits(t.hour) + ":" + Pad2(t.min)
  }

  /** Splits `s` at the first occurrence of `sep`, dropping the separator. */
  function SplitAt(s: string, sep: char): (r: Option<(string, string)>)
    ensures r.Some? ==> s == r.value.0 + [sep] + r.value.1 && sep !in r.value.0
    ensures r.None? ==> sep !in s
  {
    if s == [] then None
    else if s[0] == sep then Some(([], s[1..]))
    else match SplitAt(s[1..], sep)
      case None => None
      case Some(p) => Some(([s[0]] + p.0, p.1))
  }

  lemma {:induction false} SplitAtJoin(a: string, sep: char, b: string)
    requires sep !in a
    ensures SplitAt(a + [sep] + b, sep) == Some((a, b))
    decreases |a|
  {
    var s := a + [sep] + b;
    if a == [] {
      assert s[0] == sep && s[1..] == b;
    } else {
      assert s[0] == a[0] && a[0] != sep;
      assert s[1..] == a[1..] + [sep] + b;
      SplitAtJoin(a[1..], sep, b);
      assert [a[0]] + a[1..] == a;
    }
  }

  /** A non-empty run of digits read as a number. */
  function Number(s: string): (r: Option<nat>)
    ensures r.Some? ==> |s| >= 1 && AllDigits(s) && r.value == ParseDigits(s)
  {
    if |s| >= 1 && AllDigits(s) then Some(ParseDigits(s)) else None
  }

  /** The separators between the five numbers of the timestamp. */
  const TIMESTAMP_SEPS: string := "-- :"

  /** Reads slot 12's text back into the time it shows. */
  function ParseTimestamp(s: string): Option<LocalTime>
  {
    if |s| < |TIMESTAMP_PREFIX| || s[..|TIMESTAMP_PREFIX|] != TIMESTAMP_PREFIX then None
    else
      match Fields(s[|TIMESTAMP_PREFIX|..], TIMESTAMP_SEPS)
      case None => None
      case Some(ns) => Some(LocalTime(ns[0], ns[1], ns[2], ns[3], ns[4]))
  }

  /** The number in front of the first `sep`, and what follows it. */
  function LeadingNumber(r: string, sep: char): Option<(nat, string)>
  {
    match SplitAt(r, sep)
    case None => None
    case Some(p) =>
      match Number(p.0)
      case None => None
      case Some(n) => Some((n, p.1))
  }

  /** Reads numbers separated by `seps`, in that order. */
  function Fields(r: string, seps: string): (ns: Option<seq<nat>>)
    ensures ns.Some? ==> |ns.value| == |seps| + 1
    decreases |seps|
  {
    if seps == [] then
      match Number(r)
      case None => None
      case Some(n) => Some([n])
    else
      match LeadingNumber(r, seps[0])
      case None => None
      case Some(f) =>
        match Fields(f.1, seps[1..])
        case None => None
        case Some(ns) => Some([f.0] + ns)
  }

  /** The runs in `parts` joined by the separators in `seps`. */
  function Join(parts: seq<string>, seps: string): string
    requires |parts| == |seps| + 1
    decreases |seps|
  {
    if seps == [] then parts[0] else parts[0] + [seps[0]] + Join(parts[1..], seps[1..])
  }

  /** The values of runs of digits. */
  function Values(parts: seq<string>): (ns: seq<nat>)
    requires forall k :: 0 <= k < |parts| ==> AllDigits(parts[k])
    ensures |ns| == |parts|
    ensures forall k :: 0 <= k < |parts| ==> ns[k] == ParseDigits(parts[k])
  {
    seq(|parts|, k requires 0 <= k < |parts| => ParseDigits(parts[k]))
  }

  /** A run of digits followed by a separator reads back as its value. */
  lemma LeadingNumberJoin(a: string, sep: char, b: string)
    requires |a| >= 1 && AllDigits(a) && !IsDigit(sep)
    ensures LeadingNumber(a + [sep] + b, sep) == Some((ParseDigits(a), b))
  {
    NoSeparatorInDigits(a, sep);
    SplitAtJoin(a, sep, b);
  }

  /** Non-empty runs of digits joined by non-digit separators read back as
      their values. */
  lemma {:induction false} FieldsOfJoin(parts: seq<string>, seps: string)
    requires |parts| == |seps| + 1
    requires forall k :: 0 <= k < |parts| ==> |parts[k]| >= 1 && AllDigits(parts[k])
    requires forall k :: 0 <= k < |seps| ==> !IsDigit(seps[k])
    ensures Fields(Join(parts, seps), seps) == Some(Values(parts))
    decreases |seps|
  {
    if seps == [] {
      assert Values(parts) == [ParseDigits(parts[0])];
    } else {
      var rest := Join(parts[1..], seps[1..]);
      LeadingNumberJoin(parts[0], seps[0], rest);
      FieldsOfJoin(parts[1..], seps[1..]);
      assert Values(parts) == [ParseDigits(parts[0])] + Values(parts[1..]);
    }
  }

  lemma NoSeparatorInDigits(s: string, sep: char)
    requires AllDigits(s) && !IsDigit(sep)
    ensures sep !in s
  {
  }

  /** The timestamp text determines the time it was made from. */
  lemma TimestampRoundTrip(t: LocalTime)
    ensures ParseTimestamp(Timestamp(t)) == Some(t)
  {
    var parts := TimestampParts(t);
    TimestampJoin(t);
    FieldsOfJoin(parts, TIMESTAMP_SEPS);
    assert Timestamp(t)[|TIMESTAMP_PREFIX|..] == Join(parts, TIMESTAMP_SEPS);
    ParseDigitsOfDigits(t.mday);
    ParseDigitsOfDigits(t.mon);
    ParseDigitsOfDigits(t.year);
    ParseDigitsOfDigits(t.hour);
  }

  /** The five runs of digits in a timestamp. */
  function TimestampParts(t: LocalTime): (parts: seq<string>)
    ensures |parts| == 5
    ensures forall k :: 0 <= k < 5 ==> |parts[k]| >= 1 && AllDigits(parts[k])
  {
    [Digits(t.mday), Digits(t.mon), Digits(t.year), Digits(t.hour), Pad2(t.min)]
  }

  lemma TimestampJoin(t: LocalTime)
    ensures Timestamp(t) == TIMESTAMP_PREFIX + Join(TimestampParts(t), TIMESTAMP_SEPS)
  {
    JoinFive(TIMESTAMP_PREFIX, Digits(t.mday), Digits(t.mon), Digits(t.year), Digits(t.hour), Pad2(t.min));
  }

  /** Five runs joined by the timestamp's separators, behind a prefix. */
  lemma JoinFive(pre: string, a: string, b: string, c: string, d: string, e: string)
    ensures pre + Join([a, b, c, d, e], TIMESTAMP_SEPS) == pre + a + "-" + b + "-" + c + " " + d + ":" + e
  {
    var parts := [a, b, c, d, e];
    assert parts[1..] == [b, c, d, e] && parts[2..] == [c, d, e];
    assert parts[3..] == [d, e] && parts[4..] == [e];
    assert TIMESTAMP_SEPS[1..] == "- :" && TIMESTAMP_SEPS[2..] == " :" && TIMESTAMP_SEPS[3..] == ":";
  }

  lemma NumberOfDigits(n: nat)
    ensures Number(Digits(n)) == Some(n)
  {
    ParseDigitsOfDigits(n);
  }

  /** Distinct times give distinct timestamp texts. */
  lemma TimestampInjective(t1: LocalTime, t2: LocalTime)
    requires Timestamp(t1) == Timestamp(t2)
    ensures t1 == t2
  {
    TimestampRoundTrip(t1);
    TimestampRoundTrip(t2);
  }
}
