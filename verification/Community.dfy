/** The text form of BGP communities (RFC 1997): two decimal 16-bit halves joined by a colon. */
module Community {
  import opened Config

  // ------------------------------------------------------------------
  // Decimal numbers
  // ------------------------------------------------------------------

  predicate IsDigit(c: char) { '0' <= c <= '9' }

  function DigitOf(c: char): (d: nat)
    requires IsDigit(c)
    ensures d < 10
  {
    c as int - '0' as int
  }

  predicate AllDigits(s: string) { forall i :: 0 <= i < |s| ==> IsDigit(s[i]) }

  /** The number a string of digits denotes. */
  function Value(s: string): nat
    requires AllDigits(s)
  {
    if s == [] then 0 else 10 * Value(s[..|s| - 1]) + DigitOf(s[|s| - 1])
  }

  function Decimal(n: nat): (s: string)
    ensures s != [] && AllDigits(s)
  {
    if n < 10 then [('0' as int + n) as char] else Decimal(n / 10) + [('0' as int + n % 10) as char]
  }

  /** A decimal is never read back as another number. */
  lemma {:induction false} DecimalValue(n: nat)
    ensures Value(Decimal(n)) == n
  {
    if n >= 10 {
      DecimalValue(n / 10);
      var s := Decimal(n);
      assert s[..|s| - 1] == Decimal(n / 10);
    }
  }

  const MAX16 := 65535

  /** `strconv.ParseUint(s, 10, 16)`: at least one digit, nothing but digits, at most 65535; leading zeros are fine. */
  function Parse16(s: string): Option<nat> {
    if s != [] && AllDigits(s) && Value(s) <= MAX16 then Some(Value(s)) else None
  }

  lemma {:induction false} PrefixValue(s: string, k: nat)
    requires AllDigits(s) && k <= |s|
    ensures Value(s[..k]) <= Value(s)
  {
    if k < |s| {
      PrefixValue(s[..|s| - 1], k);
      assert s[..|s| - 1][..k] == s[..k];
    } else {
      assert s[..k] == s;
    }
  }

  /** The digit loop, which gives up at the first character that is no digit or makes the number too large. */
  method ParseUint16(s: string) returns (r: Option<nat>)
    ensures r == Parse16(s)
  {
    if s == [] {
      return None;
    }
    var n := 0;
    for i := 0 to |s|
      invariant AllDigits(s[..i]) && n == Value(s[..i]) && n <= MAX16
    {
      if !('0' <= s[i] <= '9') {
        return None;
      }
      assert s[..i + 1][..i] == s[..i];
      n := 10 * n + DigitOf(s[i]);
      if n > MAX16 {
        if AllDigits(s) { PrefixValue(s, i + 1); }
        return None;
      }
    }
    assert s[..|s|] == s;
    r := Some(n);
  }

  // ------------------------------------------------------------------
  // One community
  // ------------------------------------------------------------------

  /** `strings.SplitN(s, sep, 2)` for a single character: the parts around the first separator. */
  function Cut(s: string, sep: char): Option<(string, string)> {
    if s == [] then None
    else if s[0] == sep then Some(("", s[1..]))
    else
      var rest := Cut(s[1..], sep);
      if rest.None? then None else Some(([s[0]] + rest.value.0, rest.value.1))
  }

  lemma {:induction false} CutAt(a: string, sep: char, b: string)
    requires sep !in a
    ensures Cut(a + [sep] + b, sep) == Some((a, b))
  {
    var s := a + [sep] + b;
    if a == [] {
      assert s[1..] == b;
    } else {
      assert s[1..] == a[1..] + [sep] + b;
      CutAt(a[1..], sep, b);
      assert a == [a[0]] + a[1..];
    }
  }

  function ParseCommunity(s: string): Option<nat> {
    var parts := Cut(s, ':');
    if parts.None? then None else
    var high, low := Parse16(parts.value.0), Parse16(parts.value.1);
    if high.None? || low.None? then None else Some(high.value * 0x1_0000 + low.value)
  }

  function Print(c: nat): string {
    Decimal(c / 0x1_0000) + [':'] + Decimal(c % 0x1_0000)
  }

  const LIMIT := 0x1_0000_0000

  /** Reading the printed form of a 32-bit community gives it back. */
  lemma {:induction false} PrintParse(c: nat)
    requires c < LIMIT
    ensures ParseCommunity(Print(c)) == Some(c)
  {
    CutAt(Decimal(c / 0x1_0000), ':', Decimal(c % 0x1_0000));
    DecimalValue(c / 0x1_0000);
    DecimalValue(c % 0x1_0000);
  }

  /** The part before the colon is the high half. */
  lemma {:induction false} HalvesRead(high: nat, low: nat)
    requires high <= MAX16 && low <= MAX16
    ensures ParseCommunity(Decimal(high) + ":" + Decimal(low)) == Some(high * 65536 + low)
  {
    CutAt(Decimal(high), ':', Decimal(low));
    DecimalValue(high);
    DecimalValue(low);
  }

  /** A community as it is written. */
  lemma {:induction false} ReadsAsWritten()
    ensures ParseCommunity("65000:100") == Some(65000 * 65536 + 100)
  {
    assert Decimal(65) == "65" && Decimal(650) == "650" && Decimal(6500) == "6500" && Decimal(65000) == "65000";
    assert Decimal(10) == "10" && Decimal(100) == "100";
    HalvesRead(65000, 100);
    assert "65000" + ":" + "100" == "65000:100";
  }

  /** Every community that is read fits 32 bits, and printing it gives a text that is read alike. */
  lemma {:induction false} ParsePrint(s: string)
    requires ParseCommunity(s).Some?
    ensures ParseCommunity(s).value < LIMIT && ParseCommunity(Print(ParseCommunity(s).value)) == ParseCommunity(s)
  {
    PrintParse(ParseCommunity(s).value);
  }

  // ------------------------------------------------------------------
  // Lists
  // ------------------------------------------------------------------

  function ParseAll(strs: seq<string>): Option<seq<nat>> {
    if strs == [] then Some([]) else
    var init := ParseAll(strs[..|strs| - 1]);
    var last := ParseCommunity(strs[|strs| - 1]);
    if init.None? || last.None? then None else Some(init.value + [last.value])
  }

  lemma {:induction false} ParseAllIs(strs: seq<string>)
    ensures ParseAll(strs).Some? <==> forall i :: 0 <= i < |strs| ==> ParseCommunity(strs[i]).Some?
    ensures ParseAll(strs).Some? ==> |ParseAll(strs).value| == |strs|
    ensures ParseAll(strs).Some? ==>
      forall i :: 0 <= i < |strs| ==> ParseCommunity(strs[i]) == Some(ParseAll(strs).value[i])
  {
    if strs != [] { ParseAllIs(strs[..|strs| - 1]); }
  }

  /** `parseCommunities`: all of the list, or nothing. */
  method ParseCommunities(strs: seq<string>) returns (r: Option<seq<nat>>)
    ensures r == ParseAll(strs)
  {
    var comms := [];
    for i := 0 to |strs|
      invariant ParseAll(strs[..i]) == Some(comms)
    {
      assert strs[..i + 1][..i] == strs[..i];
      var parts := Cut(strs[i], ':');
      var high: Option<nat>, low: Option<nat> := None, None;
      if parts.Some? {
        high := ParseUint16(parts.value.0);
        low := ParseUint16(parts.value.1);
      }
      if parts.None? || high.None? || low.None? {
        ParseAllIs(strs);
        assert ParseCommunity(strs[i]).None?;
        return None;
      }
      comms := comms + [high.value * 0x1_0000 + low.value];
    }
    assert strs[..|strs|] == strs;
    r := Some(comms);
  }

  /**
    `validateCommunities`: the positions it complains about. It accepts a list exactly when
    `parseCommunities` succeeds on it.
   */
  method ValidateCommunities(list: seq<string>) returns (errs: seq<nat>)
    ensures errs == [] <==> ParseAll(list).Some?
    ensures forall i: nat :: i in errs <==> i < |list| && ParseCommunity(list[i]).None?
  {
    errs := [];
    for i := 0 to |list|
      invariant forall k: nat :: k in errs <==> k < i && ParseCommunity(list[k]).None?
    {
      var parts := Cut(list[i], ':');
      if parts.None? {
        errs := errs + [i];
        continue;
      }
      var halves := [parts.value.0, parts.value.1];
      var j := 0;
      while j < 2
        invariant 0 <= j <= 2
        invariant forall k :: 0 <= k < j ==> Parse16(halves[k]).Some?
      {
        var r := ParseUint16(halves[j]);
        if r.None? {
          assert Parse16(parts.value.0).None? || Parse16(parts.value.1).None?;
          errs := errs + [i];
          break;
        }
        j := j + 1;
      }
      assert j == 2 ==> Parse16(halves[0]).Some? && Parse16(halves[1]).Some?;
    }
    ParseAllIs(list);
    assert errs == [] || errs[0] in errs;
  }

  // ------------------------------------------------------------------
  // The printed list
  // ------------------------------------------------------------------

  predicate Before(a: string, b: string) {
    a == [] || (b != [] && (a[0] < b[0] || (a[0] == b[0] && Before(a[1..], b[1..]))))
  }

  function Insert(x: string, list: seq<string>): seq<string> {
    if list == [] || Before(x, list[0]) then [x] + list else [list[0]] + Insert(x, list[1..])
  }

  /** `sort.Strings`. */
  function Sort(list: seq<string>): seq<string> {
    if list == [] then [] else Insert(list[|list| - 1], Sort(list[..|list| - 1]))
  }

  predicate Ordered(list: seq<string>) {
    forall i :: 0 < i < |list| ==> Before(list[i - 1], list[i])
  }

  lemma {:induction false} Total(a: string, b: string)
    ensures Before(a, b) || Before(b, a)
  {
    if a != [] && b != [] && a[0] == b[0] { Total(a[1..], b[1..]); }
  }

  lemma {:induction false} InsertOrdered(x: string, list: seq<string>)
    requires Ordered(list)
    ensures Ordered(Insert(x, list)) && Insert(x, list)[0] == if list == [] || Before(x, list[0]) then x else list[0]
  {
    if list != [] && !Before(x, list[0]) {
      Total(x, list[0]);
      InsertOrdered(x, list[1..]);
    }
  }

  lemma {:induction false} SortOrders(list: seq<string>)
    ensures Ordered(Sort(list))
  {
    if list != [] {
      SortOrders(list[..|list| - 1]);
      InsertOrdered(list[|list| - 1], Sort(list[..|list| - 1]));
    }
  }

  function Printed(cs: seq<nat>): seq<string> { seq(|cs|, i requires 0 <= i < |cs| => Print(cs[i])) }

  function Join(strs: seq<string>): string {
    if strs == [] then "" else if |strs| == 1 then strs[0] else strs[0] + [','] + Join(strs[1..])
  }

  /** `stringifyCommunities`. */
  function Stringify(cs: seq<nat>): string { Join(Sort(Printed(cs))) }

  /** `strings.Split(s, ",")`. */
  function Split(s: string): seq<string>
    decreases |s|
  {
    var parts := Cut(s, ',');
    CutShrinks(s, ',');
    if parts.None? then [s] else [parts.value.0] + Split(parts.value.1)
  }

  lemma {:induction false} CutShrinks(s: string, sep: char)
    ensures Cut(s, sep).Some? ==> |Cut(s, sep).value.1| < |s|
    ensures Cut(s, sep).None? <==> sep !in s
  {
    if s != [] {
      CutShrinks(s[1..], sep);
      assert s == [s[0]] + s[1..];
    }
  }

  lemma {:induction false} SplitJoin(strs: seq<string>)
    requires strs != [] && forall i :: 0 <= i < |strs| ==> ',' !in strs[i]
    ensures Split(Join(strs)) == strs
  {
    CutShrinks(strs[0], ',');
    if |strs| > 1 {
      CutAt(strs[0], ',', Join(strs[1..]));
      SplitJoin(strs[1..]);
    }
  }

  lemma PrintHasNoComma(c: nat)
    ensures ',' !in Print(c)
  {
    assert forall i :: 0 <= i < |Decimal(c / 0x1_0000)| ==> Decimal(c / 0x1_0000)[i] != ',';
    assert forall i :: 0 <= i < |Decimal(c % 0x1_0000)| ==> Decimal(c % 0x1_0000)[i] != ',';
  }

  /** The communities in the order in which their printed forms are sorted. */
  function Rank(x: nat, list: seq<nat>): seq<nat> {
    if list == [] || Before(Print(x), Print(list[0])) then [x] + list else [list[0]] + Rank(x, list[1..])
  }

  function Ranked(cs: seq<nat>): seq<nat> {
    if cs == [] then [] else Rank(cs[|cs| - 1], Ranked(cs[..|cs| - 1]))
  }

  lemma {:induction false} RankIs(x: nat, list: seq<nat>)
    ensures Printed(Rank(x, list)) == Insert(Print(x), Printed(list))
    ensures multiset(Rank(x, list)) == multiset(list) + multiset{x}
  {
    if list != [] {
      RankIs(x, list[1..]);
      assert list == [list[0]] + list[1..];
      assert Printed(list)[1..] == Printed(list[1..]);
    }
  }

  lemma {:induction false} RankedIs(cs: seq<nat>)
    ensures Printed(Ranked(cs)) == Sort(Printed(cs))
    ensures multiset(Ranked(cs)) == multiset(cs)
  {
    if cs != [] {
      var k := |cs| - 1;
      RankedIs(cs[..k]);
      RankIs(cs[k], Ranked(cs[..k]));
      assert Printed(cs)[..k] == Printed(cs[..k]);
      assert cs == cs[..k] + [cs[k]];
    }
  }

  lemma {:induction false} PrintedParse(cs: seq<nat>)
    requires forall i :: 0 <= i < |cs| ==> cs[i] < LIMIT
    ensures ParseAll(Printed(cs)) == Some(cs)
  {
    hide Print, ParseCommunity;
    if cs != [] {
      var k := |cs| - 1;
      PrintedParse(cs[..k]);
      assert Printed(cs)[..k] == Printed(cs[..k]);
      assert Printed(cs)[k] == Print(cs[k]);
      PrintParse(cs[k]);
      assert cs == cs[..k] + [cs[k]];
    }
  }

  /** Printing a list and reading the text back preserves it as a multiset; the text lists it in string order. */
  lemma {:induction false} ListRoundTrip(cs: seq<nat>)
    requires cs != [] && forall i :: 0 <= i < |cs| ==> cs[i] < LIMIT
    ensures Ordered(Split(Stringify(cs)))
    ensures ParseAll(Split(Stringify(cs))).Some? && multiset(ParseAll(Split(Stringify(cs))).value) == multiset(cs)
  {
    hide Split, Join, Sort, Ranked, Print, ParseAll, Ordered;
    var ds := Ranked(cs);
    RankedIs(cs);
    SortOrders(Printed(cs));
    assert multiset(ds) == multiset(cs);
    forall i | 0 <= i < |ds|
      ensures ds[i] < LIMIT && ',' !in Printed(ds)[i]
    {
      assert ds[i] in multiset(cs);
      assert ds[i] in cs;
      PrintHasNoComma(ds[i]);
    }
    assert |ds| == |multiset(ds)| == |cs|;
    SplitJoin(Printed(ds));
    PrintedParse(ds);
  }
}
