/** Stack names and the comma-separated id lists of the NetBird rows. */
module Names {
  import opened Wrappers

  // ---------------------------------------------------------------- decimal numbers

  predicate Digits(s: string) {
    forall i :: 0 <= i < |s| ==> '0' <= s[i] <= '9'
  }

  function Digit(d: nat): char
    requires d < 10
  {
    "0123456789"[d]
  }

  function Dec(n: nat): (s: string)
    ensures s != "" && Digits(s)
  {
    if n < 10 then [Digit(n)] else Dec(n / 10) + [Digit(n % 10)]
  }

  function Value(s: string): nat
    requires Digits(s)
  {
    if s == "" then 0 else
    10 * Value(s[..|s| - 1]) + (s[|s| - 1] as int - '0' as int)
  }

  lemma {:induction false} DecValue(n: nat)
    ensures Value(Dec(n)) == n
    ensures |Dec(n)| > 1 ==> Dec(n)[0] != '0'
  {
    if n < 10 {
      assert Dec(n)[..0] == "";
    } else {
      DecValue(n / 10);
      assert Dec(n)[..|Dec(n)| - 1] == Dec(n / 10);
      if n < 100 { assert Dec(n / 10) == [Digit(n / 10)]; }
    }
  }

  function Zeros(k: nat): (s: string)
    ensures |s| == k && forall i :: 0 <= i < k ==> s[i] == '0'
  {
    seq(k, _ => '0')
  }

  /** Formatting with width ten. */
  function Pad(n: nat): (s: string)
    ensures s != "" && Digits(s)
  {
    if |Dec(n)| < 10 then Zeros(10 - |Dec(n)|) + Dec(n) else Dec(n)
  }

  lemma {:induction false} ZerosValue(k: nat, s: string)
    requires Digits(s)
    ensures Digits(Zeros(k) + s) && Value(Zeros(k) + s) == Value(s)
    decreases |s|
  {
    if s == "" {
      assert Zeros(k) + s == Zeros(k);
      NoValue(k);
    } else {
      assert (Zeros(k) + s)[..k + |s| - 1] == Zeros(k) + s[..|s| - 1];
      ZerosValue(k, s[..|s| - 1]);
    }
  }

  lemma {:induction false} NoValue(k: nat)
    ensures Value(Zeros(k)) == 0
  {
    if k > 0 {
      assert Zeros(k)[..k - 1] == Zeros(k - 1);
      NoValue(k - 1);
    }
  }

  /** A padded number has ten digits, or more if it needs them, and keeps its value. */
  lemma PadWidth(n: nat)
    ensures Value(Pad(n)) == n && |Pad(n)| >= 10 && (|Pad(n)| > 10 ==> Pad(n)[0] != '0')
  {
    DecValue(n);
    if |Dec(n)| < 10 { ZerosValue(10 - |Dec(n)|, Dec(n)); }
  }

  /** `0*(\\d+)` keeps the digits after the leading zeros, and at least one digit. */
  function Strip(s: string): string {
    if |s| > 1 && s[0] == '0' then Strip(s[1..]) else s
  }

  lemma {:induction false} StripZeros(k: nat, s: string)
    requires s != "" && (|s| > 1 ==> s[0] != '0')
    ensures Strip(Zeros(k) + s) == s
  {
    if k == 0 {
      assert Zeros(k) + s == s;
    } else {
      assert (Zeros(k) + s)[1..] == Zeros(k - 1) + s;
      StripZeros(k - 1, s);
    }
  }

  lemma StripPad(n: nat)
    ensures Strip(Pad(n)) == Dec(n)
  {
    DecValue(n);
    StripZeros(if |Dec(n)| < 10 then 10 - |Dec(n)| else 0, Dec(n));
  }

  lemma {:induction false} StripFacts(s: string)
    requires s != "" && Digits(s)
    ensures Strip(s) != "" && Digits(Strip(s)) && Strip(Strip(s)) == Strip(s)
  {
    if |s| > 1 && s[0] == '0' { StripFacts(s[1..]); }
  }

  // ---------------------------------------------------------------- stack names

  /** `get_pool_prefix` followed by `get_stack_name`. */
  function StackName(prefix: string, pool: nat, unit: nat): string {
    prefix + "-p" + Pad(pool) + "-s" + Pad(unit)
  }

  /** The shape that the pattern `-p0*(\\d+)-s0*(\\d+)$` matches at the end of a name. */
  ghost predicate Matches(s: string, prefix: string, d1: string, d2: string) {
    s == prefix + "-p" + d1 + "-s" + d2 && d1 != "" && Digits(d1) && d2 != "" && Digits(d2)
  }

  /** Length of the longest digit suffix. */
  function DigitTail(s: string): (k: nat)
    ensures k <= |s|
  {
    if s != "" && '0' <= s[|s| - 1] <= '9' then 1 + DigitTail(s[..|s| - 1]) else 0
  }

  predicate EndsWith(s: string, t: string) {
    |t| <= |s| && s[|s| - |t|..] == t
  }

  /** A name cut before its digit suffix and the marker in front of it. */
  function Cut(s: string, marker: string): Option<(string, string)> {
    var k := DigitTail(s);
    var head := s[..|s| - k];
    if k > 0 && EndsWith(head, marker) then Some((head[..|head| - |marker|], s[|s| - k..])) else None
  }

  /** `_short_stack_name`. */
  function ShortStackName(s: string): string {
    match Cut(s, "-s")
    case None => s
    case Some((rest, d2)) =>
      match Cut(rest, "-p")
      case None => s
      case Some((prefix, d1)) => prefix + "-p" + Strip(d1) + "-s" + Strip(d2)
  }

  lemma {:induction false} DigitTailExact(head: string, d: string)
    requires Digits(d) && (head != "" ==> !('0' <= head[|head| - 1] <= '9'))
    ensures DigitTail(head + d) == |d|
  {
    if d == "" {
      assert head + d == head;
    } else {
      assert (head + d)[..|head + d| - 1] == head + d[..|d| - 1];
      DigitTailExact(head, d[..|d| - 1]);
    }
  }

  lemma {:induction false} DigitTailDigits(s: string)
    ensures Digits(s[|s| - DigitTail(s)..])
  {
    if s != "" && '0' <= s[|s| - 1] <= '9' {
      var t := s[..|s| - 1];
      DigitTailDigits(t);
      assert s[|s| - DigitTail(s)..] == t[|t| - DigitTail(t)..] + [s[|s| - 1]];
    }
  }

  lemma CutExact(rest: string, marker: string, d: string)
    requires marker == "-s" || marker == "-p"
    requires d != "" && Digits(d)
    ensures Cut(rest + marker + d, marker) == Some((rest, d))
  {
    var s, head := rest + marker + d, rest + marker;
    DigitTailExact(head, d);
    assert s[..|s| - |d|] == head && s[|s| - |d|..] == d && head[..|head| - 2] == rest && head[|head| - 2..] == marker;
  }

  lemma CutSound(s: string, marker: string)
    requires Cut(s, marker).Some?
    ensures var (rest, d) := Cut(s, marker).value; s == rest + marker + d && d != "" && Digits(d)
  {
    DigitTailDigits(s);
    var head := s[..|s| - DigitTail(s)];
    assert head == head[..|head| - |marker|] + head[|head| - |marker|..];
  }

  /** The pattern matches a name in at most one way, and the result is what the substitution gives. */
  lemma ShortMatches(s: string, prefix: string, d1: string, d2: string)
    requires Matches(s, prefix, d1, d2)
    ensures ShortStackName(s) == prefix + "-p" + Strip(d1) + "-s" + Strip(d2)
    ensures forall p, e1, e2 :: Matches(s, p, e1, e2) ==> p == prefix && e1 == d1 && e2 == d2
  {
    forall p, e1, e2 | Matches(s, p, e1, e2)
      ensures Cut(s, "-s") == Some((p + "-p" + e1, e2)) && Cut(p + "-p" + e1, "-p") == Some((p, e1))
    {
      CutExact(p + "-p" + e1, "-s", e2);
      CutExact(p, "-p", e1);
    }
    assert Matches(s, prefix, d1, d2);
  }

  lemma ShortNoMatch(s: string)
    requires forall p, e1, e2 :: !Matches(s, p, e1, e2)
    ensures ShortStackName(s) == s
  {
    if Cut(s, "-s").Some? {
      CutSound(s, "-s");
      var (rest, d2) := Cut(s, "-s").value;
      if Cut(rest, "-p").Some? {
        CutSound(rest, "-p");
        var (prefix, d1) := Cut(rest, "-p").value;
        assert Matches(s, prefix, d1, d2);
      }
    }
  }

  /** Shortening a stack name replaces the padded numbers by plain decimals and keeps the prefix. */
  lemma ShortOfStackName(prefix: string, pool: nat, unit: nat)
    ensures ShortStackName(StackName(prefix, pool, unit)) == prefix + "-p" + Dec(pool) + "-s" + Dec(unit)
  {
    ShortMatches(StackName(prefix, pool, unit), prefix, Pad(pool), Pad(unit));
    StripPad(pool);
    StripPad(unit);
  }

  /** No two units share a short name, whatever the prefixes. */
  lemma ShortNamesInjective(prefix: string, pool: nat, unit: nat, prefix': string, pool': nat, unit': nat)
    requires ShortStackName(StackName(prefix, pool, unit)) == ShortStackName(StackName(prefix', pool', unit'))
    ensures prefix == prefix' && pool == pool' && unit == unit'
  {
    ShortOfStackName(prefix, pool, unit);
    ShortOfStackName(prefix', pool', unit');
    var s := prefix + "-p" + Dec(pool) + "-s" + Dec(unit);
    ShortMatches(s, prefix, Dec(pool), Dec(unit));
    assert Matches(s, prefix', Dec(pool'), Dec(unit'));
    DecValue(pool);
    DecValue(unit);
    DecValue(pool');
    DecValue(unit');
  }

  /** Shortening any name twice is shortening it once. */
  lemma ShortIdempotent(s: string)
    ensures ShortStackName(ShortStackName(s)) == ShortStackName(s)
  {
    if p, e1, e2 :| Matches(s, p, e1, e2) {
      ShortMatches(s, p, e1, e2);
      StripFacts(e1);
      StripFacts(e2);
      ShortMatches(ShortStackName(s), p, Strip(e1), Strip(e2));
    } else {
      ShortNoMatch(s);
    }
  }

  // ---------------------------------------------------------------- id lists

  function Join(ids: seq<string>): string {
    if |ids| == 0 then "" else if |ids| == 1 then ids[0] else ids[0] + "," + Join(ids[1..])
  }

  /** `s.split(',')`: the pieces between commas, at least one. */
  function Split(s: string): (pieces: seq<string>)
    ensures |pieces| > 0
  {
    if s == "" then [""] else
    var rest := Split(s[1..]);
    if s[0] == ',' then [""] + rest else [[s[0]] + rest[0]] + rest[1..]
  }

  function NonEmpty(pieces: seq<string>): seq<string> {
    if pieces == [] then [] else (if pieces[0] == "" then [] else [pieces[0]]) + NonEmpty(pieces[1..])
  }

  /** What `get_route_id_list` makes of the stored text. */
  function ListOf(text: string): seq<string> {
    if text == "" then [] else NonEmpty(Split(text))
  }

  /** The row's `route_ids` column. */
  class RouteColumn {
    var text: Option<string>

    /** `set_route_id_list`. */
    method SetList(ids: seq<string>)
      modifies this
      ensures text == Some(Join(ids))
    {
      var joined := "";
      var i := |ids|;
      while i > 0
        invariant 0 <= i <= |ids| && joined == Join(ids[i..])
      {
        i := i - 1;
        joined := if i == |ids| - 1 then ids[i] else ids[i] + "," + joined;
        assert ids[i..][1..] == ids[i + 1..];
      }
      text := Some(joined);
    }

    /** `get_route_id_list`. */
    function List(): seq<string>
      reads this
    {
      if text.None? then [] else ListOf(text.value)
    }
  }

  predicate Plain(id: string) {
    id != "" && ',' !in id
  }

  lemma {:induction false} SplitPlain(id: string)
    requires ',' !in id
    ensures Split(id) == [id]
  {
    if id != "" {
      SplitPlain(id[1..]);
      assert id[0] in id && [id[0]] + id[1..] == id;
    }
  }

  lemma {:induction false} SplitJoined(id: string, rest: string)
    requires ',' !in id
    ensures Split(id + "," + rest) == [id] + Split(rest)
  {
    if id == "" {
      assert (id + "," + rest)[1..] == rest;
    } else {
      assert (id + "," + rest)[1..] == id[1..] + "," + rest;
      SplitJoined(id[1..], rest);
      assert id[0] in id && [id[0]] + id[1..] == id;
    }
  }

  lemma {:induction false} SplitJoin(ids: seq<string>)
    requires ids != [] && forall id :: id in ids ==> Plain(id)
    ensures Split(Join(ids)) == ids && NonEmpty(ids) == ids && Join(ids) != ""
  {
    assert Plain(ids[0]);
    if |ids| == 1 {
      SplitPlain(ids[0]);
    } else {
      SplitJoined(ids[0], Join(ids[1..]));
      SplitJoin(ids[1..]);
    }
  }

  lemma {:induction false} SplitPieces(s: string)
    ensures forall p :: p in Split(s) ==> ',' !in p
  {
    if s != "" {
      SplitPieces(s[1..]);
      assert Split(s[1..])[0] in Split(s[1..]);
    }
  }

  lemma {:induction false} NonEmptyPieces(pieces: seq<string>)
    ensures forall p :: p in NonEmpty(pieces) ==> p != "" && p in pieces
  {
    if pieces != [] { NonEmptyPieces(pieces[1..]); }
  }

  /** Storing a list of ids and reading it back returns the list exactly when every id is non-empty and
      free of commas. */
  lemma RouteListRoundTrip(ids: seq<string>)
    ensures ListOf(Join(ids)) == ids <==> forall id :: id in ids ==> Plain(id)
  {
    if ids != [] && forall id :: id in ids ==> Plain(id) {
      SplitJoin(ids);
    }
    SplitPieces(Join(ids));
    NonEmptyPieces(Split(Join(ids)));
  }
}
