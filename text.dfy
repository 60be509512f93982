/** String helpers the handler and the job rely on: `string.Join`, the decimal rendering of
    `int.ToString()`, and the inverses used to state what those renderings preserve. */
module Text {

  /** `string.Join(sep, parts)`: the parts in order, with `sep` between neighbours. */
  function Join(sep: string, parts: seq<string>): string
  {
    if |parts| == 0 then ""
    else if |parts| == 1 then parts[0]
    else parts[0] + sep + Join(sep, parts[1..])
  }

  /** `s.Split(c)`: the maximal pieces of `s` between occurrences of `c`; always at least one. */
  function SplitOn(c: char, s: string): (pieces: seq<string>)
    ensures |pieces| >= 1
  {
    if |s| == 0 then [""]
    else
      var rest := SplitOn(c, s[1..]);
      if s[0] == c then [""] + rest
      else [[s[0]] + rest[0]] + rest[1..]
  }

  /** A prefix free of the separator sticks to the first piece. */
  lemma {:induction false} SplitOnPrefix(c: char, x: string, t: string)
    requires c !in x
    ensures SplitOn(c, x + t) == [x + SplitOn(c, t)[0]] + SplitOn(c, t)[1..]
  {
    if x == [] {
      var r := SplitOn(c, t);
      assert x + t == t && x + r[0] == r[0];
      assert r == [r[0]] + r[1..];
    } else {
      assert (x + t)[1..] == x[1..] + t;
      SplitOnPrefix(c, x[1..], t);
      assert [x[0]] + (x[1..] + SplitOn(c, t)[0]) == x + SplitOn(c, t)[0];
    }
  }

  /** Joining with a one-character separator and splitting on that character gives the parts
      back, provided no part contains the separator and there is at least one part. */
  lemma {:induction false} SplitJoin(c: char, parts: seq<string>)
    requires |parts| >= 1
    requires forall i :: 0 <= i < |parts| ==> c !in parts[i]
    ensures SplitOn(c, Join([c], parts)) == parts
  {
    if |parts| == 1 {
      SplitOnPrefix(c, parts[0], "");
      assert parts[0] + "" == parts[0];
    } else {
      var tail := Join([c], parts[1..]);
      SplitJoin(c, parts[1..]);
      assert Join([c], parts) == parts[0] + ([c] + tail);
      SplitOnPrefix(c, parts[0], [c] + tail);
      assert ([c] + tail)[1..] == tail;
      assert SplitOn(c, [c] + tail) == [""] + parts[1..];
      assert parts[0] + "" == parts[0];
      assert parts == [parts[0]] + parts[1..];
    }
  }

  /** The decimal digit character for `d`. */
  function DigitChar(d: nat): (ch: char)
    requires d < 10
    ensures '0' <= ch <= '9' && ch as int - '0' as int == d
  {
    (('0' as int) + d) as char
  }

  /** `n.ToString()` for a non-negative `n`: its decimal digits, most significant first. */
  function NatToString(n: nat): (s: string)
    ensures |s| >= 1
    ensures forall i :: 0 <= i < |s| ==> '0' <= s[i] <= '9'
    ensures s[0] == '0' ==> n == 0
  {
    if n < 10 then [DigitChar(n)] else NatToString(n / 10) + [DigitChar(n % 10)]
  }

  /** `n.ToString()` for any `int`: a minus sign in front of the magnitude when negative. */
  function IntToString(n: int): (s: string)
    ensures |s| >= 1
    ensures (s[0] == '-') <==> n < 0
  {
    if n < 0 then "-" + NatToString(-n) else NatToString(n)
  }

  /** The value of a string of decimal digits. */
  function ParseDigits(s: string): int
  {
    if s == [] then 0 else ParseDigits(s[..|s| - 1]) * 10 + (s[|s| - 1] as int - '0' as int)
  }

  /** The value of an optional minus sign followed by decimal digits. */
  function ParseInt(s: string): int
  {
    if |s| > 0 && s[0] == '-' then -ParseDigits(s[1..]) else ParseDigits(s)
  }

  lemma {:induction false} ParseNatToString(n: nat)
    ensures ParseDigits(NatToString(n)) == n
  {
    var s := NatToString(n);
    if n >= 10 {
      ParseNatToString(n / 10);
      assert s[..|s| - 1] == NatToString(n / 10);
    }
  }

  /** The rendering of an integer reads back as that integer, so distinct ages or counts are
      never rendered alike. */
  lemma ParseIntToString(n: int)
    ensures ParseInt(IntToString(n)) == n
  {
    if n < 0 {
      ParseNatToString(-n);
      assert IntToString(n)[1..] == NatToString(-n);
    } else {
      ParseNatToString(n);
    }
  }

  lemma IntToStringInjective(m: int, n: int)
    ensures IntToString(m) == IntToString(n) <==> m == n
  {
    ParseIntToString(m);
    ParseIntToString(n);
  }
}
