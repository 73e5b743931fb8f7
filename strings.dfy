/** The few string operations of Go's standard library that the core uses:
    `strings.Contains`, the `%d` verb on a non-negative int, and the `%v`
    verb on a `[]string`. */
module Strings {

  /** `sub` occurs in `s` starting at index `i`. */
  ghost predicate OccursAt(s: string, sub: string, i: int)
  {
    0 <= i && i + |sub| <= |s| && s[i..i + |sub|] == sub
  }

  /** `strings.Contains(s, sub)`. */
  function Contains(s: string, sub: string): (r: bool)
    ensures r <==> exists i :: OccursAt(s, sub, i)
    decreases |s|
  {
    if |sub| > |s| then false
    else if s[..|sub|] == sub then (assert OccursAt(s, sub, 0); true)
    else (OccursLater(s, sub); Contains(s[1..], sub))
  }

  /** When `sub` is not a prefix of `s`, it occurs in `s` exactly when it
      occurs in `s` without its first character. */
  lemma OccursLater(s: string, sub: string)
    requires |sub| <= |s| && s[..|sub|] != sub
    ensures (exists i :: OccursAt(s, sub, i)) <==> (exists i :: OccursAt(s[1..], sub, i))
  {
    forall i | OccursAt(s, sub, i)
      ensures OccursAt(s[1..], sub, i - 1)
    {
      assert i != 0;
      assert s[1..][i - 1..i - 1 + |sub|] == s[i..i + |sub|];
    }
    forall i | OccursAt(s[1..], sub, i)
      ensures OccursAt(s, sub, i + 1)
    {
      assert s[i + 1..i + 1 + |sub|] == s[1..][i..i + |sub|];
    }
  }

  /** Whatever surrounds it, a string contains itself. */
  lemma ContainsInfix(before: string, sub: string, after: string)
    ensures Contains(before + sub + after, sub)
  {
    var s := before + sub + after;
    assert s[|before|..|before| + |sub|] == sub;
    assert OccursAt(s, sub, |before|);
  }

  /** Containment is transitive: what occurs in a part of a string occurs
      in the whole string. */
  lemma ContainsTransitive(a: string, b: string, c: string)
    requires Contains(a, b) && Contains(b, c)
    ensures Contains(a, c)
  {
    var i :| OccursAt(a, b, i);
    var j :| OccursAt(b, c, j);
    forall t | 0 <= t < |c|
      ensures a[i + j + t] == c[t]
    {
      assert c[t] == b[j + t] == a[i..i + |b|][j + t];
    }
    assert a[i + j..i + j + |c|] == c;
    assert OccursAt(a, c, i + j);
  }

  /** The character of a decimal digit. */
  function DigitChar(d: nat): (c: char)
    requires d < 10
    ensures '0' <= c <= '9'
    ensures c as int - '0' as int == d
  {
    (d + '0' as int) as char
  }

  /** `fmt.Sprintf("%d", n)` for a non-negative `n`: its shortest decimal
      numeral. */
  function Decimal(n: nat): (s: string)
    ensures |s| >= 1
    ensures forall k :: 0 <= k < |s| ==> '0' <= s[k] <= '9'
    ensures |s| > 1 ==> s[0] != '0'
    decreases n
  {
    if n < 10 then [DigitChar(n)] else Decimal(n / 10) + [DigitChar(n % 10)]
  }

  /** The number a string of decimal digits denotes. */
  function DecimalValue(s: string): nat
    requires forall k :: 0 <= k < |s| ==> '0' <= s[k] <= '9'
    decreases |s|
  {
    if |s| == 0 then 0
    else DecimalValue(s[..|s| - 1]) * 10 + (s[|s| - 1] as int - '0' as int)
  }

  /** Reading back the numeral `%d` prints gives the same number. */
  lemma {:induction false} DecimalRoundTrip(n: nat)
    ensures DecimalValue(Decimal(n)) == n
    decreases n
  {
    if n >= 10 {
      DecimalRoundTrip(n / 10);
      var s := Decimal(n);
      assert s[..|s| - 1] == Decimal(n / 10);
    }
  }

  /** Different indices are printed as different numerals, so an error
      tagged with `%d` identifies the index it came from. */
  lemma DecimalInjective(a: nat, b: nat)
    ensures Decimal(a) == Decimal(b) ==> a == b
  {
    DecimalRoundTrip(a);
    DecimalRoundTrip(b);
  }

  /** A message that embeds an index with `%d` between fixed text
      identifies that index. */
  lemma DecimalTagInjective(pre: string, post: string, a: nat, b: nat)
    requires pre + Decimal(a) + post == pre + Decimal(b) + post
    ensures a == b
  {
    var s := pre + Decimal(a) + post;
    assert |Decimal(a)| == |Decimal(b)|;
    assert s[|pre|..|pre| + |Decimal(a)|] == Decimal(a);
    assert (pre + Decimal(b) + post)[|pre|..|pre| + |Decimal(b)|] == Decimal(b);
    DecimalInjective(a, b);
  }

  /** The elements of a list separated by single spaces. */
  function Spaced(items: seq<string>): string
    decreases |items|
  {
    if |items| == 0 then ""
    else if |items| == 1 then items[0]
    else items[0] + " " + Spaced(items[1..])
  }

  /** `fmt.Sprintf("%v", items)` for a `[]string`: `[a b c]`. */
  function FormatList(items: seq<string>): (s: string)
    ensures |s| >= 2 && s[0] == '[' && s[|s| - 1] == ']'
  {
    "[" + Spaced(items) + "]"
  }

  /** Every element of a list is visible in its `%v` rendering. */
  lemma {:induction false} SpacedContainsEach(items: seq<string>, k: nat)
    requires k < |items|
    ensures Contains(Spaced(items), items[k])
    decreases |items|
  {
    if |items| == 1 {
      ContainsInfix("", items[0], "");
      assert "" + items[0] + "" == Spaced(items);
    } else if k == 0 {
      ContainsInfix("", items[0], " " + Spaced(items[1..]));
      assert "" + items[0] + (" " + Spaced(items[1..])) == Spaced(items);
    } else {
      SpacedContainsEach(items[1..], k - 1);
      var rest := Spaced(items[1..]);
      var i :| OccursAt(rest, items[k], i);
      var pre := items[0] + " ";
      assert Spaced(items) == pre + rest;
      assert (pre + rest)[|pre| + i..|pre| + i + |items[k]|] == rest[i..i + |items[k]|];
      assert OccursAt(Spaced(items), items[k], |pre| + i);
    }
  }
}
