/** Texts as the services compare and clean them. */
module Text {

  /** The characters with the White_Space property of Unicode. */
  predicate Space(c: char) {
    || '\t' <= c <= '\r' || c == ' ' || c == '\U{0085}' || c == '\U{00A0}' || c == '\U{1680}'
    || '\U{2000}' <= c <= '\U{200A}' || c == '\U{2028}' || c == '\U{2029}' || c == '\U{202F}' || c == '\U{205F}' || c == '\U{3000}'
  }

  predicate Blank(s: string) {
    forall i :: 0 <= i < |s| ==> Space(s[i])
  }

  /** The text without the spaces around it. */
  function Trim(s: string): string
    decreases |s|
  {
    if s == "" then s
    else if Space(s[0]) then Trim(s[1..])
    else if Space(s[|s| - 1]) then Trim(s[..|s| - 1])
    else s
  }

  function Digit(d: nat): char
    requires d < 10
  {
    "0123456789"[d]
  }

  /** Decimal notation. */
  function Itoa(n: nat): (s: string)
    ensures s != []
  {
    if n < 10 then [Digit(n)] else Itoa(n / 10) + [Digit(n % 10)]
  }

  function ParseDigits(s: string): int {
    if s == [] then 0 else 10 * ParseDigits(s[..|s| - 1]) + (s[|s| - 1] as int - '0' as int)
  }

  lemma {:induction false} ParseItoa(n: nat)
    ensures ParseDigits(Itoa(n)) == n
  {
    if n < 10 {
      assert Itoa(n)[..0] == [];
    } else {
      ParseItoa(n / 10);
      assert Itoa(n)[..|Itoa(n)| - 1] == Itoa(n / 10);
    }
  }

  lemma {:induction false} ItoaHasNoDash(n: nat)
    ensures '-' !in Itoa(n)
  {
    if n >= 10 {
      ItoaHasNoDash(n / 10);
    }
  }

  lemma LaterDashIsInside(a: string, x: string, b: string, y: string)
    requires |a| < |b| && a + "-" + x == b + "-" + y
    ensures '-' in x
  {
    var key := a + "-" + x;
    assert key[|b|] == (b + "-" + y)[|b|] == '-';
    assert x[|b| - |a| - 1] == key[|b|];
  }

  lemma SameSplit(a: string, x: string, b: string, y: string)
    requires |a| == |b| && a + "-" + x == b + "-" + y
    ensures a == b && x == y
  {
    var key := a + "-" + x;
    assert a == key[..|a|] && x == key[|a| + 1..];
    assert key == b + "-" + y;
    assert b == key[..|b|] && y == key[|b| + 1..];
  }

  /** An ordinal after the last dash is read back whole. */
  lemma OrdinalIsReadBack(a: string, m: nat, b: string, n: nat)
    requires a + "-" + Itoa(m) == b + "-" + Itoa(n)
    ensures a == b && m == n
  {
    ItoaHasNoDash(m);
    ItoaHasNoDash(n);
    if |a| < |b| {
      LaterDashIsInside(a, Itoa(m), b, Itoa(n));
    } else if |b| < |a| {
      LaterDashIsInside(b, Itoa(n), a, Itoa(m));
    } else {
      SameSplit(a, Itoa(m), b, Itoa(n));
      ParseItoa(m);
      ParseItoa(n);
    }
  }

  lemma BlankConcat(a: string, b: string)
    ensures Blank(a + b) <==> Blank(a) && Blank(b)
  {
    assert forall i :: 0 <= i < |a| ==> (a + b)[i] == a[i];
    assert forall i :: 0 <= i < |b| ==> (a + b)[|a| + i] == b[i];
  }

  /** Nothing remains of a text exactly when it is blank, and what remains neither starts nor ends with a space. */
  lemma {:induction false} TrimStrips(s: string)
    ensures Blank(s) <==> Trim(s) == ""
    ensures Trim(s) != "" ==> !Space(Trim(s)[0]) && !Space(Trim(s)[|Trim(s)| - 1])
    decreases |s|
  {
    if s == "" {
    } else if Space(s[0]) {
      TrimStrips(s[1..]);
      BlankConcat([s[0]], s[1..]);
      assert s == [s[0]] + s[1..];
    } else if Space(s[|s| - 1]) {
      var n := |s| - 1;
      TrimStrips(s[..n]);
      BlankConcat(s[..n], [s[n]]);
      assert s == s[..n] + [s[n]];
    }
  }

  /** Only blanks are taken, and only from the ends. */
  lemma {:induction false} TrimTakesTheEnds(s: string) returns (before: string, after: string)
    ensures s == before + Trim(s) + after && Blank(before) && Blank(after)
    decreases |s|
  {
    before, after := "", "";
    if s == "" {
    } else if Space(s[0]) {
      var rest, after' := TrimTakesTheEnds(s[1..]);
      before, after := [s[0]] + rest, after';
      BlankConcat([s[0]], rest);
      assert s == [s[0]] + s[1..];
    } else if Space(s[|s| - 1]) {
      var n := |s| - 1;
      var before', rest := TrimTakesTheEnds(s[..n]);
      before, after := before', rest + [s[n]];
      BlankConcat(rest, [s[n]]);
      assert s == s[..n] + [s[n]];
    }
  }

  /** Dictionary order. */
  predicate Less(a: string, b: string)
    decreases |a|
  {
    b != "" && (a == "" || a[0] < b[0] || (a[0] == b[0] && Less(a[1..], b[1..])))
  }

  /** The first difference decides, and a proper prefix comes first. */
  lemma {:induction false} LessIsDictionaryOrder(a: string, b: string)
    ensures Less(a, b) <==>
              exists k :: 0 <= k <= |a| && k < |b| && a[..k] == b[..k] && (k == |a| || a[k] < b[k])
    decreases |a|
  {
    if Less(a, b) {
      if a == "" {
        assert a[..0] == b[..0];
      } else if a[0] < b[0] {
        assert a[..0] == b[..0];
      } else {
        LessIsDictionaryOrder(a[1..], b[1..]);
        var k :| 0 <= k <= |a[1..]| && k < |b[1..]| && a[1..][..k] == b[1..][..k] && (k == |a[1..]| || a[1..][k] < b[1..][k]);
        assert a[..k + 1] == [a[0]] + a[1..][..k] && b[..k + 1] == [b[0]] + b[1..][..k];
      }
    }
    if k :| 0 <= k <= |a| && k < |b| && a[..k] == b[..k] && (k == |a| || a[k] < b[k]) {
      if k > 0 {
        assert a[0] == a[..k][0] == b[..k][0] == b[0];
        assert a[1..][..k - 1] == a[..k][1..] == b[..k][1..] == b[1..][..k - 1];
        LessIsDictionaryOrder(a[1..], b[1..]);
      }
    }
  }

  lemma {:induction false} LessIsTotal(a: string, b: string)
    ensures Less(a, b) || a == b || Less(b, a)
    ensures Less(a, b) ==> !Less(b, a) && a != b
    decreases |a|
  {
    if a != "" && b != "" {
      LessIsTotal(a[1..], b[1..]);
      assert a == [a[0]] + a[1..] && b == [b[0]] + b[1..];
    }
  }

  lemma {:induction false} LessIsTransitive(a: string, b: string, c: string)
    requires Less(a, b) && Less(b, c)
    ensures Less(a, c)
    decreases |a|
  {
    if a != "" && a[0] == b[0] == c[0] {
      LessIsTransitive(a[1..], b[1..], c[1..]);
    }
  }
}
