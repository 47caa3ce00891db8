/** The string tests of the two authority selectors. */
module Text {
  import opened JobTypes

  predicate Space(c: char) {
    || '\t' <= c <= '\r' || c == ' ' || c == '\U{0085}' || c == '\U{00A0}' || c == '\U{1680}'
    || '\U{2000}' <= c <= '\U{200A}' || c == '\U{2028}' || c == '\U{2029}' || c == '\U{202F}'
    || c == '\U{205F}' || c == '\U{3000}'
  }

  /** strings.TrimSpace. */
  function Trim(s: string): string {
    if s == "" then ""
    else if Space(s[0]) then Trim(s[1..])
    else if Space(s[|s| - 1]) then Trim(s[..|s| - 1])
    else s
  }

  /** The `canonical` closure: not empty, and unchanged by trimming. */
  predicate Canonical(s: string) { s != "" && s == Trim(s) }

  /** Trimming is what it takes to become canonical, unless nothing is left. */
  lemma {:induction false} TrimIsCanonical(s: string)
    ensures Trim(Trim(s)) == Trim(s)
    ensures Trim(s) == "" || Canonical(Trim(s))
  {
    if s == "" {
    } else if Space(s[0]) {
      TrimIsCanonical(s[1..]);
    } else if Space(s[|s| - 1]) {
      TrimIsCanonical(s[..|s| - 1]);
    }
  }

  /** Trimming takes exactly the space at both ends. */
  lemma {:induction false} TrimMeans(s: string) returns (i: nat, j: nat)
    ensures i <= j <= |s| && Trim(s) == s[i..j]
    ensures forall k :: 0 <= k < i || j <= k < |s| ==> Space(s[k])
    ensures i < j ==> !Space(s[i]) && !Space(s[j - 1])
  {
    if s == "" {
      i, j := 0, 0;
    } else if Space(s[0]) {
      i, j := TrimMeans(s[1..]);
      i, j := i + 1, j + 1;
    } else if Space(s[|s| - 1]) {
      i, j := TrimMeans(s[..|s| - 1]);
    } else {
      i, j := 0, |s|;
    }
  }

  /** The order of `<` on Go strings, character by character. */
  predicate Less(a: string, b: string) {
    b != "" && (a == "" || a[0] < b[0] || (a[0] == b[0] && Less(a[1..], b[1..])))
  }

  lemma {:induction false} LessTrichotomy(a: string, b: string)
    ensures Less(a, b) || a == b || Less(b, a)
    ensures !(Less(a, b) && Less(b, a)) && !Less(a, a)
  {
    if a != "" && b != "" && a[0] == b[0] {
      LessTrichotomy(a[1..], b[1..]);
      LessTrichotomy(a[1..], a[1..]);
      assert a == [a[0]] + a[1..] && b == [b[0]] + b[1..];
    } else if a != "" {
      LessTrichotomy(a[1..], a[1..]);
    }
  }

  /** One name comes before another exactly when it is smaller where they first differ, or is a part of it. */
  lemma {:induction false} LessMeans(a: string, b: string)
    ensures Less(a, b) <==> exists i :: 0 <= i <= |a| && i < |b| && a[..i] == b[..i] && (i == |a| || a[i] < b[i])
  {
    if a != "" && b != "" && a[0] == b[0] {
      LessMeans(a[1..], b[1..]);
      if i :| 0 <= i <= |a| && i < |b| && a[..i] == b[..i] && (i == |a| || a[i] < b[i]) {
        assert i > 0 && a[1..][..i - 1] == a[..i][1..] && b[1..][..i - 1] == b[..i][1..];
      }
      if i :| 0 <= i <= |a| - 1 && i < |b| - 1 && a[1..][..i] == b[1..][..i] && (i == |a| - 1 || a[1..][i] < b[1..][i]) {
        assert a[..i + 1] == [a[0]] + a[1..][..i] && b[..i + 1] == [b[0]] + b[1..][..i];
      }
    } else if b != "" {
      assert a[..0] == b[..0];
      if i :| 0 <= i <= |a| && i < |b| && a[..i] == b[..i] && (i == |a| || a[i] < b[i]) {
        if i > 0 { assert a[..i][0] == b[..i][0]; }
      }
    }
  }

  lemma {:induction false} LessTransitive(a: string, b: string, c: string)
    requires Less(a, b) && Less(b, c)
    ensures Less(a, c)
  {
    if a != "" && a[0] == b[0] == c[0] {
      LessTransitive(a[1..], b[1..], c[1..]);
    }
  }

  /** The first of the names in the order of `<`. */
  ghost predicate First(names: set<Id>, name: Id) {
    name in names && forall other :: other in names && other != name ==> Less(name, other)
  }

  lemma FirstIsUnique(names: set<Id>, a: Id, b: Id)
    requires First(names, a) && First(names, b)
    ensures a == b
  {
    LessTrichotomy(a, b);
  }

  function Decimal(n: nat): string {
    var digits := "0123456789";
    if n < 10 then [digits[n]] else Decimal(n / 10) + [digits[n % 10]]
  }
}
