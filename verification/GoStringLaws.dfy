/** What the string operations mean, in terms of characters and places. */
module GoStringLaws {
  import opened GoStrings

  /** The order is decided at the first character that differs, or by the length if none does. */
  lemma {:induction false} StrLeqIsLexicographic(common: string, a: string, b: string)
    requires a != [] && b != [] ==> a[0] != b[0]
    ensures StrLeq(common + a, common + b) <==> a == [] || (b != [] && a[0] < b[0])
  {
    if common == [] {
      assert common + a == a && common + b == b;
    } else {
      var p, q := common + a, common + b;
      assert p[0] == q[0] && p[1..] == common[1..] + a && q[1..] == common[1..] + b;
      StrLeqIsLexicographic(common[1..], a, b);
    }
  }

  /** A text contains another exactly when the other stands at some place of it. */
  lemma {:induction false} ContainsSomewhere(s: string, sub: string)
    ensures Contains(s, sub) <==> exists i :: 0 <= i <= |s| && sub <= s[i..]
  {
    if sub <= s {
      assert s[0..] == s;
    } else if s != [] {
      ContainsSomewhere(s[1..], sub);
      if i :| 0 <= i <= |s[1..]| && sub <= s[1..][i..] { assert s[1..][i..] == s[i + 1..]; }
      if i :| 0 <= i <= |s| && sub <= s[i..] {
        assert i > 0 by { assert s[0..] == s; }
        assert s[1..][i - 1..] == s[i..];
      }
    } else {
      assert forall i :: 0 <= i <= |s| ==> s[i..] == s;
    }
  }

  predicate AllWhite(s: string) {
    forall c :: c in s ==> IsSpace(c)
  }

  lemma {:induction false} TrimStartIs(s: string) returns (before: string)
    ensures AllWhite(before) && s == before + TrimStart(s) && (TrimStart(s) != [] ==> !IsSpace(TrimStart(s)[0]))
  {
    if s != [] && IsSpace(s[0]) {
      var rest := TrimStartIs(s[1..]);
      before := [s[0]] + rest;
      assert s == [s[0]] + s[1..];
    } else {
      before := [];
    }
  }

  lemma {:induction false} TrimEndIs(s: string) returns (after: string)
    ensures AllWhite(after) && s == TrimEnd(s) + after && (TrimEnd(s) != [] ==> !IsSpace(TrimEnd(s)[|TrimEnd(s)| - 1]))
  {
    if s != [] && IsSpace(s[|s| - 1]) {
      var rest := TrimEndIs(s[..|s| - 1]);
      after := rest + [s[|s| - 1]];
      assert s == s[..|s| - 1] + [s[|s| - 1]];
      assert s == TrimEnd(s) + after;
    } else {
      after := [];
    }
  }

  /** Trimming takes white space off both ends, and leaves none there. */
  lemma TrimSpaceIs(s: string) returns (before: string, after: string)
    ensures s == before + TrimSpace(s) + after && AllWhite(before) && AllWhite(after)
    ensures TrimSpace(s) == "" || Tidy(TrimSpace(s))
  {
    before := TrimStartIs(s);
    after := TrimEndIs(TrimStart(s));
    var t, u := TrimSpace(s), TrimStart(s);
    assert s == before + (t + after);
    if t != [] { assert u == t + after && u[0] == t[0]; }
  }
}
