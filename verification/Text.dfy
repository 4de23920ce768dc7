/** Text operations the repository takes from its standard libraries: white space, trimming,
    splitting at a separator and joining. */
module Text {

  // unicode.IsSpace.
  predicate IsSpace(c: char) {
    || c in " \t\n\r" || c == '\U{B}' || c == '\U{C}' || c == '\U{85}' || c == '\U{A0}'
    || c == '\U{1680}' || '\U{2000}' <= c <= '\U{200A}' || c == '\U{2028}' || c == '\U{2029}'
    || c == '\U{202F}' || c == '\U{205F}' || c == '\U{3000}'
  }

  function TrimLeft(s: string): string {
    if s != "" && IsSpace(s[0]) then TrimLeft(s[1..]) else s
  }

  function TrimRight(s: string): string {
    if s != "" && IsSpace(s[|s| - 1]) then TrimRight(s[..|s| - 1]) else s
  }

  // strings.TrimSpace
  function Trim(s: string): string {
    TrimRight(TrimLeft(s))
  }

  lemma {:induction false} TrimRightAfter(a: string, b: string)
    requires a != "" && !IsSpace(a[|a| - 1])
    ensures TrimRight(a + b) == a + TrimRight(b)
  {
    if b == "" {
      assert a + b == a;
    } else if IsSpace(b[|b| - 1]) {
      TrimRightAfter(a, b[..|b| - 1]);
      assert (a + b)[..|a + b| - 1] == a + b[..|b| - 1];
    }
  }

  // A trailing space makes no difference.
  lemma {:induction false} TrimDropsLast(s: string, c: char)
    requires IsSpace(c)
    ensures Trim(s + [c]) == Trim(s)
  {
    if s == "" {
      assert s + [c] == [c] && [c][1..] == "";
    } else if IsSpace(s[0]) {
      TrimDropsLast(s[1..], c);
      assert (s + [c])[1..] == s[1..] + [c];
    } else {
      assert TrimLeft(s + [c]) == s + [c] && TrimLeft(s) == s;
      assert (s + [c])[..|s|] == s;
    }
  }

  // Trimming the right end first makes no difference.
  lemma {:induction false} TrimOfTrimRight(s: string)
    ensures Trim(TrimRight(s)) == Trim(s)
  {
    if s != "" && IsSpace(s[|s| - 1]) {
      var t, c := s[..|s| - 1], s[|s| - 1];
      TrimOfTrimRight(t);
      TrimDropsLast(t, c);
      assert t + [c] == s;
    }
  }

  // ---- what trimming is ----

  predicate Blank(s: string) { forall i :: 0 <= i < |s| ==> IsSpace(s[i]) }

  lemma {:induction false} TrimLeftIs(s: string) returns (i: nat)
    ensures i <= |s| && TrimLeft(s) == s[i..] && Blank(s[..i]) && (i < |s| ==> !IsSpace(s[i]))
  {
    if s != "" && IsSpace(s[0]) {
      i := TrimLeftIs(s[1..]);
      i := i + 1;
      assert s[..i] == [s[0]] + s[1..][..i - 1] && s[i..] == s[1..][i - 1..];
    } else {
      i := 0;
    }
  }

  lemma {:induction false} TrimRightIs(s: string) returns (j: nat)
    ensures j <= |s| && TrimRight(s) == s[..j] && Blank(s[j..]) && (j > 0 ==> !IsSpace(s[j - 1]))
  {
    if s != "" && IsSpace(s[|s| - 1]) {
      var t := s[..|s| - 1];
      j := TrimRightIs(t);
      assert s[j..] == t[j..] + [s[|s| - 1]] && s[..j] == t[..j];
    } else {
      j := |s|;
    }
  }

  // Trimming takes off exactly the spaces at both ends.
  lemma TrimIs(s: string) returns (i: nat, j: nat)
    ensures i <= j <= |s| && Trim(s) == s[i..j]
    ensures Blank(s[..i]) && Blank(s[j..]) && (i < j ==> !IsSpace(s[i]) && !IsSpace(s[j - 1]))
  {
    i := TrimLeftIs(s);
    var k := TrimRightIs(s[i..]);
    j := i + k;
    assert s[i..][..k] == s[i..j] && s[i..][k..] == s[j..];
    hide IsSpace, TrimLeft, TrimRight;
    if i < j { assert s[i..][k - 1] == s[j - 1] && s[i..][0] == s[i]; }
  }

  lemma TrimOfBlank(s: string)
    ensures Trim(s) == "" <==> Blank(s)
  {
    var i, j := TrimIs(s);
    hide IsSpace, Trim;
    if i == j {
      forall k | 0 <= k < |s| ensures IsSpace(s[k]) {
        if k < i { assert s[..i][k] == s[k]; } else { assert s[j..][k - j] == s[k]; }
      }
    }
  }

  // A trimmed text neither starts nor ends with a space.
  lemma {:induction false} TrimmedEnds(s: string)
    requires s != "" && Trim(s) == s
    ensures !IsSpace(s[0]) && !IsSpace(s[|s| - 1])
  {
    var front, last := s[..|s| - 1], s[|s| - 1];
    assert front + [last] == s;
    ShorterAfterTrim(s[1..]);
    ShorterAfterTrimRight(TrimLeft(s));
    ShorterAfterTrim(front);
    if IsSpace(last) { TrimDropsLast(front, last); }
  }

  lemma {:induction false} ShorterAfterTrimRight(s: string)
    ensures |TrimRight(s)| <= |s|
  {
    if s != "" && IsSpace(s[|s| - 1]) { ShorterAfterTrimRight(s[..|s| - 1]); }
  }

  lemma {:induction false} ShorterAfterTrim(s: string)
    ensures |TrimLeft(s)| <= |s| && |Trim(s)| <= |s|
  {
    if s != "" && IsSpace(s[0]) { ShorterAfterTrim(s[1..]); }
    ShorterAfterTrimRight(TrimLeft(s));
  }
}
