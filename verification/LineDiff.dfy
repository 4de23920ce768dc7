/** The dashboard's line diff: a longest-common-subsequence table and a backtracking walk. */
module LineDiff {
  import Lines

  datatype Line = Same(text: string) | Del(text: string) | Add(text: string)

  // ---- what a script says ----

  function Olds(script: seq<Line>): seq<string> {
    if script == [] then []
    else Olds(script[..|script| - 1]) + var l := script[|script| - 1]; if l.Add? then [] else [l.text]
  }

  function News(script: seq<Line>): seq<string> {
    if script == [] then []
    else News(script[..|script| - 1]) + var l := script[|script| - 1]; if l.Del? then [] else [l.text]
  }

  function Sames(script: seq<Line>): seq<string> {
    if script == [] then []
    else Sames(script[..|script| - 1]) + var l := script[|script| - 1]; if l.Same? then [l.text] else []
  }

  function Edits(script: seq<Line>): nat {
    if script == [] then 0
    else Edits(script[..|script| - 1]) + if script[|script| - 1].Same? then 0 else 1
  }

  // ---- common subsequences ----

  ghost predicate IsSubseq(c: seq<string>, a: seq<string>) {
    || c == []
    || (a != [] && ((c[0] == a[0] && IsSubseq(c[1..], a[1..])) || IsSubseq(c, a[1..])))
  }

  // The value of a table cell: the recurrence over the remaining suffixes.
  function Lcs(a: seq<string>, b: seq<string>): nat
    decreases |a| + |b|
  {
    if a == [] || b == [] then 0
    else if a[0] == b[0] then Lcs(a[1..], b[1..]) + 1
    else
      var x, y := Lcs(a[1..], b), Lcs(a, b[1..]);
      if x >= y then x else y
  }

  lemma {:induction false} SubseqTail(c: seq<string>, a: seq<string>)
    requires c != [] && IsSubseq(c, a)
    ensures a != [] && IsSubseq(c[1..], a[1..])
  {
    if c[0] == a[0] && IsSubseq(c[1..], a[1..]) {
    } else {
      SubseqTail(c, a[1..]);
      SubseqWiden(c[1..], a[1..][1..], a[1]);
      assert [a[1]] + a[1..][1..] == a[1..];
    }
  }

  lemma SubseqWiden(c: seq<string>, a: seq<string>, x: string)
    requires IsSubseq(c, a)
    ensures IsSubseq(c, [x] + a)
  {
    assert ([x] + a)[1..] == a;
  }

  // The recurrence is an upper bound on every common subsequence.
  lemma {:induction false} LcsIsUpperBound(a: seq<string>, b: seq<string>, c: seq<string>)
    requires IsSubseq(c, a) && IsSubseq(c, b)
    ensures |c| <= Lcs(a, b)
    decreases |a| + |b|
  {
    if c != [] {
      if a[0] == b[0] {
        SubseqTail(c, a);
        SubseqTail(c, b);
        LcsIsUpperBound(a[1..], b[1..], c[1..]);
      } else if IsSubseq(c, a[1..]) {
        LcsIsUpperBound(a[1..], b, c);
      } else {
        LcsIsUpperBound(a, b[1..], c);
      }
    }
  }

  lemma {:induction false} SubseqAppend(c: seq<string>, a: seq<string>, x: string)
    requires IsSubseq(c, a)
    ensures IsSubseq(c + [x], a + [x]) && IsSubseq(c, a + [x])
    decreases |a|
  {
    if a == [] {
      assert ([x] + [])[1..] == [] && IsSubseq([], []);
    } else if c == [] {
      SubseqAppend([], a[1..], x);
      assert (a + [x])[1..] == a[1..] + [x];
    } else {
      assert (a + [x])[1..] == a[1..] + [x] && (c + [x])[1..] == c[1..] + [x];
      if c[0] == a[0] && IsSubseq(c[1..], a[1..]) {
        SubseqAppend(c[1..], a[1..], x);
      } else {
        SubseqAppend(c, a[1..], x);
      }
    }
  }

  // ... and it is reached.
  lemma {:induction false} LcsIsReached(a: seq<string>, b: seq<string>) returns (c: seq<string>)
    ensures |c| == Lcs(a, b) && IsSubseq(c, a) && IsSubseq(c, b)
    decreases |a| + |b|
  {
    if a == [] || b == [] {
      c := [];
    } else if a[0] == b[0] {
      var rest := LcsIsReached(a[1..], b[1..]);
      c := [a[0]] + rest;
      assert c[1..] == rest;
    } else if Lcs(a[1..], b) >= Lcs(a, b[1..]) {
      c := LcsIsReached(a[1..], b);
    } else {
      c := LcsIsReached(a, b[1..]);
    }
  }

  lemma LcsShrinks(a: seq<string>, b: seq<string>)
    requires b != []
    ensures Lcs(a, b[1..]) <= Lcs(a, b)
  {
    var c := LcsIsReached(a, b[1..]);
    LcsIsUpperBound(a, b, c);
  }

  // The kept lines of any script are a common subsequence of its two sides, and its length is theirs.
  lemma {:induction false} SamesAreCommon(script: seq<Line>)
    ensures IsSubseq(Sames(script), Olds(script)) && IsSubseq(Sames(script), News(script))
    ensures |Olds(script)| + |News(script)| == 2 * |Sames(script)| + Edits(script)
  {
    if script != [] {
      var s, l := script[..|script| - 1], script[|script| - 1];
      SamesAreCommon(s);
      assert Olds(s) + [] == Olds(s) && News(s) + [] == News(s) && Sames(s) + [] == Sames(s);
      SubseqAppend(Sames(s), Olds(s), l.text);
      SubseqAppend(Sames(s), News(s), l.text);
    }
  }

  ghost predicate Explains(script: seq<Line>, a: seq<string>, b: seq<string>) {
    Olds(script) == a && News(script) == b
  }

  // A script with as many kept lines as the recurrence allows has the fewest edits.
  lemma FewestEdits(script: seq<Line>, a: seq<string>, b: seq<string>, other: seq<Line>)
    requires Explains(script, a, b) && Explains(other, a, b) && |Sames(script)| == Lcs(a, b)
    ensures Edits(script) <= Edits(other)
  {
    SamesAreCommon(script);
    SamesAreCommon(other);
    LcsIsUpperBound(a, b, Sames(other));
  }

  // ---- the algorithm ----

  method FillTable(a: seq<string>, b: seq<string>) returns (dp: array2<nat>)
    ensures fresh(dp) && dp.Length0 == |a| + 1 && dp.Length1 == |b| + 1
    ensures forall i, j :: 0 <= i <= |a| && 0 <= j <= |b| ==> dp[i, j] == Lcs(a[i..], b[j..])
  {
    var n, m := |a|, |b|;
    dp := new nat[n + 1, m + 1]((i, j) => 0);
    for i := n downto 0
      invariant forall r, j :: i <= r <= n && 0 <= j <= m ==> dp[r, j] == Lcs(a[r..], b[j..])
      invariant forall r :: 0 <= r <= n ==> dp[r, m] == 0
    {
      for j := m downto 0
        invariant forall r, k :: i < r <= n && 0 <= k <= m ==> dp[r, k] == Lcs(a[r..], b[k..])
        invariant forall k :: j <= k <= m ==> dp[i, k] == Lcs(a[i..], b[k..])
        invariant forall r :: 0 <= r <= n ==> dp[r, m] == 0
      {
        assert a[i..][1..] == a[i + 1..] && b[j..][1..] == b[j + 1..];
        dp[i, j] := if a[i] == b[j] then dp[i + 1, j + 1] + 1
                    else if dp[i + 1, j] >= dp[i, j + 1] then dp[i + 1, j] else dp[i, j + 1];
      }
    }
  }

  lemma Emit(s: seq<Line>, l: Line)
    ensures Olds(s + [l]) == Olds(s) + (if l.Add? then [] else [l.text])
    ensures News(s + [l]) == News(s) + (if l.Del? then [] else [l.text])
    ensures Sames(s + [l]) == Sames(s) + (if l.Same? then [l.text] else [])
  {
    assert (s + [l])[..|s|] == s;
  }

  // The walk has reached cell (i, j): the script explains both prefixes, and its kept lines plus the
  // best still possible are the best possible at all.
  ghost predicate Walked(script: seq<Line>, a: seq<string>, b: seq<string>, i: nat, j: nat) {
    && i <= |a| && j <= |b|
    && Explains(script, a[..i], b[..j])
    && |Sames(script)| + Lcs(a[i..], b[j..]) == Lcs(a, b)
  }

  lemma StartWalk(a: seq<string>, b: seq<string>)
    ensures Walked([], a, b, 0, 0)
  {
    assert a[0..] == a && b[0..] == b;
  }

  lemma EndWalk(script: seq<Line>, a: seq<string>, b: seq<string>)
    requires Walked(script, a, b, |a|, |b|)
    ensures Explains(script, a, b) && |Sames(script)| == Lcs(a, b)
  {
    assert a[..|a|] == a && b[..|b|] == b;
  }

  lemma KeepStep(script: seq<Line>, a: seq<string>, b: seq<string>, i: nat, j: nat)
    requires i < |a| && j < |b| && a[i] == b[j] && Walked(script, a, b, i, j)
    ensures Walked(script + [Same(a[i])], a, b, i + 1, j + 1)
  {
    Emit(script, Same(a[i]));
    assert a[i..][1..] == a[i + 1..] && b[j..][1..] == b[j + 1..];
    assert a[..i + 1] == a[..i] + [a[i]] && b[..j + 1] == b[..j] + [b[j]];
  }

  lemma DelStep(script: seq<Line>, a: seq<string>, b: seq<string>, i: nat, j: nat)
    requires i < |a| && j <= |b| && Walked(script, a, b, i, j)
    requires j == |b| || (a[i] != b[j] && Lcs(a[i + 1..], b[j..]) >= Lcs(a[i..], b[j + 1..]))
    ensures Walked(script + [Del(a[i])], a, b, i + 1, j)
  {
    Emit(script, Del(a[i]));
    assert a[i..][1..] == a[i + 1..] && (j < |b| ==> b[j..][1..] == b[j + 1..]);
    assert a[..i + 1] == a[..i] + [a[i]];
  }

  lemma AddStep(script: seq<Line>, a: seq<string>, b: seq<string>, i: nat, j: nat)
    requires i <= |a| && j < |b| && Walked(script, a, b, i, j)
    requires i == |a| || (a[i] != b[j] && Lcs(a[i + 1..], b[j..]) < Lcs(a[i..], b[j + 1..]))
    ensures Walked(script + [Add(b[j])], a, b, i, j + 1)
  {
    Emit(script, Add(b[j]));
    assert b[j..][1..] == b[j + 1..] && (i < |a| ==> a[i..][1..] == a[i + 1..]);
    assert b[..j + 1] == b[..j] + [b[j]];
  }

  // What was removed stands before what was added in its place.
  ghost predicate DeletionsFirst(script: seq<Line>) {
    forall k :: 0 <= k < |script| - 1 ==> !(script[k].Add? && script[k + 1].Del?)
  }

  // After an added line the next old line cannot be one to remove.
  ghost predicate KeepsNext(script: seq<Line>, a: seq<string>, b: seq<string>, i: nat, j: nat) {
    script != [] && script[|script| - 1].Add? ==>
      i == |a| || (i < |a| && j <= |b| && Lcs(a[i + 1..], b[j..]) < Lcs(a[i..], b[j..]))
  }

  lemma AddKeepsNext(script: seq<Line>, a: seq<string>, b: seq<string>, i: nat, j: nat)
    requires i <= |a| && j < |b|
    requires i == |a| || (a[i] != b[j] && Lcs(a[i + 1..], b[j..]) < Lcs(a[i..], b[j + 1..]))
    requires DeletionsFirst(script)
    ensures DeletionsFirst(script + [Add(b[j])]) && KeepsNext(script + [Add(b[j])], a, b, i, j + 1)
  {
    if i < |a| {
      LcsShrinks(a[i + 1..], b[j..]);
      assert b[j..][1..] == b[j + 1..];
    }
    hide Lcs;
  }

  lemma DelKeepsFirst(script: seq<Line>, a: seq<string>, b: seq<string>, i: nat, j: nat)
    requires i < |a| && j <= |b| && DeletionsFirst(script) && KeepsNext(script, a, b, i, j)
    requires j == |b| || (a[i] != b[j] && Lcs(a[i + 1..], b[j..]) >= Lcs(a[i..], b[j + 1..]))
    ensures DeletionsFirst(script + [Del(a[i])]) && KeepsNext(script + [Del(a[i])], a, b, i + 1, j)
  {
    assert a[i..][1..] == a[i + 1..] && (j < |b| ==> b[j..][1..] == b[j + 1..]);
  }

  lemma KeepKeepsFirst(script: seq<Line>, a: seq<string>, b: seq<string>, i: nat, j: nat)
    requires i < |a| && DeletionsFirst(script)
    ensures DeletionsFirst(script + [Same(a[i])]) && KeepsNext(script + [Same(a[i])], a, b, i + 1, j + 1)
  {}

  lemma StartOrder(a: seq<string>, b: seq<string>)
    ensures DeletionsFirst([]) && KeepsNext([], a, b, 0, 0)
  {}

  method Backtrack(a: seq<string>, b: seq<string>, dp: array2<nat>) returns (script: seq<Line>)
    requires dp.Length0 == |a| + 1 && dp.Length1 == |b| + 1
    requires forall i, j :: 0 <= i <= |a| && 0 <= j <= |b| ==> dp[i, j] == Lcs(a[i..], b[j..])
    ensures Explains(script, a, b) && |Sames(script)| == Lcs(a, b) && DeletionsFirst(script)
  {
    hide Lcs, Explains, Sames, Walked, KeepsNext, DeletionsFirst;
    var n, m := |a|, |b|;
    var i, j := 0, 0;
    script := [];
    StartWalk(a, b);
    StartOrder(a, b);
    while i < n && j < m
      invariant 0 <= i <= n && 0 <= j <= m && Walked(script, a, b, i, j)
      invariant DeletionsFirst(script) && KeepsNext(script, a, b, i, j)
      decreases n - i + m - j
    {
      if a[i] == b[j] {
        KeepStep(script, a, b, i, j);
        KeepKeepsFirst(script, a, b, i, j);
        script := script + [Same(a[i])];
        i, j := i + 1, j + 1;
      } else if dp[i + 1, j] >= dp[i, j + 1] {
        DelStep(script, a, b, i, j);
        DelKeepsFirst(script, a, b, i, j);
        script := script + [Del(a[i])];
        i := i + 1;
      } else {
        AddStep(script, a, b, i, j);
        AddKeepsNext(script, a, b, i, j);
        script := script + [Add(b[j])];
        j := j + 1;
      }
    }
    while i < n
      invariant 0 <= i <= n && 0 <= j <= m && (i == n || j == m) && Walked(script, a, b, i, j)
      invariant DeletionsFirst(script) && KeepsNext(script, a, b, i, j)
    {
      DelStep(script, a, b, i, j);
      DelKeepsFirst(script, a, b, i, j);
      script := script + [Del(a[i])];
      i := i + 1;
    }
    while j < m
      invariant 0 <= j <= m && Walked(script, a, b, n, j) && DeletionsFirst(script)
    {
      AddStep(script, a, b, n, j);
      AddKeepsNext(script, a, b, n, j);
      script := script + [Add(b[j])];
      j := j + 1;
    }
    EndWalk(script, a, b);
  }

  // Dropping the "add" lines gives the old text and dropping the "del" lines the new one; the kept lines
  // are a longest common subsequence; no script has fewer edits; removed lines stand before the lines
  // added in their place; and some line is always shown, so the "Identical to the default." note never is.
  method RenderDiff(oldText: string, newText: string) returns (script: seq<Line>)
    ensures Lines.Join(Olds(script), '\n') == oldText && Lines.Join(News(script), '\n') == newText
    ensures IsSubseq(Sames(script), Lines.Split(oldText, '\n')) && IsSubseq(Sames(script), Lines.Split(newText, '\n'))
    ensures forall c :: IsSubseq(c, Lines.Split(oldText, '\n')) && IsSubseq(c, Lines.Split(newText, '\n'))
                        ==> |c| <= |Sames(script)|
    ensures forall t :: Explains(t, Lines.Split(oldText, '\n'), Lines.Split(newText, '\n'))
                        ==> Edits(script) <= Edits(t)
    ensures script != [] && DeletionsFirst(script)
  {
    var a, b := Lines.Split(oldText, '\n'), Lines.Split(newText, '\n');
    var dp := FillTable(a, b);
    script := Backtrack(a, b, dp);
    Lines.JoinSplit(oldText, '\n');
    Lines.JoinSplit(newText, '\n');
    SamesAreCommon(script);
    forall c | IsSubseq(c, a) && IsSubseq(c, b) ensures |c| <= |Sames(script)| { LcsIsUpperBound(a, b, c); }
    forall t | Explains(t, a, b) ensures Edits(script) <= Edits(t) { FewestEdits(script, a, b, t); }
  }
}
