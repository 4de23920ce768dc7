/** Splitting at a separator and joining, for bytes and characters alike (strings.Split and
    strings.Join; JavaScript's split). */
module Lines {

  // The pieces between separators; n separators give n + 1 pieces.
  function Split<T(==)>(s: seq<T>, nl: T): (lines: seq<seq<T>>)
    ensures lines != []
  {
    if s == [] then [[]]
    else
      var rest := Split(s[1..], nl);
      if s[0] == nl then [[]] + rest else [[s[0]] + rest[0]] + rest[1..]
  }

  function Join<T>(lines: seq<seq<T>>, nl: T): seq<T> {
    if lines == [] then []
    else if |lines| == 1 then lines[0]
    else lines[0] + [nl] + Join(lines[1..], nl)
  }

  ghost predicate Whole<T>(lines: seq<seq<T>>, nl: T) {
    forall i :: 0 <= i < |lines| ==> nl !in lines[i]
  }

  lemma {:induction false} SplitPieces<T>(s: seq<T>, nl: T)
    ensures Whole(Split(s, nl), nl)
  {
    if s != [] { SplitPieces(s[1..], nl); }
  }

  lemma {:induction false} JoinSplit<T>(s: seq<T>, nl: T)
    ensures Join(Split(s, nl), nl) == s
  {
    if s != [] {
      var rest := Split(s[1..], nl);
      JoinSplit(s[1..], nl);
      if s[0] == nl {
        assert ([[]] + rest)[1..] == rest;
      } else {
        var lines := [[s[0]] + rest[0]] + rest[1..];
        assert lines[1..] == rest[1..];
        if |rest| > 1 { assert [s[0]] + rest[0] + [nl] + Join(rest[1..], nl) == [s[0]] + Join(rest, nl); }
      }
    }
  }

  // A piece without separators splits off whatever follows its separator.
  lemma {:induction false} SplitFirst<T>(line: seq<T>, s: seq<T>, nl: T)
    requires nl !in line
    ensures Split(line + [nl] + s, nl) == [line] + Split(s, nl)
    ensures Split(line, nl) == [line]
  {
    if line == [] {
      assert line + [nl] + s == [nl] + s;
      assert ([nl] + s)[1..] == s;
    } else {
      var c, rest := line[0], line[1..];
      assert c in line && line == [c] + rest;
      SplitFirst(rest, s, nl);
      assert (line + [nl] + s)[1..] == rest + [nl] + s && (line + [nl] + s)[0] == c;
      assert ([rest] + Split(s, nl))[1..] == Split(s, nl);
      assert [rest][1..] == [];
    }
  }

  lemma {:induction false} SplitJoin<T>(lines: seq<seq<T>>, nl: T)
    requires lines != [] && Whole(lines, nl)
    ensures Split(Join(lines, nl), nl) == lines
  {
    if |lines| == 1 {
      SplitFirst(lines[0], [], nl);
    } else {
      SplitJoin(lines[1..], nl);
      SplitFirst(lines[0], Join(lines[1..], nl), nl);
    }
  }

  // Splitting a concatenation: the last piece of the first part continues into the second.
  function Glue<T>(a: seq<seq<T>>, b: seq<seq<T>>): seq<seq<T>>
    requires a != [] && b != []
  {
    a[..|a| - 1] + [a[|a| - 1] + b[0]] + b[1..]
  }

  lemma {:induction false} SplitConcat<T>(s: seq<T>, t: seq<T>, nl: T)
    ensures Split(s + t, nl) == Glue(Split(s, nl), Split(t, nl))
  {
    var b := Split(t, nl);
    if s == [] {
      assert s + t == t;
      assert [] + b[0] == b[0];
      assert Glue([[]], b) == [b[0]] + b[1..] == b;
    } else {
      SplitConcat(s[1..], t, nl);
      assert (s + t)[1..] == s[1..] + t && (s + t)[0] == s[0];
      GlueFirst(s[0], Split(s[1..], nl), b, nl);
    }
  }

  lemma GlueFirst<T>(c: T, a: seq<seq<T>>, b: seq<seq<T>>, nl: T)
    requires a != [] && b != []
    ensures Glue([[]] + a, b) == [[]] + Glue(a, b)
    ensures Glue([[c] + a[0]] + a[1..], b) == [[c] + Glue(a, b)[0]] + Glue(a, b)[1..]
  {
    var a' := [[c] + a[0]] + a[1..];
    if |a| == 1 {
      assert [c] + (a[0] + b[0]) == [c] + a[0] + b[0];
      assert Glue(a, b)[1..] == b[1..];
    } else {
      assert Glue(a, b)[1..] == a[1..|a| - 1] + [a[|a| - 1] + b[0]] + b[1..];
      assert a'[..|a'| - 1] == [[c] + a[0]] + a[1..|a| - 1];
    }
  }

  lemma {:induction false} JoinAppend<T>(a: seq<seq<T>>, b: seq<seq<T>>, nl: T)
    requires a != [] && b != []
    ensures Join(a + b, nl) == Join(a, nl) + [nl] + Join(b, nl)
  {
    if |a| == 1 {
      assert (a + b)[1..] == b;
    } else {
      JoinAppend(a[1..], b, nl);
      assert (a + b)[1..] == a[1..] + b;
    }
  }
}
