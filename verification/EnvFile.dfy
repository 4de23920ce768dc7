/** The dashboard's secret files: replacing one KEY=value line of an env file, and reading a key back. */
module EnvFile {
  import opened Protocol
  import Lines
  import Text

  // ---- KEY=value lines ----

  // The position of the first '=' (strings.Cut).
  function FirstEq(s: string): (i: nat)
    ensures i <= |s| && '=' !in s[..i] && (i < |s| ==> s[i] == '=')
  {
    if s == "" || s[0] == '=' then 0
    else
      var i := FirstEq(s[1..]) + 1;
      assert s[..i] == [s[0]] + s[1..][..i - 1];
      i
  }

  function KeyOf(line: string): Option<string> {
    var t := Text.Trim(line);
    if FirstEq(t) == |t| then None else Some(Text.Trim(t[..FirstEq(t)]))
  }

  function ValueOf(line: string): string
    requires KeyOf(line).Some?
  {
    var t := Text.Trim(line);
    Text.Trim(t[FirstEq(t) + 1..])
  }

  predicate HasKey(line: string, key: string) { KeyOf(line) == Some(key) }

  function KeyLine(key: string, val: string): string { key + "=" + val }

  // A key that can stand in an env file.
  predicate ProperKey(key: string) {
    key != "" && Text.Trim(key) == key && '=' !in key && '\n' !in key
  }

  lemma FirstEqAfterKey(key: string, rest: string)
    requires '=' !in key
    ensures FirstEq(key + "=" + rest) == |key|
  {
    var s := key + "=" + rest;
    var i := FirstEq(s);
    assert s[|key|] == '=';
    assert forall j :: 0 <= j < |key| ==> s[j] in key;
    assert forall j :: 0 <= j < i ==> s[j] in s[..i];
  }

  // A written line carries its key and the trimmed value.
  lemma KeyLineReads(key: string, val: string)
    requires ProperKey(key)
    ensures KeyOf(KeyLine(key, val)) == Some(key) && ValueOf(KeyLine(key, val)) == Text.Trim(val)
  {
    Text.TrimmedEnds(key);
    var line, v := KeyLine(key, val), Text.TrimRight(val);
    Text.TrimRightAfter(key + "=", val);
    assert Text.TrimLeft(line) == line;
    var t := Text.Trim(line);
    assert t == key + "=" + v;
    FirstEqAfterKey(key, v);
    assert t[..|key|] == key && t[|key| + 1..] == v;
    Text.TrimOfTrimRight(val);
  }

  lemma BlankHasNoKey(line: string)
    requires Text.Trim(line) == ""
    ensures KeyOf(line) == None
  {}

  // ---- reading ----

  const SCAN_LIMIT: nat := 65535

  function Utf8Len(c: char): nat {
    if c < '\U{80}' then 1 else if c < '\U{800}' then 2 else if c < '\U{10000}' then 3 else 4
  }

  function ByteLen(s: string): nat {
    if s == "" then 0 else Utf8Len(s[0]) + ByteLen(s[1..])
  }

  // UTF-8: at least one byte and at most four a character, and one each for plain ASCII.
  lemma {:induction false} ByteLenIs(s: string)
    ensures |s| <= ByteLen(s) <= 4 * |s|
    ensures Ascii(s) <==> ByteLen(s) == |s|
  {
    if s != "" {
      ByteLenIs(s[1..]);
      assert Ascii(s) ==> Ascii(s[1..]);
      assert forall i :: 0 < i < |s| ==> s[i] == s[1..][i - 1];
    }
  }

  predicate Ascii(s: string) { forall i :: 0 <= i < |s| ==> s[i] < '\U{80}' }

  predicate Scannable(line: string) { ByteLen(line) <= SCAN_LIMIT }

  ghost predicate AllScannable(lines: seq<string>) {
    forall i :: 0 <= i < |lines| ==> Scannable(lines[i])
  }

  // The scanner drops one carriage return before the line break.
  function DropCR(line: string): string {
    if line != "" && line[|line| - 1] == '\r' then line[..|line| - 1] else line
  }

  lemma DropCRKeepsTrim(line: string)
    ensures Text.Trim(DropCR(line)) == Text.Trim(line)
  {
    if DropCR(line) != line {
      Text.TrimDropsLast(DropCR(line), '\r');
      assert DropCR(line) + ['\r'] == line;
    }
  }

  // The first line with the key; a line over the scanner's limit ends the search.
  function FindValue(lines: seq<string>, key: string): Option<string> {
    if lines == [] || !Scannable(lines[0]) then None
    else if HasKey(lines[0], key) then Some(ValueOf(lines[0]))
    else FindValue(lines[1..], key)
  }

  // The value a target holds, or None. Without a key the whole file is the value.
  function Read(body: Option<string>, key: string): Option<string> {
    if body.None? then None
    else if key == "" then Some(Text.Trim(body.value))
    else FindValue(Lines.Split(body.value, '\n'), key)
  }

  // One line of the scan.
  method ScanLine(raw: string, key: string) returns (val: Option<string>)
    ensures val == if HasKey(raw, key) then Some(ValueOf(raw)) else None
  {
    DropCRKeepsTrim(raw);
    var line := Text.Trim(DropCR(raw));
    var at := FirstEq(line);
    if at < |line| && Text.Trim(line[..at]) == key {
      return Some(Text.Trim(line[at + 1..]));
    }
    return None;
  }

  method ReadSecretValue(body: Option<string>, key: string) returns (val: Option<string>)
    ensures val == Read(body, key)
  {
    if body.None? { return None; }
    if key == "" { return Some(Text.Trim(body.value)); }
    var lines := Lines.Split(body.value, '\n');
    hide Lines.Split, HasKey, ValueOf, ByteLen;
    for i := 0 to |lines|
      invariant FindValue(lines, key) == FindValue(lines[i..], key)
    {
      assert lines[i..][0] == lines[i] && lines[i..][1..] == lines[i + 1..];
      if ByteLen(lines[i]) > SCAN_LIMIT { return None; }
      val := ScanLine(lines[i], key);
      if val.Some? { return; }
    }
    assert lines[|lines|..] == [];
    return None;
  }

  // ---- writing ----

  function DropBlankTail(lines: seq<string>): seq<string> {
    if lines != [] && Text.Trim(lines[|lines| - 1]) == "" then DropBlankTail(lines[..|lines| - 1]) else lines
  }

  // Position of the first line with the key, or the number of lines.
  function FirstWithKey(lines: seq<string>, key: string): (i: nat)
    ensures i <= |lines| && (forall j :: 0 <= j < i ==> !HasKey(lines[j], key))
    ensures i < |lines| ==> HasKey(lines[i], key)
  {
    if lines == [] || HasKey(lines[0], key) then 0 else FirstWithKey(lines[1..], key) + 1
  }

  // The lines of the new body: one line replaced, or one added after the last line that is not blank.
  function Edited(lines: seq<string>, key: string, val: string): seq<string> {
    var i := FirstWithKey(lines, key);
    if i < |lines| then lines[i := KeyLine(key, val)] else DropBlankTail(lines) + [KeyLine(key, val)]
  }

  // A body ends with a line break: its last piece is empty.
  function Terminated(lines: seq<string>): seq<string>
    requires lines != []
  {
    if lines[|lines| - 1] == "" then lines else lines + [""]
  }

  // The new body.
  function Upsert(body: string, key: string, val: string): string {
    Lines.Join(Terminated(Edited(Lines.Split(body, '\n'), key, val)), '\n')
  }

  lemma {:induction false} DropBlankTailIs(lines: seq<string>)
    ensures DropBlankTail(lines) <= lines
    ensures forall i :: |DropBlankTail(lines)| <= i < |lines| ==> Text.Trim(lines[i]) == ""
    ensures DropBlankTail(lines) != [] ==> Text.Trim(lines[|DropBlankTail(lines)| - 1]) != ""
  {
    hide Text.Trim;
    if lines != [] { DropBlankTailIs(lines[..|lines| - 1]); }
  }

  lemma EditedIsWhole(lines: seq<string>, key: string, val: string)
    requires Lines.Whole(lines, '\n') && ProperKey(key) && '\n' !in val
    ensures Lines.Whole(Edited(lines, key, val), '\n')
    ensures exists i :: 0 <= i < |Edited(lines, key, val)| && Edited(lines, key, val)[i] == KeyLine(key, val)
  {
    DropBlankTailIs(lines);
    var i := FirstWithKey(lines, key);
    assert Edited(lines, key, val)[if i < |lines| then i else |DropBlankTail(lines)|] == KeyLine(key, val);
    hide HasKey, Text.Trim;
  }

  // The line break is added exactly when the joined lines do not end with one.
  lemma JoinTerminated(lines: seq<string>)
    requires lines != [] && lines != [""] && Lines.Whole(lines, '\n')
    ensures var out := Lines.Join(lines, '\n');
      Lines.Join(Terminated(lines), '\n') == if out == "" || out[|out| - 1] != '\n' then out + "\n" else out
  {
    var n := |lines| - 1;
    Lines.JoinAppend(lines, [""], '\n');
    if n > 0 {
      Lines.JoinAppend(lines[..n], [lines[n]], '\n');
      assert lines[..n] + [lines[n]] == lines;
    }
    assert lines[n] != "" ==> lines[n][|lines[n]| - 1] in lines[n];
  }

  method UpsertEnvLine(body: string, key: string, val: string) returns (out: string)
    requires ProperKey(key) && '\n' !in val
    ensures out == Upsert(body, key, val)
    ensures out != "" && out[|out| - 1] == '\n'
  {
    hide ProperKey, Text.Trim, Lines.Split, Lines.Join, KeyOf;
    var lines := Lines.Split(body, '\n');
    ghost var was := lines;
    ghost var edited := Edited(was, key, val);
    Lines.SplitPieces(body, '\n');
    EditedIsWhole(was, key, val);
    var replaced := false;
    for i := 0 to |lines|
      invariant !replaced && lines == was && |lines| == |was|
      invariant forall j :: 0 <= j < i ==> !HasKey(was[j], key)
    {
      if KeyOf(lines[i]) == Some(key) {
        lines := lines[i := KeyLine(key, val)];
        replaced := true;
        break;
      }
    }
    if !replaced {
      while |lines| > 0 && Text.Trim(lines[|lines| - 1]) == ""
        invariant DropBlankTail(lines) == DropBlankTail(was)
      {
        lines := lines[..|lines| - 1];
      }
      lines := lines + [KeyLine(key, val)];
    }
    assert lines == edited;
    JoinTerminated(edited);
    out := Lines.Join(lines, '\n');
    if out == "" || out[|out| - 1] != '\n' { out := out + "\n"; }
  }

  // ---- the laws ----

  // One line of both searches.
  lemma SearchStep(line: string, rest: seq<string>, key: string)
    ensures FindValue([line] + rest, key) ==
      if !Scannable(line) then None else if HasKey(line, key) then Some(ValueOf(line)) else FindValue(rest, key)
    ensures FirstWithKey([line] + rest, key) == if HasKey(line, key) then 0 else FirstWithKey(rest, key) + 1
  {
    hide HasKey, ValueOf, Scannable;
    assert ([line] + rest)[1..] == rest;
  }

  // A search finds the first line with the key if the scanner gets that far.
  lemma {:induction false} FindFirst(lines: seq<string>, key: string)
    ensures var i := FirstWithKey(lines, key);
      FindValue(lines, key) ==
        if i < |lines| && AllScannable(lines[..i + 1]) then Some(ValueOf(lines[i])) else None
  {
    if lines != [] {
      var line, rest := lines[0], lines[1..];
      assert lines == [line] + rest;
      hide HasKey, ValueOf, Scannable, AllScannable, FindValue, FirstWithKey;
      var i := FirstWithKey(lines, key);
      FindFirst(rest, key);
      SearchStep(line, rest, key);
      if i < |lines| {
        assert lines[..i + 1] == [line] + rest[..i];
        ScannableHead(line, rest[..i]);
        if i == 0 { NothingToScan(rest[..i]); }
      }
    }
  }

  lemma NothingToScan(lines: seq<string>)
    requires lines == []
    ensures AllScannable(lines)
  {}

  lemma ScannableHead(line: string, rest: seq<string>)
    ensures AllScannable([line] + rest) <==> Scannable(line) && AllScannable(rest)
  {
    hide Scannable;
    assert forall i :: 0 <= i < |rest| ==> ([line] + rest)[i + 1] == rest[i];
    assert ([line] + rest)[0] == line;
  }

  // A line without the key lets the search pass, or ends it.
  lemma {:induction false} FindAcross(before: seq<string>, line: string, after: seq<string>, key: string)
    requires !HasKey(line, key)
    ensures FindValue(before + [line] + after, key) ==
      if Scannable(line) then FindValue(before + after, key) else FindValue(before, key)
  {
    hide HasKey, ValueOf, Scannable;
    if before == [] {
      assert ([line] + after)[1..] == after;
      assert before + [line] + after == [line] + after && before + after == after;
    } else {
      FindAcross(before[1..], line, after, key);
      assert (before + [line] + after)[1..] == before[1..] + [line] + after;
      assert (before + after)[1..] == before[1..] + after;
    }
  }

  // Lines without the key at the end make no difference, whatever their length.
  lemma {:induction false} FindKeyless(lines: seq<string>, tail: seq<string>, key: string)
    requires forall i :: 0 <= i < |tail| ==> !HasKey(tail[i], key)
    ensures FindValue(lines + tail, key) == FindValue(lines, key)
  {
    if tail == [] {
      assert lines + tail == lines;
    } else {
      hide HasKey, Scannable, FindValue;
      var n := |tail| - 1;
      FindKeyless(lines, tail[..n], key);
      FindAcross(lines + tail[..n], tail[n], [], key);
      assert lines + tail[..n] + [tail[n]] + [] == lines + tail;
      assert lines + tail[..n] + [] == lines + tail[..n];
    }
  }

  // Where the edit puts its line.
  function EditedAt(lines: seq<string>, key: string): nat {
    var i := FirstWithKey(lines, key);
    if i < |lines| then i else |DropBlankTail(lines)|
  }

  lemma FirstWithKeyIs(lines: seq<string>, key: string, i: nat)
    requires i < |lines| && HasKey(lines[i], key) && forall j :: 0 <= j < i ==> !HasKey(lines[j], key)
    ensures FirstWithKey(lines, key) == i
  {
    hide HasKey;
  }

  lemma EditIs(lines: seq<string>, key: string, val: string)
    ensures var e, p := Edited(lines, key, val), EditedAt(lines, key);
      && p < |e| && e[p] == KeyLine(key, val) && p <= |lines| && e[..p] == lines[..p]
      && (forall i :: 0 <= i < p ==> !HasKey(e[i], key))
      && (if FirstWithKey(lines, key) < |lines| then |e| == |lines| && e[p + 1..] == lines[p + 1..]
          else |e| == p + 1 && (forall i :: p <= i < |lines| ==> Text.Trim(lines[i]) == "")
               && (p > 0 ==> Text.Trim(lines[p - 1]) != ""))
  {
    DropBlankTailIs(lines);
    hide HasKey, KeyLine, Text.Trim, DropBlankTail;
  }

  // The edited line is the first one with the key, and the only change: every other line stays as it
  // was, but for blank lines at the end when the line is added.
  lemma EditedOneLine(lines: seq<string>, key: string, val: string)
    requires ProperKey(key)
    ensures var e, p := Edited(lines, key, val), EditedAt(lines, key);
      && p < |e| && e[p] == key + "=" + val && e[p] == KeyLine(key, val) && FirstWithKey(e, key) == p
      && p <= |lines| && e[..p] == lines[..p]
      && (if FirstWithKey(lines, key) < |lines| then |e| == |lines| && e[p + 1..] == lines[p + 1..]
          else |e| == p + 1 && (forall i :: p <= i < |lines| ==> Text.Trim(lines[i]) == "")
               && (p > 0 ==> Text.Trim(lines[p - 1]) != ""))
  {
    EditIs(lines, key, val);
    KeyLineReads(key, val);
    hide Edited, EditedAt, FirstWithKey, ProperKey, KeyOf, ValueOf, Text.Trim;
    FirstWithKeyIs(Edited(lines, key, val), key, EditedAt(lines, key));
  }

  // The new body read as lines: the edited lines, ended by a line break.
  lemma SplitUpsert(body: string, key: string, val: string)
    requires ProperKey(key) && '\n' !in val
    ensures Lines.Split(Upsert(body, key, val), '\n') == Terminated(Edited(Lines.Split(body, '\n'), key, val))
  {
    var lines := Lines.Split(body, '\n');
    Lines.SplitPieces(body, '\n');
    EditedIsWhole(lines, key, val);
    hide Edited, ProperKey, Lines.Split, Lines.Join;
    Lines.SplitJoin(Terminated(Edited(lines, key, val)), '\n');
  }

  lemma FirstWithKeyTerminated(lines: seq<string>, key: string)
    requires lines != [] && FirstWithKey(lines, key) < |lines|
    ensures FirstWithKey(Terminated(lines), key) == FirstWithKey(lines, key)
  {
    hide HasKey;
    FirstWithKeyIs(Terminated(lines), key, FirstWithKey(lines, key));
  }

  // Reading a key after writing it gives the trimmed value if and only if the scanner gets as far as its
  // line: the lines kept before it and the line itself are within the limit. Otherwise nothing is read.
  lemma ReadAfterUpsert(body: string, key: string, val: string)
    requires ProperKey(key) && '\n' !in val
    ensures var lines := Lines.Split(body, '\n');
      var p := EditedAt(lines, key);
      && p <= |lines|
      && Read(Some(Upsert(body, key, val)), key) ==
           if AllScannable(lines[..p]) && Scannable(KeyLine(key, val)) then Some(Text.Trim(val)) else None
  {
    var lines := Lines.Split(body, '\n');
    SplitUpsert(body, key, val);
    EditedOneLine(lines, key, val);
    KeyLineReads(key, val);
    var e, p := Edited(lines, key, val), EditedAt(lines, key);
    assert key != "" && HasKey(e[p], key);
    hide Edited, EditedAt, ProperKey, Lines.Split, Upsert, KeyOf, ValueOf, Scannable, AllScannable;
    hide Text.Trim, FindValue, FirstWithKey, KeyLine;
    EndFindsSame(e, key);
    FindFirst(e, key);
    assert e[..p + 1] == lines[..p] + [KeyLine(key, val)];
    ScannableLast(lines[..p], KeyLine(key, val));
  }

  lemma ScannableLast(lines: seq<string>, line: string)
    ensures AllScannable(lines + [line]) <==> AllScannable(lines) && Scannable(line)
  {
    hide Scannable;
    assert forall i :: 0 <= i < |lines| ==> (lines + [line])[i] == lines[i];
    assert (lines + [line])[|lines|] == line;
  }

  // The edit does not change how far the scanner gets, or what it would find there does not matter.
  predicate KeepsScan(lines: seq<string>, key: string, val: string, other: string) {
    var i := FirstWithKey(lines, key);
    || i == |lines|
    || (Scannable(lines[i]) <==> Scannable(KeyLine(key, val)))
    || FindValue(lines[..i] + lines[i + 1..], other) == FindValue(lines[..i], other)
  }

  // Writing a key changes what another key reads if and only if it replaces a line the scanner passes by
  // one it stops at, or the other way round, with the other key behind it.
  lemma OtherKeysUnchanged(body: string, key: string, val: string, other: string)
    requires ProperKey(key) && '\n' !in val && other != key && other != ""
    ensures Read(Some(Upsert(body, key, val)), other) == Read(Some(body), other) <==>
      KeepsScan(Lines.Split(body, '\n'), key, val, other)
  {
    var lines := Lines.Split(body, '\n');
    SplitUpsert(body, key, val);
    EditedFindsOther(lines, key, val, other);
    hide Edited, ProperKey, Lines.Split, Upsert, KeyOf, ValueOf, Text.Trim, FindValue, Scannable, KeepsScan;
    EndFindsSame(Edited(lines, key, val), other);
  }

  lemma EndFindsSame(lines: seq<string>, key: string)
    requires lines != []
    ensures FindValue(Terminated(lines), key) == FindValue(lines, key)
  {
    assert Text.Trim("") == "";
    BlankHasNoKey("");
    FindKeyless(lines, [""], key);
    hide FindValue, HasKey;
  }

  lemma EditedFindsOther(lines: seq<string>, key: string, val: string, other: string)
    requires ProperKey(key) && other != key
    ensures FindValue(Edited(lines, key, val), other) == FindValue(lines, other) <==> KeepsScan(lines, key, val, other)
  {
    OtherIsElsewhere(lines, key, val, other);
    hide HasKey, ProperKey, Scannable, FindValue, FirstWithKey, KeyLine, DropBlankTail;
    var i, l := FirstWithKey(lines, key), KeyLine(key, val);
    if i < |lines| { ReplacedFindsOther(lines, i, l, other); } else { AddedFindsOther(lines, l, other); }
  }

  // Neither the line replaced nor the line written holds another key.
  lemma OtherIsElsewhere(lines: seq<string>, key: string, val: string, other: string)
    requires ProperKey(key) && other != key
    ensures var i := FirstWithKey(lines, key);
      !HasKey(KeyLine(key, val), other) && (i < |lines| ==> !HasKey(lines[i], other))
  {
    KeyLineReads(key, val);
    hide KeyOf, ValueOf, ProperKey, FirstWithKey, KeyLine;
  }

  lemma ReplacedFindsOther(lines: seq<string>, i: nat, line: string, key: string)
    requires i < |lines| && !HasKey(lines[i], key) && !HasKey(line, key)
    ensures FindValue(lines[i := line], key) == FindValue(lines, key) <==>
      || (Scannable(lines[i]) <==> Scannable(line))
      || FindValue(lines[..i] + lines[i + 1..], key) == FindValue(lines[..i], key)
  {
    hide HasKey, Scannable, FindValue;
    var before, after := lines[..i], lines[i + 1..];
    FindAcross(before, lines[i], after, key);
    FindAcross(before, line, after, key);
    assert before + [lines[i]] + after == lines;
    assert before + [line] + after == lines[i := line];
  }

  lemma AddedFindsOther(lines: seq<string>, line: string, key: string)
    requires !HasKey(line, key)
    ensures FindValue(DropBlankTail(lines) + [line], key) == FindValue(lines, key)
  {
    DropBlankTailIs(lines);
    var kept := DropBlankTail(lines);
    var blank := lines[|kept|..];
    forall i | 0 <= i < |blank| ensures !HasKey(blank[i], key) { BlankHasNoKey(blank[i]); }
    hide HasKey, FindValue, DropBlankTail;
    FindKeyless(kept, blank, key);
    FindKeyless(kept, [line], key);
    assert kept + blank == lines;
  }

  lemma SameEdit(lines: seq<string>, key: string, val: string, val': string)
    ensures EditedAt(lines, key) < |Edited(lines, key, val)|
    ensures Edited(lines, key, val') == Edited(lines, key, val)[EditedAt(lines, key) := KeyLine(key, val')]
  {
    hide FirstWithKey, DropBlankTail, KeyLine;
  }

  lemma TerminatedReplace(e: seq<string>, p: nat, line: string)
    requires p < |e| && e[p] != "" && line != ""
    ensures Terminated(Terminated(e)[p := line]) == Terminated(e[p := line])
  {}

  // A second write of the same key replaces the first one exactly.
  lemma UpsertOverwrites(body: string, key: string, val: string, val': string)
    requires ProperKey(key) && '\n' !in val && '\n' !in val'
    ensures Upsert(Upsert(body, key, val), key, val') == Upsert(body, key, val')
  {
    var lines := Lines.Split(body, '\n');
    SplitUpsert(body, key, val);
    EditedOneLine(lines, key, val);
    SameEdit(lines, key, val, val');
    var e, p, line := Edited(lines, key, val), EditedAt(lines, key), KeyLine(key, val');
    FirstWithKeyTerminated(e, key);
    var t := Terminated(e);
    assert Edited(t, key, val') == t[p := line];
    TerminatedReplace(e, p, line);
    hide ProperKey, HasKey, Lines.Split, Lines.Join, Edited, EditedAt, FirstWithKey, Terminated;
  }

  // A file that is the value: what was written is read back, trimmed.
  lemma WholeFileReadsBack(val: string)
    ensures Read(Some(val + "\n"), "") == Some(Text.Trim(val))
  {
    Text.TrimDropsLast(val, '\n');
  }
}
