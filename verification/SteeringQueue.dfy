/** The guest's steering queue: one JSON string per line, in a file on the workspace volume. */
module SteeringQueue {
  import opened Protocol
  import Lines
  import Text

  // ---- JSON strings (section 7 of RFC 8259), as encoding/json writes and reads them ----

  const HEX := "0123456789abcdef"

  function Hex4(v: nat): string
    requires v < 0x10000
  {
    [HEX[v / 0x1000], HEX[v / 0x100 % 0x10], HEX[v / 0x10 % 0x10], HEX[v % 0x10]]
  }

  // Control characters, the three HTML characters and the two line separators get a \u escape.
  function Escape(c: char): string {
    if c == '"' || c == '\\' then ['\\', c]
    else if c == '\U{8}' then "\\b"
    else if c == '\U{C}' then "\\f"
    else if c == '\n' then "\\n"
    else if c == '\r' then "\\r"
    else if c == '\t' then "\\t"
    else if c < ' ' || c in "<>&" || c == '\U{2028}' || c == '\U{2029}' then "\\u" + Hex4(c as nat)
    else [c]
  }

  function EscapeAll(s: string): string {
    if s == "" then "" else Escape(s[0]) + EscapeAll(s[1..])
  }

  function Encode(s: string): string {
    "\"" + EscapeAll(s) + "\""
  }

  predicate JsonSpace(c: char) { c in " \t\r\n" }

  function SkipSpace(s: string): (r: string)
    ensures |r| <= |s|
  {
    if s != "" && JsonSpace(s[0]) then SkipSpace(s[1..]) else s
  }

  function HexValue(c: char): Option<nat> {
    if '0' <= c <= '9' then Some(c as nat - '0' as nat)
    else if 'a' <= c <= 'f' then Some(c as nat - 'a' as nat + 10)
    else if 'A' <= c <= 'F' then Some(c as nat - 'A' as nat + 10)
    else None
  }

  // A leading \uXXXX.
  function U4(s: string): (v: Option<nat>)
    ensures v.Some? ==> |s| >= 6 && v.value < 0x10000
  {
    if |s| < 6 || s[0] != '\\' || s[1] != 'u' then None
    else
      var a, b, c, d := HexValue(s[2]), HexValue(s[3]), HexValue(s[4]), HexValue(s[5]);
      if a.Some? && b.Some? && c.Some? && d.Some?
      then Some(a.value * 0x1000 + b.value * 0x100 + c.value * 0x10 + d.value) else None
  }

  predicate IsSurrogate(v: nat) { 0xD800 <= v < 0xE000 }

  // The character a \u escape stands for and how much of the text it uses: a surrogate pair is one
  // character, an unpaired surrogate is replaced by U+FFFD.
  function Rune(s: string, v: nat): (char, nat)
    requires U4(s) == Some(v)
  {
    if !IsSurrogate(v) then (v as char, 6)
    else
      var lo := U4(s[6..]);
      if v < 0xDC00 && lo.Some? && 0xDC00 <= lo.value < 0xE000
      then ((0x10000 + (v - 0xD800) * 0x400 + (lo.value - 0xDC00)) as char, 12)
      else ('\U{FFFD}', 6)
  }

  function ShortEscape(c: char): Option<char> {
    if c in "\"\\/" then Some(c)
    else if c == 'b' then Some('\U{8}')
    else if c == 'f' then Some('\U{C}')
    else if c == 'n' then Some('\n')
    else if c == 'r' then Some('\r')
    else if c == 't' then Some('\t')
    else None
  }

  function Prepend(c: char, rest: Option<string>): Option<string> {
    if rest.Some? then Some([c] + rest.value) else None
  }

  // What follows the opening quote: characters, the closing quote, and nothing but white space.
  function Body(s: string): Option<string>
    decreases |s|
  {
    if s == "" || s[0] < ' ' then None
    else if s[0] == '"' then if SkipSpace(s[1..]) == "" then Some("") else None
    else if s[0] != '\\' then Prepend(s[0], Body(s[1..]))
    else if |s| >= 2 && s[1] == 'u' then
      var v := U4(s);
      if v.None? then None
      else
        var (c, used) := Rune(s, v.value);
        Prepend(c, Body(s[used..]))
    else if |s| >= 2 && ShortEscape(s[1]).Some? then Prepend(ShortEscape(s[1]).value, Body(s[2..]))
    else None
  }

  predicate IsNull(s: string) {
    |s| >= 4 && s[..4] == "null" && SkipSpace(s[4..]) == ""
  }

  // json.Unmarshal into a string. A null leaves the zero value; any other JSON value is an error.
  function Decode(line: string): Option<string> {
    var s := SkipSpace(line);
    if s != "" && s[0] == '"' then Body(s[1..])
    else if IsNull(s) then Some("")
    else None
  }

  // ---- the codec's laws ----

  lemma HexDigits(d: nat)
    requires d < 0x10
    ensures HexValue(HEX[d]) == Some(d) && HEX[d] >= ' '
  {
    assert HEX[d] == if d < 10 then ('0' as nat + d) as char else ('a' as nat + d - 10) as char;
  }

  lemma HexPlaces(v: nat)
    requires v < 0x10000
    ensures v / 0x1000 * 0x1000 + v / 0x100 % 0x10 * 0x100 + v / 0x10 % 0x10 * 0x10 + v % 0x10 == v
  {
    var a := v / 0x10;
    var b := a / 0x10;
    var c := b / 0x10;
    assert v == 0x10 * a + v % 0x10 && a == 0x10 * b + a % 0x10 && b == 0x10 * c + b % 0x10;
    assert v / 0x100 == b && v / 0x1000 == c;
  }

  lemma U4Hex4(v: nat, rest: string)
    requires v < 0x10000
    ensures U4("\\u" + Hex4(v) + rest) == Some(v)
  {
    var a, b, c, d := v / 0x1000, v / 0x100 % 0x10, v / 0x10 % 0x10, v % 0x10;
    HexPlaces(v);
    HexDigits(a);
    HexDigits(b);
    HexDigits(c);
    HexDigits(d);
    hide HexValue, HEX;
    var s := "\\u" + Hex4(v) + rest;
    assert s[2] == HEX[a] && s[3] == HEX[b] && s[4] == HEX[c] && s[5] == HEX[d];
  }

  // Reading a \u escape.
  lemma BodyU(s: string, v: nat)
    requires U4(s) == Some(v)
    ensures Rune(s, v).1 <= |s| && Body(s) == Prepend(Rune(s, v).0, Body(s[Rune(s, v).1..]))
  {
    assert s[0] == '\\' && s[1] == 'u';
  }

  // Reading an escaped character gives the character back and goes on after it.
  lemma BodyEscape(c: char, rest: string)
    ensures Body(Escape(c) + rest) == Prepend(c, Body(rest))
  {
    var s := Escape(c) + rest;
    if |Escape(c)| == 6 {
      assert Escape(c) == "\\u" + Hex4(c as nat);
      ReadsPlainEscape(c, rest);
      hide Body, Hex4;
    } else if |Escape(c)| == 2 {
      assert s[2..] == rest;
    } else {
      assert s[1..] == rest;
    }
  }

  lemma {:induction false} BodyEscapeAll(s: string)
    ensures Body(EscapeAll(s) + "\"") == Some(s)
  {
    if s == "" {
      assert EscapeAll(s) + "\"" == "\"";
    } else {
      BodyEscapeAll(s[1..]);
      BodyEscape(s[0], EscapeAll(s[1..]) + "\"");
      assert [s[0]] + s[1..] == s;
      assert EscapeAll(s) + "\"" == Escape(s[0]) + (EscapeAll(s[1..]) + "\"");
    }
  }

  // Every text survives the round trip.
  lemma DecodeEncode(s: string)
    ensures Decode(Encode(s)) == Some(s)
  {
    BodyEscapeAll(s);
    assert Encode(s)[1..] == EscapeAll(s) + "\"";
  }

  lemma {:induction false} EscapedOnOneLine(s: string)
    ensures '\n' !in EscapeAll(s)
  {
    if s != "" {
      EscapedOnOneLine(s[1..]);
      if |Escape(s[0])| == 6 {
        var v := s[0] as nat;
        HexDigits(v / 0x1000);
        HexDigits(v / 0x100 % 0x10);
        HexDigits(v / 0x10 % 0x10);
        HexDigits(v % 0x10);
      }
      assert '\n' !in Escape(s[0]);
    }
  }

  // An encoded message is one line, and never one that the reader skips as blank.
  lemma EncodedLine(s: string)
    ensures '\n' !in Encode(s) && Text.Trim(Encode(s)) != ""
  {
    EscapedOnOneLine(s);
    var e := Encode(s);
    assert !Text.IsSpace(e[0]) && Text.TrimLeft(e) == e;
    assert !Text.IsSpace(e[|e| - 1]) && Text.TrimRight(e) == e;
  }

  // ---- the file ----

  // The messages of some lines, in order; one undecodable line spoils all of them.
  function DecodeLines(lines: seq<string>): Option<seq<string>> {
    if lines == [] then Some([])
    else
      var before, line := DecodeLines(lines[..|lines| - 1]), lines[|lines| - 1];
      if before.None? || Text.Trim(line) == "" then before
      else
        var msg := Decode(line);
        if msg.Some? then Some(before.value + [msg.value]) else None
  }

  lemma {:induction false} BadLineSpoilsAll(lines: seq<string>, i: nat)
    requires i <= |lines| && DecodeLines(lines[..i]).None?
    ensures DecodeLines(lines).None?
  {
    if i < |lines| {
      assert lines[..|lines| - 1][..i] == lines[..i];
      BadLineSpoilsAll(lines[..|lines| - 1], i);
    } else {
      assert lines[..i] == lines;
    }
  }

  // The messages in the file; a missing file holds none.
  function Decoded(file: Option<string>): Option<seq<string>> {
    if file.None? then Some([]) else DecodeLines(Lines.Split(file.value, '\n'))
  }

  // What appending the messages one by one writes.
  function FileOf(msgs: seq<string>): string {
    if msgs == [] then "" else FileOf(msgs[..|msgs| - 1]) + Encode(msgs[|msgs| - 1]) + "\n"
  }

  // Writing one more line after a complete last line.
  lemma SplitAppend(data: string, line: string)
    requires '\n' !in line && Lines.Split(data, '\n')[|Lines.Split(data, '\n')| - 1] == ""
    ensures var lines := Lines.Split(data, '\n');
      Lines.Split(data + line + "\n", '\n') == lines[..|lines| - 1] + [line, ""]
  {
    hide Lines.Split;
    var tail := line + "\n";
    Lines.SplitFirst(line, "", '\n');
    Lines.SplitFirst("", "", '\n');
    assert line + ['\n'] + "" == tail && "" + line == line;
    Lines.SplitConcat(data, tail, '\n');
    assert data + line + "\n" == data + tail;
    assert Lines.Split(tail, '\n')[1..] == [""];
  }

  function Encoded(msgs: seq<string>): (lines: seq<string>)
    ensures |lines| == |msgs| && forall i :: 0 <= i < |msgs| ==> lines[i] == Encode(msgs[i])
  {
    seq(|msgs|, i requires 0 <= i < |msgs| => Encode(msgs[i]))
  }

  lemma EncodedSnoc(before: seq<string>, msg: string)
    ensures Encoded(before + [msg]) == Encoded(before) + [Encode(msg)]
  {
    hide Encode;
  }

  lemma {:induction false} SplitFile(msgs: seq<string>)
    ensures Lines.Split(FileOf(msgs), '\n') == Encoded(msgs) + [""]
  {
    if msgs != [] {
      var before, msg := msgs[..|msgs| - 1], msgs[|msgs| - 1];
      SplitFile(before);
      EncodedSnoc(before, msg);
      EncodedLine(msg);
      assert before + [msg] == msgs;
      hide Encode, Encoded, Lines.Split, Text.Trim;
      SplitAppend(FileOf(before), Encode(msg));
    }
  }

  lemma {:induction false} DecodeEncodedLines(msgs: seq<string>)
    ensures DecodeLines(Encoded(msgs)) == Some(msgs)
  {
    if msgs != [] {
      var n := |msgs| - 1;
      DecodeEncodedLines(msgs[..n]);
      assert Encoded(msgs)[..n] == Encoded(msgs[..n]);
      EncodedLine(msgs[n]);
      DecodeEncode(msgs[n]);
      assert msgs[..n] + [msgs[n]] == msgs;
      hide Encode, Decode, Text.Trim;
    }
  }

  // The file read back is the messages that were appended, whatever they contain.
  lemma FileRoundTrip(msgs: seq<string>)
    ensures Decoded(Some(FileOf(msgs))) == Some(msgs)
  {
    SplitFile(msgs);
    DecodeEncodedLines(msgs);
    var lines := Encoded(msgs) + [""];
    assert lines[..|lines| - 1] == Encoded(msgs) && Text.Trim("") == "";
  }

  // A file that nothing but Append has written.
  ghost predicate Holds(file: Option<string>, msgs: seq<string>) {
    if file.None? then msgs == [] else file.value == FileOf(msgs)
  }

  lemma HoldsDecodes(file: Option<string>, msgs: seq<string>)
    requires Holds(file, msgs)
    ensures Decoded(file) == Some(msgs)
  {
    if file.Some? { FileRoundTrip(msgs); }
  }

  // ---- the operations, as functions of the file ----

  datatype AppendEnv = AppendEnv(mkdirOk: bool, openOk: bool, writeOk: bool)
  datatype DrainEnv = DrainEnv(readOk: bool, removeOk: bool)

  predicate Appends(env: AppendEnv) { env.mkdirOk && env.openOk && env.writeOk }

  // Opening creates the file even when the write then fails.
  function Appended(file: Option<string>, msg: string, env: AppendEnv): Option<string> {
    if !env.mkdirOk || !env.openOk then file
    else
      var data := if file.Some? then file.value else "";
      Some(if env.writeOk then data + Encode(msg) + "\n" else data)
  }

  lemma AppendHolds(file: Option<string>, msgs: seq<string>, msg: string, env: AppendEnv)
    requires Holds(file, msgs)
    ensures Holds(Appended(file, msg, env), if Appends(env) then msgs + [msg] else msgs)
  {
    assert (msgs + [msg])[..|msgs|] == msgs;
  }

  // The drained messages (None on any error) and the file afterwards.
  function Drained(file: Option<string>, env: DrainEnv): (Option<seq<string>>, Option<string>) {
    if file.None? then (Some([]), None)
    else if !env.readOk || Decoded(file).None? || !env.removeOk then (None, file)
    else (Decoded(file), None)
  }

  // On a file that only Append has written, draining yields the messages and empties the queue, or
  // fails and keeps every one of them.
  lemma DrainHolds(file: Option<string>, msgs: seq<string>, env: DrainEnv)
    requires Holds(file, msgs)
    ensures var (got, after) := Drained(file, env);
      && (if got.Some? then got.value == msgs && Holds(after, []) && after.None?
          else Holds(after, msgs) && after == file)
      && (got.Some? <==> file.None? || (env.readOk && env.removeOk))
  {
    HoldsDecodes(file, msgs);
  }

  // What is written holds no character that would end the line, need escaping in HTML, or split a line
  // in JavaScript; between its quotes no quote stands bare.
  lemma {:induction false} EscapedIsSafe(s: string)
    ensures forall c :: c in EscapeAll(s) ==> c >= ' ' && c !in "<>&" && c != '\U{2028}' && c != '\U{2029}'
  {
    if s != "" {
      EscapedIsSafe(s[1..]);
      forall c | c in Escape(s[0]) ensures c >= ' ' && c !in "<>&" && c != '\U{2028}' && c != '\U{2029}' {
        EscapeIsSafe(s[0], c);
      }
      hide Escape;
    }
  }

  lemma EscapeIsSafe(c: char, d: char)
    requires d in Escape(c)
    ensures d >= ' ' && d !in "<>&" && d != '\U{2028}' && d != '\U{2029}'
  {
    if |Escape(c)| == 6 {
      assert Escape(c) == "\\u" + Hex4(c as nat);
      Hex4IsPlain(c as nat);
      hide Hex4;
    }
  }

  lemma Hex4IsPlain(v: nat)
    requires v < 0x10000
    ensures forall d :: d in Hex4(v) ==> '0' <= d <= '9' || 'a' <= d <= 'f'
  {
    HexIsPlain(v / 0x1000);
    HexIsPlain(v / 0x100 % 0x10);
    HexIsPlain(v / 0x10 % 0x10);
    HexIsPlain(v % 0x10);
    hide HEX;
  }

  lemma HexIsPlain(d: nat)
    requires d < 0x10
    ensures '0' <= HEX[d] <= '9' || 'a' <= HEX[d] <= 'f'
  {}

  // Other writers may escape more: any character may come as one \u escape, or beyond the basic plane as
  // a surrogate pair.
  lemma ReadsPlainEscape(c: char, rest: string)
    requires (c as nat) < 0x10000
    ensures Body("\\u" + Hex4(c as nat) + rest) == Prepend(c, Body(rest))
  {
    var s := "\\u" + Hex4(c as nat) + rest;
    U4Hex4(c as nat, rest);
    BodyU(s, c as nat);
    assert s[6..] == rest;
    hide Body, Hex4, U4;
  }

  lemma ReadsSurrogatePair(c: char, rest: string)
    requires (c as nat) >= 0x10000
    ensures var v := c as nat - 0x10000;
      Body("\\u" + Hex4(0xD800 + v / 0x400) + "\\u" + Hex4(0xDC00 + v % 0x400) + rest) == Prepend(c, Body(rest))
  {
    var v := c as nat - 0x10000;
    var hi, lo := 0xD800 + v / 0x400, 0xDC00 + v % 0x400;
    hide Body, U4, Rune;
    TwoEscapes(hi, lo, rest);
    var s := "\\u" + Hex4(hi) + ("\\u" + Hex4(lo) + rest);
    assert s == "\\u" + Hex4(hi) + "\\u" + Hex4(lo) + rest;
    hide Hex4;
    PairIs(s, hi, lo, c);
    BodyU(s, hi);
  }

  lemma TwoEscapes(hi: nat, lo: nat, rest: string)
    requires hi < 0x10000 && lo < 0x10000
    ensures var s := "\\u" + Hex4(hi) + ("\\u" + Hex4(lo) + rest);
      |s| >= 12 && U4(s) == Some(hi) && U4(s[6..]) == Some(lo) && s[12..] == rest
  {
    var tail := "\\u" + Hex4(lo) + rest;
    U4Hex4(hi, tail);
    U4Hex4(lo, rest);
    assert ("\\u" + Hex4(hi) + tail)[6..] == tail && tail[6..] == rest;
    hide Hex4, U4;
  }

  lemma PairIs(s: string, hi: nat, lo: nat, c: char)
    requires (c as nat) >= 0x10000 && |s| >= 12 && U4(s) == Some(hi) && U4(s[6..]) == Some(lo)
    requires hi == 0xD800 + (c as nat - 0x10000) / 0x400 && lo == 0xDC00 + (c as nat - 0x10000) % 0x400
    ensures Rune(s, hi) == (c, 12)
  {
    hide U4;
    assert 0x10000 + (hi - 0xD800) * 0x400 + (lo - 0xDC00) == c as nat;
  }

  /** The queue object; `file` stands for the file at its path. */
  class Queue {
    var file: Option<string>

    constructor (existing: Option<string>)
      ensures file == existing
    {
      file := existing;
    }

    method Append(msg: string, env: AppendEnv) returns (ok: bool)
      modifies this
      ensures ok <==> env.mkdirOk && env.openOk && env.writeOk
      ensures file == Appended(old(file), msg, env)
      ensures forall msgs :: Holds(old(file), msgs) ==> Holds(file, if ok then msgs + [msg] else msgs)
    {
      forall msgs | Holds(old(file), msgs)
        ensures Holds(Appended(old(file), msg, env), if Appends(env) then msgs + [msg] else msgs)
      {
        AppendHolds(old(file), msgs, msg, env);
      }
      if !env.mkdirOk { return false; }
      var line := Encode(msg);
      if !env.openOk { return false; }
      if file.None? { file := Some(""); }
      if !env.writeOk { return false; }
      assert file.value + (line + "\n") == file.value + line + "\n";
      file := Some(file.value + (line + "\n"));
      return true;
    }

    method Drain(env: DrainEnv) returns (msgs: Option<seq<string>>)
      modifies this
      ensures (msgs, file) == Drained(old(file), env)
      ensures forall held :: Holds(old(file), held) ==>
        if msgs.Some? then msgs.value == held && file.None? else file == old(file)
      ensures (exists held :: Holds(old(file), held)) ==>
        (msgs.Some? <==> old(file).None? || (env.readOk && env.removeOk))
    {
      forall held | Holds(old(file), held)
        ensures var (got, after) := Drained(old(file), env);
          && (if got.Some? then got.value == held && after.None? else after == old(file))
          && (got.Some? <==> old(file).None? || (env.readOk && env.removeOk))
      {
        DrainHolds(old(file), held, env);
      }
      if file.None? { return Some([]); }
      if !env.readOk { return None; }
      var lines := Lines.Split(file.value, '\n');
      var out: seq<string> := [];
      for i := 0 to |lines|
        invariant DecodeLines(lines[..i]) == Some(out)
      {
        assert lines[..i + 1][..i] == lines[..i];
        if Text.Trim(lines[i]) == "" { continue; }
        var s := Decode(lines[i]);
        if s.None? {
          BadLineSpoilsAll(lines, i + 1);
          return None;
        }
        out := out + [s.value];
      }
      assert lines[..|lines|] == lines;
      if !env.removeOk { return None; }
      file := None;
      return Some(out);
    }
  }
}
