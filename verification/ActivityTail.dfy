/** The dashboard's log follower: reopen, read from the last offset, cut complete lines, send their
    events with consecutive sequence numbers. */
module ActivityTail {
  import Lines

  type Byte = b: int | 0 <= b < 256

  const NEWLINE: Byte := 10
  const READ_LIMIT: nat := 0x80_0000   // 8 MiB

  // What the browser is told, without its sequence number. Parsing a line is not modelled: a line gives
  // some payloads, possibly none.
  datatype Payload = Connected | Shown(kind: string, tool: string, text: string, time: string)

  datatype Event = Event(seqNo: nat, payload: Payload)

  type Parser = seq<Byte> -> seq<Payload>

  // ---- the specification: the file's bytes cut at its newlines ----

  function Complete(bytes: seq<Byte>): seq<seq<Byte>> {
    var pieces := Lines.Split(bytes, NEWLINE);
    pieces[..|pieces| - 1]
  }

  function Unfinished(bytes: seq<Byte>): seq<Byte> {
    var pieces := Lines.Split(bytes, NEWLINE);
    pieces[|pieces| - 1]
  }

  function PayloadsOf(parse: Parser, lines: seq<seq<Byte>>): seq<Payload> {
    if lines == [] then [] else PayloadsOf(parse, lines[..|lines| - 1]) + parse(lines[|lines| - 1])
  }

  function Payloads(events: seq<Event>): seq<Payload> {
    seq(|events|, i requires 0 <= i < |events| => events[i].payload)
  }

  ghost predicate Numbered(events: seq<Event>) {
    forall i :: 0 <= i < |events| ==> events[i].seqNo == i
  }

  // Reading on from an unfinished line is the same as reading the whole again.
  lemma ReadOn(bytes: seq<Byte>, data: seq<Byte>)
    ensures Lines.Split(bytes + data, NEWLINE) == Complete(bytes) + Lines.Split(Unfinished(bytes) + data, NEWLINE)
    ensures NEWLINE !in Unfinished(bytes)
  {
    Lines.SplitPieces(bytes, NEWLINE);
    Lines.SplitConcat(bytes, data, NEWLINE);
    Lines.SplitConcat(Unfinished(bytes), data, NEWLINE);
    Lines.SplitFirst(Unfinished(bytes), [], NEWLINE);
    hide Lines.Split;
  }

  // The lines of a file read in any chunks are those of the file read at once; a longer file only adds
  // lines.
  lemma LongerFileAddsLines(bytes: seq<Byte>, data: seq<Byte>)
    ensures Complete(bytes) <= Complete(bytes + data)
    ensures Complete(bytes + data) == Complete(bytes) + Complete(Unfinished(bytes) + data)
    ensures Unfinished(bytes + data) == Unfinished(Unfinished(bytes) + data)
  {
    ReadOn(bytes, data);
    hide Lines.Split;
  }

  // Cutting one line off the front.
  lemma CutLine(line: seq<Byte>, rest: seq<Byte>)
    requires NEWLINE !in line
    ensures Lines.Split(line + [NEWLINE] + rest, NEWLINE) == [line] + Lines.Split(rest, NEWLINE)
    ensures Lines.Split(line, NEWLINE) == [line]
  {
    Lines.SplitFirst(line, rest, NEWLINE);
  }

  // One reopening of the file: its bytes now, and how many of the available ones the read returns.
  datatype Tick = OpenFailed | Opened(content: seq<Byte>, seekOk: bool, got: nat)

  function Available(content: seq<Byte>, offset: nat, got: nat): seq<Byte> {
    var left := if offset < |content| then |content| - offset else 0;
    var n := if got < left then got else left;
    var m := if n < READ_LIMIT then n else READ_LIMIT;
    if m == 0 then [] else content[offset..offset + m]
  }

  /** One connected browser's stream. `consumed` is everything read so far, `lines` everything parsed. */
  class Tailer {
    const parse: Parser
    var seqNo: nat
    var offset: nat
    var partial: seq<Byte>
    var seen: bool
    var sent: seq<Event>
    ghost var consumed: seq<Byte>
    ghost var lines: seq<seq<Byte>>

    ghost predicate Valid() reads this {
      && offset == |consumed|
      && lines == Complete(consumed) && partial == Unfinished(consumed)
      && seqNo == |sent| && Numbered(sent)
      && (seen || consumed == [])
      && Payloads(sent) == (if seen then [Connected] else []) + PayloadsOf(parse, lines)
    }

    constructor (p: Parser)
      ensures Valid() && parse == p && sent == [] && consumed == []
    {
      parse := p;
      seqNo, offset, partial, seen, sent, consumed, lines := 0, 0, [], false, [], [], [];
    }

    method Send(p: Payload)
      requires seqNo == |sent| && Numbered(sent)
      modifies this`sent, this`seqNo
      ensures seqNo == |sent| && Numbered(sent)
      ensures sent == old(sent) + [Event(old(seqNo), p)] && Payloads(sent) == Payloads(old(sent)) + [p]
    {
      sent := sent + [Event(seqNo, p)];
      seqNo := seqNo + 1;
    }

    method SendAll(ps: seq<Payload>)
      requires seqNo == |sent| && Numbered(sent)
      modifies this`sent, this`seqNo
      ensures seqNo == |sent| && Numbered(sent) && old(sent) <= sent
      ensures Payloads(sent) == Payloads(old(sent)) + ps
    {
      for i := 0 to |ps|
        invariant seqNo == |sent| && Numbered(sent) && old(sent) <= sent
        invariant Payloads(sent) == Payloads(old(sent)) + ps[..i]
      {
        Send(ps[i]);
        assert ps[..i + 1] == ps[..i] + [ps[i]];
      }
      assert ps[..|ps|] == ps;
    }

    // The inner loop: parse every complete line of the carried bytes.
    method CutLines()
      requires seqNo == |sent| && Numbered(sent)
      requires Payloads(sent) == [Connected] + PayloadsOf(parse, lines)
      modifies this`sent, this`seqNo, this`partial, this`lines
      ensures seqNo == |sent| && Numbered(sent) && old(sent) <= sent
      ensures Payloads(sent) == [Connected] + PayloadsOf(parse, lines)
      ensures lines + [partial] == old(lines) + Lines.Split(old(partial), NEWLINE)
    {
      hide Lines.Split;
      while true
        invariant seqNo == |sent| && Numbered(sent) && old(sent) <= sent
        invariant Payloads(sent) == [Connected] + PayloadsOf(parse, lines)
        invariant lines + Lines.Split(partial, NEWLINE) == old(lines) + Lines.Split(old(partial), NEWLINE)
        decreases |partial|
      {
        var i := IndexOf(partial);
        if i < 0 {
          CutLine(partial, []);
          return;
        }
        var line, rest := partial[..i], partial[i + 1..];
        assert partial == line + [NEWLINE] + rest;
        CutLine(line, rest);
        partial := rest;
        SendAll(parse(line));
        assert (lines + [line])[..|lines|] == lines;
        assert lines + ([line] + Lines.Split(rest, NEWLINE)) == lines + [line] + Lines.Split(rest, NEWLINE);
        lines := lines + [line];
      }
    }

    method Consume(data: seq<Byte>)
      requires Valid() && seen
      modifies this`offset, this`partial, this`consumed, this`sent, this`seqNo, this`lines
      ensures Valid() && old(sent) <= sent && consumed == old(consumed) + data
    {
      ReadOn(consumed, data);
      hide Lines.Split, PayloadsOf, Numbered;
      offset := offset + |data|;
      partial := partial + data;
      consumed := consumed + data;
      ghost var whole := lines + Lines.Split(partial, NEWLINE);
      CutLines();
      assert lines + [partial] == whole == Lines.Split(consumed, NEWLINE);
    }

    // One tick of the loop. Reading on never repeats or skips a byte of a file that only grows.
    method OnTick(t: Tick)
      requires Valid()
      modifies this
      ensures Valid() && old(sent) <= sent
      ensures t.OpenFailed? ==> consumed == old(consumed) && sent == old(sent)
      ensures t.Opened? ==> seen
      ensures t.Opened? ==>
        consumed == old(consumed) + if t.seekOk then Available(t.content, old(offset), t.got) else []
      ensures t.Opened? && old(consumed) <= t.content ==> consumed == t.content[..offset]
      // as many bytes after the offset as the read gives, the file has, and 8 MiB allow
      ensures t.Opened? && t.seekOk ==>
        var n, left := offset - old(offset), |t.content| - old(offset);
        && 0 <= n <= t.got && n <= 8_388_608 && (n > 0 ==> n <= left)
        && (n == t.got || n == 8_388_608 || n == left || (n == 0 && left < 0))
        && consumed == old(consumed) + if n > 0 then t.content[old(offset)..offset] else []
    {
      if t.OpenFailed? { return; }
      assert Complete([]) == [];
      hide Lines.Split, PayloadsOf, Numbered;
      if !seen {
        seen := true;
        Send(Connected);
      }
      if !t.seekOk { return; }
      var data := Available(t.content, offset, t.got);
      Consume(data);
    }
  }

  method IndexOf(bytes: seq<Byte>) returns (i: int)
    ensures if NEWLINE in bytes then 0 <= i < |bytes| && bytes[i] == NEWLINE && NEWLINE !in bytes[..i] else i == -1
  {
    for k := 0 to |bytes|
      invariant NEWLINE !in bytes[..k]
    {
      if bytes[k] == NEWLINE { return k; }
      assert bytes[..k + 1] == bytes[..k] + [bytes[k]];
    }
    assert bytes[..|bytes|] == bytes;
    return -1;
  }
}
