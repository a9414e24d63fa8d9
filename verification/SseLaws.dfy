/**
 Laws of the event-stream decoder: it distributes over concatenation at a blank line, it never
 fabricates bytes or records, and it undoes the framing the gateway and the sandbox write.
 */
module SseLaws {
  import opened Bytes
  import opened Seqs
  import opened Sse
  import opened Wrappers

  // ------------------------------------------------------------------
  // Concatenation
  // ------------------------------------------------------------------

  /** A byte string that ends a record: empty, or whole lines of which the last is blank. */
  predicate AtBoundary(a: Bytes) {
    a == [] || (a[|a| - 1] == LF && Lines(a) != [] && Lines(a)[|Lines(a)| - 1] == [])
  }

  lemma LinesCons(line: Bytes, rest: Bytes)
    requires LF !in line
    ensures Lines(line + ([LF] + rest)) == [TrimCr(line)] + Lines(rest)
  {
    var input := line + ([LF] + rest);
    LineEndIs(input, |line|);
    assert input[..|line|] == line;
    assert input[|line| + 1..] == rest;
  }

  lemma LinesAppendStep(line: Bytes, rest: Bytes, b: Bytes)
    requires LF !in line
    requires Lines(rest + b) == Lines(rest) + Lines(b)
    ensures Lines(line + ([LF] + rest) + b) == Lines(line + ([LF] + rest)) + Lines(b)
  {
    LinesCons(line, rest);
    Assoc(line, [LF] + rest, b);
    Assoc([LF], rest, b);
    LinesCons(line, rest + b);
    Assoc([TrimCr(line)], Lines(rest), Lines(b));
  }

  lemma {:induction false} LinesAppend(a: Bytes, b: Bytes)
    requires a == [] || a[|a| - 1] == LF
    ensures Lines(a + b) == Lines(a) + Lines(b)
    decreases |a|
  {
    if a == [] {
      AppendNil(b);
      AppendNil(Lines(b));
    } else {
      var n := LineEnd(a);
      LinesAppend(a[n + 1..], b);
      LinesAppendStep(a[..n], a[n + 1..], b);
      Around(a, n);
    }
  }

  lemma {:induction false} EventsAppend(x: seq<Bytes>, y: seq<Bytes>, failed: bool, cut: bool)
    requires x == [] || x[|x| - 1] == []
    ensures Events(x + y, failed) == Events(x, cut) + Events(y, failed)
    decreases |x|
  {
    if x == [] {
      AppendNil(y);
      AppendNil(Events(y, failed));
      AppendNil(x);
      LastGroup(x, cut, [], None, false);
    } else {
      var n := FirstBlank(x);
      var group, rest := x[..n], x[n + 1..];
      Around(x, n);
      EventsSplit(group, rest, cut);
      EventsAppend(rest, y, failed, cut);
      Assoc(group, [[]] + rest, y);
      Assoc([[]], rest, y);
      EventsSplit(group, rest + y, failed);
      Assoc(RecordOf(group), Events(rest, cut), Events(y, failed));
    }
  }

  /** Decoding distributes over concatenation at a record boundary, however the first part was cut. */
  lemma DecodeAppend(a: Bytes, b: Bytes, failed: bool, cut: bool)
    requires AtBoundary(a)
    ensures Decode(a + b, failed) == Decode(a, cut) + Decode(b, failed)
  {
    LinesAppend(a, b);
    EventsAppend(Lines(a), Lines(b), failed, cut);
  }

  lemma BoundaryAppend(a: Bytes, b: Bytes)
    requires AtBoundary(a) && AtBoundary(b)
    ensures AtBoundary(a + b)
  {
    if b == [] {
      AppendNil(a);
    } else {
      LinesAppend(a, b);
      LastOfBoth(a, b);
      LastOfBoth(Lines(a), Lines(b));
    }
  }

  lemma LastOfBoth<T>(a: seq<T>, b: seq<T>)
    requires b != []
    ensures a + b != [] && (a + b)[|a + b| - 1] == b[|b| - 1]
  {
  }

  // ------------------------------------------------------------------
  // Conservation
  // ------------------------------------------------------------------

  function TotalLength(parts: seq<Bytes>): nat {
    if parts == [] then 0 else TotalLength(parts[..|parts| - 1]) + |parts[|parts| - 1]|
  }

  /** Name and data bytes over a list of records. */
  function EventBytes(events: seq<Event>): nat {
    if events == [] then 0 else |events[0].name| + |events[0].data| + EventBytes(events[1..])
  }

  lemma {:induction false} TotalLengthAppend(a: seq<Bytes>, b: seq<Bytes>)
    ensures TotalLength(a + b) == TotalLength(a) + TotalLength(b)
    decreases |b|
  {
    if b == [] {
      assert a + b == a;
    } else {
      assert (a + b)[..|a + b| - 1] == a + b[..|b| - 1];
      TotalLengthAppend(a, b[..|b| - 1]);
    }
  }

  lemma {:induction false} EventBytesAppend(a: seq<Event>, b: seq<Event>)
    ensures EventBytes(a + b) == EventBytes(a) + EventBytes(b)
  {
    if a == [] {
      assert a + b == b;
    } else {
      assert (a + b)[1..] == a[1..] + b;
      EventBytesAppend(a[1..], b);
    }
  }

  /** The bytes a joined list of values takes, one line feed per value counted. */
  lemma {:induction false} PayloadLength(values: seq<Bytes>)
    ensures |JoinLf(DropLeadingEmpty(values))| <= TotalLength(values) + |values|
    decreases |values|
  {
    if values != [] {
      var front, v := values[..|values| - 1], values[|values| - 1];
      assert values == front + [v];
      PayloadLength(front);
      DropLeadingEmptySnoc(front, v);
      var kept := DropLeadingEmpty(front);
      assert (kept + [v])[..|kept + [v]| - 1] == kept;
    }
  }

  lemma FieldLength(line: Bytes)
    ensures FieldOf(line).Some? ==> |FieldOf(line).value.value| + 4 <= |line|
  {
    var n := ColonAt(line);
    if FieldOf(line).Some? {
      assert |line[..n]| == n;
    }
  }

  /** A record takes no more bytes than the lines it was read from. */
  lemma {:induction false} FieldsLength(group: seq<Bytes>)
    ensures var fields := Fields(group);
            |LastName(fields)| + TotalLength(DataValues(fields)) + 4 * |DataValues(fields)| <= TotalLength(group)
    decreases |group|
  {
    if group != [] {
      var front, line := group[..|group| - 1], group[|group| - 1];
      FieldsLength(front);
      FieldLength(line);
      var f := FieldOf(line);
      if f.Some? {
        var fields := Fields(front) + [f.value];
        assert fields[..|fields| - 1] == Fields(front);
        if f.value.DataField? {
          TotalLengthAppend(DataValues(Fields(front)), [f.value.value]);
          assert [f.value.value][..0] == [];
        } else {
          assert DataValues(fields) == DataValues(Fields(front));
        }
      } else {
        assert Fields(group) == Fields(front);
      }
    }
  }

  lemma RecordLength(group: seq<Bytes>)
    ensures EventBytes(RecordOf(group)) <= TotalLength(group)
    ensures RecordOf(group) != [] ==> group != []
  {
    FieldsLength(group);
    PayloadLength(DataValues(Fields(group)));
  }

  lemma {:induction false} EventsLength(lines: seq<Bytes>, failed: bool)
    ensures EventBytes(Events(lines, failed)) <= TotalLength(lines)
    ensures |Events(lines, failed)| <= |lines|
    decreases |lines|
  {
    var n := FirstBlank(lines);
    if n < |lines| {
      var group, rest := lines[..n], lines[n + 1..];
      assert lines == group + ([[]] + rest);
      EventsSplit(group, rest, failed);
      RecordLength(group);
      EventsLength(rest, failed);
      EventBytesAppend(RecordOf(group), Events(rest, failed));
      TotalLengthAppend(group, [[]] + rest);
      TotalLengthAppend([[]], rest);
    } else {
      RecordLength(lines);
    }
  }

  lemma {:induction false} LinesLength(input: Bytes)
    ensures TotalLength(Lines(input)) <= |input|
    decreases |input|
  {
    if input != [] {
      var first := TrimCr(input[..LineEnd(input)]);
      LinesLength(AfterLine(input));
      TotalLengthAppend([first], Lines(AfterLine(input)));
      assert [first][..0] == [];
    }
  }

  /** Nothing is fabricated: neither bytes nor records exceed what the input holds. */
  lemma DecodeConserves(input: Bytes, failed: bool)
    ensures EventBytes(Decode(input, failed)) <= |input|
    ensures |Decode(input, failed)| <= |Lines(input)| <= |input|
  {
    LinesLength(input);
    EventsLength(Lines(input), failed);
  }

  // ------------------------------------------------------------------
  // Framing
  // ------------------------------------------------------------------

  /** What the gateway writes: an event payload or a keep-alive comment. */
  datatype Piece = KeepAlive | Payload(payload: Bytes)

  function Wire(piece: Piece): Bytes {
    if piece.KeepAlive? then KEEP_ALIVE else Frame(piece.payload)
  }

  function Render(pieces: seq<Piece>): Bytes {
    if pieces == [] then [] else Render(pieces[..|pieces| - 1]) + Wire(pieces[|pieces| - 1])
  }

  /** The payloads among the pieces, in order. */
  function PayloadsOf(pieces: seq<Piece>): seq<Bytes> {
    if pieces == [] then []
    else
      PayloadsOf(pieces[..|pieces| - 1]) +
      (if pieces[|pieces| - 1].Payload? then [pieces[|pieces| - 1].payload] else [])
  }

  predicate OneLinePieces(pieces: seq<Piece>) {
    forall i :: 0 <= i < |pieces| && pieces[i].Payload? ==> OneLine(pieces[i].payload)
  }

  /** Unnamed records carrying the given data, one each. */
  function Unnamed(data: seq<Bytes>): (events: seq<Event>)
    ensures |events| == |data|
    ensures forall i :: 0 <= i < |data| ==> events[i] == Event([], data[i])
  {
    seq(|data|, i requires 0 <= i < |data| => Event([], data[i]))
  }

  lemma BlankLine()
    ensures Lines([LF]) == [[]]
  {
    LinesCons([], []);
    assert [LF] == [] + ([LF] + []);
  }

  lemma TwoLines(line: Bytes)
    requires line != [] && LF !in line && line[|line| - 1] != CR
    ensures Lines(line + [LF, LF]) == [line, []]
    ensures AtBoundary(line + [LF, LF])
  {
    BlankLine();
    LinesCons(line, [LF]);
    assert [LF, LF] == [LF] + [LF];
    assert TrimCr(line) == line;
    assert [line] + [[]] == [line, []];
  }

  lemma OneLineRecord(line: Bytes, failed: bool)
    requires line != [] && LF !in line && line[|line| - 1] != CR
    ensures Decode(line + [LF, LF], failed) == RecordOf([line])
  {
    TwoLines(line);
    EventsSplit([line], [], failed);
    assert [line, []] == [line] + ([[]] + []);
    LastGroup([], failed, [], None, false);
  }

  lemma GroupOfOne(line: Bytes)
    ensures Fields([line]) == if FieldOf(line).Some? then [FieldOf(line).value] else []
  {
    var group := [line];
    assert group[..|group| - 1] == [];
  }

  lemma DataLine(p: Bytes)
    ensures FieldOf(DATA_PREFIX + p) == Some(DataField(p))
    ensures RecordOf([DATA_PREFIX + p]) == [Event([], p)]
  {
    var line := DATA_PREFIX + p;
    assert line[4] == COLON && line[0] != COLON && line[1] != COLON && line[2] != COLON && line[3] != COLON;
    assert ColonAt(line) == 4;
    assert line[..4] == DATA;
    assert line[5..] == [SPACE] + p;
    GroupOfOne(line);
    OneField(p);
  }

  lemma OneField(p: Bytes)
    ensures LastName([DataField(p)]) == [] && DataValues([DataField(p)]) == [p]
    ensures JoinLf(DropLeadingEmpty([p])) == p
  {
    var fields := [DataField(p)];
    assert fields[..|fields| - 1] == [];
  }

  lemma FrameDecodes(p: Bytes, failed: bool)
    requires OneLine(p)
    ensures AtBoundary(Frame(p))
    ensures Decode(Frame(p), failed) == [Event([], p)]
  {
    TwoLines(DATA_PREFIX + p);
    OneLineRecord(DATA_PREFIX + p, failed);
    DataLine(p);
  }

  lemma KeepAliveDecodes(failed: bool)
    ensures AtBoundary(KEEP_ALIVE)
    ensures Decode(KEEP_ALIVE, failed) == []
  {
    var line := KEEP_ALIVE_COMMENT;
    TwoLines(line);
    OneLineRecord(line, failed);
    GroupOfOne(line);
    assert line[..0] == [];
  }

  lemma PieceDecodes(piece: Piece, failed: bool)
    requires piece.Payload? ==> OneLine(piece.payload)
    ensures AtBoundary(Wire(piece))
    ensures Decode(Wire(piece), failed) == Unnamed(if piece.Payload? then [piece.payload] else [])
  {
    if piece.Payload? {
      FrameDecodes(piece.payload, failed);
    } else {
      KeepAliveDecodes(failed);
    }
  }

  /**
   Whole frames decode to their payloads in order, wherever keep-alive comments sit between them
   and whatever follows them.
   */
  lemma {:induction false} RenderDecodes(pieces: seq<Piece>, tail: Bytes, failed: bool)
    requires OneLinePieces(pieces)
    ensures AtBoundary(Render(pieces))
    ensures Decode(Render(pieces) + tail, failed) == Unnamed(PayloadsOf(pieces)) + Decode(tail, failed)
    decreases |pieces|
  {
    if pieces == [] {
      AppendNil(tail);
      AppendNil(Decode(tail, failed));
    } else {
      var front, last := pieces[..|pieces| - 1], pieces[|pieces| - 1];
      PieceDecodes(last, failed);
      RenderDecodes(front, Wire(last) + tail, failed);
      BoundaryAppend(Render(front), Wire(last));
      Assoc(Render(front), Wire(last), tail);
      DecodeAppend(Wire(last), tail, failed, failed);
      var before, one := PayloadsOf(front), if last.Payload? then [last.payload] else [];
      Assoc(Unnamed(before), Unnamed(one), Decode(tail, failed));
      UnnamedAppend(before, one);
    }
  }

  lemma UnnamedAppend(a: seq<Bytes>, b: seq<Bytes>)
    ensures Unnamed(a + b) == Unnamed(a) + Unnamed(b)
  {
  }

}
