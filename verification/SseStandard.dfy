/**
 The reader against the standard: section 9.2.6 of the WHATWG HTML Living Standard written out, the
 exact condition under which both read the same records, and inputs on which they differ.
 */
module SseStandard {
  import opened Bytes
  import opened Seqs
  import opened Sse
  import opened SseLaws
  import opened Wrappers

  // ------------------------------------------------------------------
  // The standard
  // ------------------------------------------------------------------

  const BOM: Bytes := [0xEF, 0xBB, 0xBF]

  /** One leading byte order mark is dropped. */
  function WithoutBom(input: Bytes): Bytes {
    if BOM <= input then input[|BOM|..] else input
  }

  /** Where the first line feed or carriage return is. */
  function StdLineEnd(input: Bytes): (n: nat)
    ensures n <= |input|
    ensures forall i :: 0 <= i < n ==> input[i] != LF && input[i] != CR
    ensures n < |input| ==> input[n] == LF || input[n] == CR
  {
    if input == [] || input[0] == LF || input[0] == CR then 0 else 1 + StdLineEnd(input[1..])
  }

  /** A line ends with a carriage return and a line feed, with a line feed, or with a carriage return. */
  function StdAfterLine(input: Bytes): (r: Bytes)
    ensures |r| < |input| || input == []
  {
    var n := StdLineEnd(input);
    if n == |input| then []
    else if input[n] == CR && n + 1 < |input| && input[n + 1] == LF then input[n + 2..]
    else input[n + 1..]
  }

  function StdLines(input: Bytes): seq<Bytes>
    decreases |input|
  {
    if input == [] then [] else [input[..StdLineEnd(input)]] + StdLines(StdAfterLine(input))
  }

  /** The data buffer: every value with a line feed after it. */
  function DataBuffer(values: seq<Bytes>): Bytes {
    if values == [] then [] else DataBuffer(values[..|values| - 1]) + values[|values| - 1] + [LF]
  }

  /** Dispatching a group: nothing when the buffer is empty, else the buffer without its last line feed. */
  function StdRecord(group: seq<Bytes>): (events: seq<Event>)
    ensures |events| <= 1
  {
    var buffer := DataBuffer(DataValues(Fields(group)));
    if buffer == [] then [] else [Event(LastName(Fields(group)), buffer[..|buffer| - 1])]
  }

  /** One dispatch per blank line; what no blank line ends is discarded. */
  function StdEvents(lines: seq<Bytes>): seq<Event>
    decreases |lines|
  {
    var n := FirstBlank(lines);
    if n < |lines| then StdRecord(lines[..n]) + StdEvents(lines[n + 1..]) else []
  }

  function StdDecode(input: Bytes): seq<Event> {
    StdEvents(StdLines(WithoutBom(input)))
  }

  // ------------------------------------------------------------------
  // Records
  // ------------------------------------------------------------------

  lemma {:induction false} BufferIsJoin(values: seq<Bytes>)
    ensures DataBuffer(values) == if values == [] then [] else JoinLf(values) + [LF]
  {
    if values != [] {
      BufferIsJoin(values[..|values| - 1]);
      if |values| == 1 {
        AppendNil(values[0]);
      }
    }
  }

  lemma {:induction false} JoinAfterEmpty(rest: seq<Bytes>)
    requires rest != []
    ensures JoinLf([[]] + rest) == [LF] + JoinLf(rest)
  {
    var all := [[]] + rest;
    var front, last := rest[..|rest| - 1], rest[|rest| - 1];
    assert all[..|all| - 1] == [[]] + front;
    if front == [] {
      assert all[..|all| - 1] == [[]];
      assert JoinLf(all) == [] + [LF] + last;
    } else {
      JoinAfterEmpty(front);
      Assoc([LF], JoinLf(front), [LF]);
      Assoc([LF], JoinLf(front) + [LF], last);
    }
  }

  lemma {:induction false} DroppingShortens(values: seq<Bytes>)
    ensures |JoinLf(DropLeadingEmpty(values))| <= |JoinLf(values)|
    ensures |values| > 1 && values[0] == [] ==> |JoinLf(DropLeadingEmpty(values))| < |JoinLf(values)|
  {
    if values != [] && values[0] == [] {
      DroppingShortens(values[1..]);
      if |values| > 1 {
        JoinAfterEmpty(values[1..]);
        assert values == [[]] + values[1..];
      }
    }
  }

  /** The reader and the standard agree on a group: no field at all, or data that does not begin empty. */
  predicate Agrees(group: seq<Bytes>) {
    var values := DataValues(Fields(group));
    Fields(group) == [] || (values != [] && (values[0] != [] || |values| == 1))
  }

  lemma RecordAgreesIff(group: seq<Bytes>)
    ensures RecordOf(group) == StdRecord(group) <==> Agrees(group)
    ensures |StdRecord(group)| <= |RecordOf(group)|
  {
    var values := DataValues(Fields(group));
    BufferIsJoin(values);
    DroppingShortens(values);
    if values != [] {
      var joined := JoinLf(values);
      assert (joined + [LF])[..|joined + [LF]| - 1] == joined;
      if |values| == 1 && values[0] == [] {
        assert values[1..] == [];
      }
    }
  }

  // ------------------------------------------------------------------
  // Lists of lines
  // ------------------------------------------------------------------

  /** Every ended group agrees, and the reader delivers nothing for the last, unended one. */
  predicate AllAgree(lines: seq<Bytes>, failed: bool)
    decreases |lines|
  {
    var n := FirstBlank(lines);
    if n < |lines| then Agrees(lines[..n]) && AllAgree(lines[n + 1..], failed)
    else failed || Fields(lines) == []
  }

  lemma {:induction false} StandardFewer(lines: seq<Bytes>, failed: bool)
    ensures |StdEvents(lines)| <= |Events(lines, failed)|
    decreases |lines|
  {
    var n := FirstBlank(lines);
    if n < |lines| {
      RecordAgreesIff(lines[..n]);
      StandardFewer(lines[n + 1..], failed);
    }
  }

  lemma SplitEqual<T>(a: seq<T>, b: seq<T>, c: seq<T>, d: seq<T>, heads: bool, tails: bool)
    requires |c| <= |a| && |d| <= |b|
    requires (a == c <==> heads) && (b == d <==> tails)
    ensures a + b == c + d <==> heads && tails
  {
    if a + b == c + d {
      assert |a + b| == |c + d|;
      assert a == (a + b)[..|a|] == (c + d)[..|c|] == c;
      assert b == (a + b)[|a|..] == (c + d)[|c|..] == d;
    }
  }

  lemma {:induction false} EventsAgreeIff(lines: seq<Bytes>, failed: bool)
    ensures Events(lines, failed) == StdEvents(lines) <==> AllAgree(lines, failed)
    decreases |lines|
  {
    var n := FirstBlank(lines);
    if n < |lines| {
      var group, rest := lines[..n], lines[n + 1..];
      RecordAgreesIff(group);
      StandardFewer(rest, failed);
      EventsAgreeIff(rest, failed);
      SplitEqual(RecordOf(group), Events(rest, failed), StdRecord(group), StdEvents(rest),
                 Agrees(group), AllAgree(rest, failed));
    } else {
      TailAgreesIff(lines, failed);
    }
  }

  lemma TailAgreesIff(lines: seq<Bytes>, failed: bool)
    requires FirstBlank(lines) == |lines|
    ensures StdEvents(lines) == [] && (Events(lines, failed) == [] <==> failed || Fields(lines) == [])
  {
  }

  // ------------------------------------------------------------------
  // Bytes
  // ------------------------------------------------------------------

  /** Carriage returns only as the first half of a line ending, as every common writer emits them. */
  predicate PairedCr(input: Bytes) {
    forall i :: 0 <= i < |input| && input[i] == CR ==> i + 1 < |input| && input[i + 1] == LF
  }

  lemma NoCrToTrim(line: Bytes)
    requires CR !in line
    ensures TrimCr(line) == line && TrimCr(line + [CR]) == line
  {
    Snoc(line, CR);
    if line != [] {
      var last := line[|line| - 1];
      assert last in line;
    }
  }

  lemma StdLineEndAt(input: Bytes, n: nat)
    requires n <= |input|
    requires forall i :: 0 <= i < n ==> input[i] != LF && input[i] != CR
    requires n < |input| ==> input[n] == LF || input[n] == CR
    ensures StdLineEnd(input) == n
  {
  }

  lemma CrLfLine(input: Bytes, n: nat)
    requires n == StdLineEnd(input) && n + 1 < |input| && input[n] == CR && input[n + 1] == LF
    ensures LineEnd(input) == n + 1
    ensures TrimCr(input[..n + 1]) == input[..n]
  {
    LineEndIs(input, n + 1);
    TrimOne(input, n);
  }

  lemma TrimOne(input: Bytes, n: nat)
    requires n == StdLineEnd(input) < |input| && input[n] == CR
    ensures TrimCr(input[..n + 1]) == input[..n]
  {
    TakeSnoc(input, n);
    NoCrBefore(input, n);
    NoCrToTrim(input[..n]);
  }

  lemma NoCrBefore(input: Bytes, n: nat)
    requires n <= StdLineEnd(input)
    ensures CR !in input[..n]
  {
    forall c | c in input[..n] ensures c != CR {
      var i :| 0 <= i < n && input[i] == c;
    }
  }

  lemma LfLine(input: Bytes, n: nat)
    requires n == StdLineEnd(input) && (n < |input| ==> input[n] == LF)
    ensures LineEnd(input) == n
    ensures TrimCr(input[..n]) == input[..n]
  {
    LineEndIs(input, n);
    NoCrBefore(input, n);
    NoCrToTrim(input[..n]);
  }

  lemma FirstLineAgrees(input: Bytes)
    requires input != [] && PairedCr(input)
    ensures TrimCr(input[..LineEnd(input)]) == input[..StdLineEnd(input)]
    ensures AfterLine(input) == StdAfterLine(input)
  {
    var n := StdLineEnd(input);
    if n < |input| && input[n] == CR {
      CrLfLine(input, n);
    } else {
      LfLine(input, n);
    }
  }

  lemma PairedAfterLine(input: Bytes)
    requires PairedCr(input)
    ensures PairedCr(StdAfterLine(input))
  {
    var rest := StdAfterLine(input);
    var k := |input| - |rest|;
    assert rest == input[k..];
    forall i | 0 <= i < |rest| && rest[i] == CR ensures i + 1 < |rest| && rest[i + 1] == LF {
      assert input[k + i] == CR;
    }
  }

  lemma {:induction false} LinesAgree(input: Bytes)
    requires PairedCr(input)
    ensures Lines(input) == StdLines(input)
    decreases |input|
  {
    if input != [] {
      FirstLineAgrees(input);
      PairedAfterLine(input);
      LinesAgree(StdAfterLine(input));
    }
  }

  /**
   On input without a byte order mark and without lone carriage returns the reader decodes what the
   standard says exactly when no ended record has a name but no data or data that begins with an empty
   line before another, and no field is left after the last blank line of a clean input.
   */
  lemma ConformsIff(input: Bytes, failed: bool)
    requires PairedCr(input) && !(BOM <= input)
    ensures Decode(input, failed) == StdDecode(input) <==> AllAgree(StdLines(input), failed)
  {
    LinesAgree(input);
    EventsAgreeIff(Lines(input), failed);
  }

  // ------------------------------------------------------------------
  // Where they differ
  // ------------------------------------------------------------------

  lemma StdLinesCons(line: Bytes, rest: Bytes)
    requires LF !in line && CR !in line
    ensures StdLines(line + ([LF] + rest)) == [line] + StdLines(rest)
    ensures rest != [] && rest[0] != LF ==> StdLines(line + ([CR] + rest)) == [line] + StdLines(rest)
  {
    StdLineEndIs(line, LF, rest);
    StdLineEndIs(line, CR, rest);
    Seam(line, LF, rest);
    Seam(line, CR, rest);
  }

  lemma StdLineEndIs(line: Bytes, end: byte, rest: Bytes)
    requires LF !in line && CR !in line && (end == LF || end == CR)
    ensures StdLineEnd(line + ([end] + rest)) == |line|
    ensures (line + ([end] + rest))[..|line|] == line
  {
    var input := line + ([end] + rest);
    Seam(line, end, rest);
    forall i | 0 <= i < |line| ensures input[i] != LF && input[i] != CR {
      assert input[i] == line[i] && line[i] in line;
    }
    StdLineEndAt(input, |line|);
  }

  /** What the standard reads in one line and the blank line after it. */
  lemma StdOneLine(line: Bytes)
    requires line != [] && LF !in line && CR !in line
    ensures StdLines(line + [LF, LF]) == [line] + ([[]] + [])
    ensures StdEvents([line] + ([[]] + [])) == StdRecord([line])
  {
    assert [LF, LF] == [LF] + [LF] && [LF] == [] + ([LF] + []);
    StdLinesCons(line, [LF]);
    StdLinesCons([], []);
    StdEventsOneGroup([line]);
  }

  lemma StdEventsOneGroup(group: seq<Bytes>)
    requires NoBlank(group)
    ensures StdEvents(group + ([[]] + [])) == StdRecord(group)
  {
    var lines := group + ([[]] + []);
    Seam(group, [], []);
    assert lines[..|group|] == group;
    FirstBlankIs(lines, |group|);
    AppendNil(StdRecord(group));
  }

  /** A record with a name and no data is delivered; the standard dispatches nothing. */
  lemma EventOnlyRecord(name: Bytes, failed: bool)
    requires OneLine(name) && name[0] != SPACE
    ensures var input := EVENT + ([COLON] + name) + [LF, LF];
            Decode(input, failed) == [Event(name, [])] && StdDecode(input) == []
  {
    var line := EVENT + ([COLON] + name);
    EventLine(name);
    var last := name[|name| - 1];
    assert last in name && line[|line| - 1] == last;
    OneLineRecord(line, failed);
    StdOneLine(line);
    assert (line + [LF, LF])[0] == EVENT[0];
  }

  lemma ColonAtIs(line: Bytes, n: nat)
    requires n < |line| && line[n] == COLON
    requires forall i :: 0 <= i < n ==> line[i] != COLON
    ensures ColonAt(line) == n
  {
  }

  lemma EventLine(name: Bytes)
    requires OneLine(name) && name[0] != SPACE
    ensures var line := EVENT + ([COLON] + name);
            && line != [] && LF !in line && CR !in line
            && Fields([line]) == [NameField(name)]
            && RecordOf([line]) == [Event(name, [])] && StdRecord([line]) == []
  {
    var line := EVENT + ([COLON] + name);
    Seam(EVENT, COLON, name);
    assert forall i :: 0 <= i < 5 ==> line[i] == EVENT[i];
    ColonAtIs(line, 5);
    assert line[..5] == EVENT;
    GroupOfOne(line);
    NameOnly(name);
  }

  lemma NameOnly(name: Bytes)
    ensures LastName([NameField(name)]) == name && DataValues([NameField(name)]) == []
  {
    assert [NameField(name)][..0] == [];
  }

  /** A last record that no blank line ends is delivered; the standard discards it. */
  lemma UnterminatedRecord(p: Bytes)
    requires OneLine(p)
    ensures Decode(DATA_PREFIX + p, false) == [Event([], p)] && StdDecode(DATA_PREFIX + p) == []
  {
    var line := DATA_PREFIX + p;
    assert line[0] == DATA[0];
    PrefixedLine(p);
    DataLine(p);
    LineEndIs(line, |line|);
    StdLineEndAt(line, |line|);
    TakeAll(line);
    NoCrToTrim(line);
    assert Lines(line) == [line] + [] && StdLines(line) == [line] + [];
    AppendNil([line]);
    FirstBlankIs([line], 1);
  }

  lemma PrefixedLine(p: Bytes)
    requires LF !in p && CR !in p
    ensures LF !in DATA_PREFIX + p && CR !in DATA_PREFIX + p && DATA_PREFIX + p != []
  {
    assert LF !in DATA_PREFIX && CR !in DATA_PREFIX;
  }

  lemma GroupOfTwo(a: Bytes, b: Bytes)
    ensures Fields([a, b]) == Fields([a]) + Fields([b])
  {
    assert [a, b][..1] == [a];
    GroupOfOne(a);
    GroupOfOne(b);
  }

  lemma TwoValues(v: Bytes, w: Bytes)
    ensures var fields := [DataField(v)] + [DataField(w)];
            LastName(fields) == [] && DataValues(fields) == [v, w]
    ensures DataBuffer([v, w]) == v + [LF] + w + [LF]
  {
    var fields := [DataField(v)] + [DataField(w)];
    assert fields[..1] == [DataField(v)];
    OneField(v);
    assert [v] + [w] == [v, w];
    BufferIsJoin([v, w]);
    assert [v, w][..1] == [v];
  }

  const EMPTY_DATA: Bytes := DATA + [COLON]

  /** A line of a record: not blank, one line, with no byte order mark in front. */
  predicate RecordLine(line: Bytes) {
    line != [] && LF !in line && CR !in line && line[0] != BOM[0]
  }

  lemma ReaderTwoLines(a: Bytes, b: Bytes, failed: bool)
    requires RecordLine(a) && RecordLine(b)
    ensures Decode(a + ([LF] + (b + [LF, LF])), failed) == RecordOf([a, b])
  {
    var last := b[|b| - 1];
    assert last in b;
    NoCrToTrim(a);
    TwoLines(b);
    LinesCons(a, b + [LF, LF]);
    TwoLineGroup(a, b, failed);
  }

  lemma StdTwoLines(a: Bytes, b: Bytes, end: byte)
    requires RecordLine(a) && RecordLine(b) && (end == LF || end == CR)
    ensures StdDecode(a + ([end] + (b + [LF, LF]))) == StdRecord([a, b])
  {
    StdLinesOfTwo(a, b, end);
    TwoLineGroup(a, b, false);
    Unmarked(a, [end] + (b + [LF, LF]));
  }

  lemma StdLinesOfTwo(a: Bytes, b: Bytes, end: byte)
    requires RecordLine(a) && RecordLine(b) && (end == LF || end == CR)
    ensures StdLines(a + ([end] + (b + [LF, LF]))) == [a] + ([b] + ([[]] + []))
  {
    var rest := b + [LF, LF];
    assert rest[0] == b[0] && b[0] in b;
    StdLinesCons(a, rest);
    StdOneLine(b);
  }

  lemma Unmarked(line: Bytes, rest: Bytes)
    requires line != [] && line[0] != BOM[0]
    ensures WithoutBom(line + rest) == line + rest
  {
    assert (line + rest)[0] == line[0];
  }

  lemma PrefixedRecordLine(p: Bytes)
    requires OneLine(p)
    ensures RecordLine(DATA_PREFIX + p)
  {
    PrefixedLine(p);
    assert (DATA_PREFIX + p)[0] == DATA[0];
  }

  /** An empty data line before another is dropped; the standard keeps its line feed. */
  lemma LeadingEmptyData(p: Bytes, failed: bool)
    requires OneLine(p)
    ensures var input := EMPTY_DATA + ([LF] + (DATA_PREFIX + p + [LF, LF]));
            Decode(input, failed) == [Event([], p)] && StdDecode(input) == [Event([], [LF] + p)]
  {
    PrefixedRecordLine(p);
    EmptyDataGroup(p);
    ReaderTwoLines(EMPTY_DATA, DATA_PREFIX + p, failed);
    StdTwoLines(EMPTY_DATA, DATA_PREFIX + p, LF);
  }

  lemma TwoLineGroup(a: Bytes, b: Bytes, failed: bool)
    requires a != [] && b != []
    ensures Events([a] + [b, []], failed) == RecordOf([a, b])
    ensures StdEvents([a] + ([b] + ([[]] + []))) == StdRecord([a, b])
  {
    assert [a] + [b, []] == [a, b] + ([[]] + []);
    assert [a] + ([b] + ([[]] + [])) == [a, b] + ([[]] + []);
    EventsSplit([a, b], [], failed);
    LastGroup([], failed, [], None, false);
    AppendNil(RecordOf([a, b]));
    StdEventsOneGroup([a, b]);
  }

  lemma EmptyDataFields(p: Bytes)
    ensures Fields([EMPTY_DATA, DATA_PREFIX + p]) == [DataField([])] + [DataField(p)]
  {
    DataLine(p);
    EmptyDataField();
    GroupOfOne(EMPTY_DATA);
    GroupOfOne(DATA_PREFIX + p);
    GroupOfTwo(EMPTY_DATA, DATA_PREFIX + p);
  }

  lemma EmptyDataField()
    ensures FieldOf(EMPTY_DATA) == Some(DataField([]))
  {
    Seam(DATA, COLON, []);
    AppendNil([COLON]);
    ColonAtIs(EMPTY_DATA, 4);
    assert EMPTY_DATA[..4] == DATA && EMPTY_DATA[5..] == [];
  }

  lemma EmptyThenValue(p: Bytes)
    ensures JoinLf(DropLeadingEmpty([[], p])) == p
    ensures DataBuffer([[], p]) == [LF] + p + [LF]
  {
    assert [[], p][1..] == [p];
    OneField(p);
    TwoValues([], p);
    AppendNil([LF]);
  }

  lemma EmptyDataGroup(p: Bytes)
    ensures var group := [EMPTY_DATA, DATA_PREFIX + p];
            RecordOf(group) == [Event([], p)] && StdRecord(group) == [Event([], [LF] + p)]
  {
    EmptyDataFields(p);
    TwoValues([], p);
    EmptyThenValue(p);
    assert ([LF] + p + [LF])[..|p| + 1] == [LF] + p;
  }

  /** A lone carriage return is data; to the standard it ends a line. */
  lemma LoneCarriageReturn(p: Bytes, q: Bytes, failed: bool)
    requires OneLine(p) && OneLine(q)
    ensures var input := DATA_PREFIX + p + ([CR] + (DATA_PREFIX + q + [LF, LF]));
            && Decode(input, failed) == [Event([], p + ([CR] + (DATA_PREFIX + q)))]
            && StdDecode(input) == [Event([], p + [LF] + q)]
  {
    PrefixedRecordLine(p);
    PrefixedRecordLine(q);
    StdTwoLines(DATA_PREFIX + p, DATA_PREFIX + q, CR);
    TwoDataGroup(p, q);
    ReaderKeepsCr(p, DATA_PREFIX + q, failed);
    Regroup(DATA_PREFIX, p, [CR], DATA_PREFIX + q, [LF, LF]);
  }

  lemma ReaderKeepsCr(p: Bytes, rest: Bytes, failed: bool)
    requires OneLine(p) && LF !in rest && CR !in rest && rest != []
    ensures Decode(DATA_PREFIX + (p + ([CR] + rest)) + [LF, LF], failed) == [Event([], p + ([CR] + rest))]
  {
    var value := p + ([CR] + rest);
    var line := DATA_PREFIX + value;
    assert line[|line| - 1] == rest[|rest| - 1] && rest[|rest| - 1] in rest;
    assert LF !in line;
    OneLineRecord(line, failed);
    DataLine(value);
  }

  lemma Regroup(a: Bytes, b: Bytes, c: Bytes, d: Bytes, e: Bytes)
    ensures a + b + (c + (d + e)) == a + (b + (c + d)) + e
  {
  }

  lemma TwoDataGroup(p: Bytes, q: Bytes)
    ensures StdRecord([DATA_PREFIX + p, DATA_PREFIX + q]) == [Event([], p + [LF] + q)]
  {
    DataLine(p);
    DataLine(q);
    GroupOfOne(DATA_PREFIX + p);
    GroupOfOne(DATA_PREFIX + q);
    GroupOfTwo(DATA_PREFIX + p, DATA_PREFIX + q);
    TwoValues(p, q);
    var joined := p + [LF] + q;
    assert (joined + [LF])[..|joined + [LF]| - 1] == joined;
  }

  /** A byte order mark hides the first field from the reader. */
  lemma ByteOrderMark(p: Bytes, failed: bool)
    requires OneLine(p)
    ensures var input := BOM + (DATA_PREFIX + p + [LF, LF]);
            Decode(input, failed) == [] && StdDecode(input) == [Event([], p)]
  {
    var line := DATA_PREFIX + p;
    PrefixedRecordLine(p);
    Assoc(BOM, line, [LF, LF]);
    MarkedLine(line, failed);
    assert (BOM + (line + [LF, LF]))[|BOM|..] == line + [LF, LF];
    StdOneLine(line);
    StdDataRecord(p);
  }

  lemma MarkedLine(line: Bytes, failed: bool)
    requires RecordLine(line)
    ensures Decode(BOM + line + [LF, LF], failed) == []
  {
    var marked := BOM + line;
    var last := line[|line| - 1];
    assert last in line && marked[|marked| - 1] == last;
    assert LF !in BOM;
    OneLineRecord(marked, failed);
    UnknownField(marked);
  }

  lemma StdDataRecord(p: Bytes)
    ensures StdRecord([DATA_PREFIX + p]) == [Event([], p)]
  {
    DataLine(p);
    GroupOfOne(DATA_PREFIX + p);
    OneField(p);
    RecordAgreesIff([DATA_PREFIX + p]);
  }

  lemma UnknownField(line: Bytes)
    requires line != [] && line[0] == BOM[0]
    ensures RecordOf([line]) == []
  {
    var n := ColonAt(line);
    if n > 0 {
      assert line[..n][0] == BOM[0];
    }
    GroupOfOne(line);
  }
}
