/**
 The Server-Sent Events reader: a line scanner, the record parser over it, and the
 record-level specification the parser refines.
 */
module Sse {
  import opened Bytes
  import opened Seqs
  import opened Wrappers

  /** One decoded record. */
  datatype Event = Event(name: Bytes, data: Bytes)

  /** The error an interrupted body read reports. */
  datatype ReadError = ReadError(message: string)

  // ------------------------------------------------------------------
  // Lines
  // ------------------------------------------------------------------

  function TrimCr(line: Bytes): (r: Bytes)
    ensures r <= line
  {
    if line != [] && line[|line| - 1] == CR then TrimCr(line[..|line| - 1]) else line
  }

  /** The scanner's own line ending rule: at most one carriage return is dropped. */
  function DropCr(line: Bytes): Bytes {
    if line != [] && line[|line| - 1] == CR then line[..|line| - 1] else line
  }

  /** Where the first line feed is, or the length when there is none. */
  function LineEnd(input: Bytes): (n: nat)
    ensures n <= |input|
    ensures forall i :: 0 <= i < n ==> input[i] != LF
    ensures n < |input| ==> input[n] == LF
  {
    if input == [] || input[0] == LF then 0 else 1 + LineEnd(input[1..])
  }

  function AfterLine(input: Bytes): (r: Bytes)
    ensures |r| < |input| || input == []
  {
    var n := LineEnd(input);
    if n < |input| then input[n + 1..] else []
  }

  /** Every line of the input without its line feed and without trailing carriage returns. */
  function Lines(input: Bytes): (lines: seq<Bytes>)
    ensures |lines| <= |input|
    decreases |input|
  {
    if input == [] then [] else [TrimCr(input[..LineEnd(input)])] + Lines(AfterLine(input))
  }

  // ------------------------------------------------------------------
  // Records
  // ------------------------------------------------------------------

  datatype Field = NameField(value: Bytes) | DataField(value: Bytes)

  function ColonAt(line: Bytes): (n: nat)
    ensures n <= |line|
    ensures forall i :: 0 <= i < n ==> line[i] != COLON
    ensures n < |line| ==> line[n] == COLON
  {
    if line == [] || line[0] == COLON then 0 else 1 + ColonAt(line[1..])
  }

  function DropSpace(value: Bytes): Bytes {
    if value != [] && value[0] == SPACE then value[1..] else value
  }

  /** The field a line carries; comments and unknown fields carry none. */
  function FieldOf(line: Bytes): Option<Field> {
    var n := ColonAt(line);
    var value := DropSpace(if n < |line| then line[n + 1..] else []);
    if line[..n] == EVENT then Some(NameField(value))
    else if line[..n] == DATA then Some(DataField(value))
    else None
  }

  function Fields(group: seq<Bytes>): seq<Field> {
    if group == [] then []
    else
      var f := FieldOf(group[|group| - 1]);
      Fields(group[..|group| - 1]) + (if f.Some? then [f.value] else [])
  }

  /** The value of the last "event" field, or nothing. */
  function LastName(fields: seq<Field>): Bytes {
    if fields == [] then []
    else
      var f := fields[|fields| - 1];
      if f.NameField? then f.value else LastName(fields[..|fields| - 1])
  }

  function DataValues(fields: seq<Field>): seq<Bytes> {
    if fields == [] then []
    else
      var f := fields[|fields| - 1];
      DataValues(fields[..|fields| - 1]) + (if f.DataField? then [f.value] else [])
  }

  function DropLeadingEmpty(values: seq<Bytes>): seq<Bytes> {
    if values != [] && values[0] == [] then DropLeadingEmpty(values[1..]) else values
  }

  function JoinLf(values: seq<Bytes>): Bytes {
    if values == [] then []
    else if |values| == 1 then values[0]
    else JoinLf(values[..|values| - 1]) + [LF] + values[|values| - 1]
  }

  /**
   The record a group of non-blank lines denotes: none without an "event" or "data" line; otherwise
   the last name, and the data values joined by line feeds after the leading empty ones.
   */
  function RecordOf(group: seq<Bytes>): seq<Event> {
    var fields := Fields(group);
    if fields == [] then []
    else [Event(LastName(fields), JoinLf(DropLeadingEmpty(DataValues(fields))))]
  }

  function FirstBlank(lines: seq<Bytes>): (n: nat)
    ensures n <= |lines|
    ensures forall i :: 0 <= i < n ==> lines[i] != []
    ensures n < |lines| ==> lines[n] == []
  {
    if lines == [] || lines[0] == [] then 0 else 1 + FirstBlank(lines[1..])
  }

  /**
   The record-level meaning of a list of lines: one group per blank line, and the last group too
   unless reading failed before a blank line could end it.
   */
  function Events(lines: seq<Bytes>, failed: bool): seq<Event>
    decreases |lines|
  {
    var n := FirstBlank(lines);
    if n < |lines| then RecordOf(lines[..n]) + Events(lines[n + 1..], failed)
    else if failed then []
    else RecordOf(lines)
  }

  function Decode(input: Bytes, failed: bool): seq<Event> {
    Events(Lines(input), failed)
  }

  // ------------------------------------------------------------------
  // The scanner
  // ------------------------------------------------------------------

  /** A line scanner over a body that ends, cleanly or with a read error. */
  class Scanner {
    var rest: Bytes
    var line: Bytes
    const readError: Option<ReadError>

    constructor (input: Bytes, readError: Option<ReadError>)
      ensures rest == input && this.readError == readError
    {
      this.rest := input;
      this.line := [];
      this.readError := readError;
    }

    /** Advances to the next line; a final line without a line feed still counts. */
    method Scan() returns (ok: bool)
      modifies this
      ensures ok == (old(rest) != [])
      ensures ok ==> line == DropCr(old(rest)[..LineEnd(old(rest))]) && rest == AfterLine(old(rest))
      ensures ok ==> Lines(old(rest)) == [TrimCr(line)] + Lines(rest)
      ensures !ok ==> rest == [] && line == old(line)
    {
      if rest == [] {
        return false;
      }
      var n := 0;
      while n < |rest| && rest[n] != LF
        invariant n <= |rest|
        invariant forall i :: 0 <= i < n ==> rest[i] != LF
      {
        n := n + 1;
      }
      LineEndIs(rest, n);
      line := DropCr(rest[..n]);
      TrimAfterDrop(rest[..n]);
      rest := if n < |rest| then rest[n + 1..] else [];
      return true;
    }
  }

  lemma LineEndIs(input: Bytes, n: nat)
    requires n <= |input|
    requires forall i :: 0 <= i < n ==> input[i] != LF
    requires n < |input| ==> input[n] == LF
    ensures LineEnd(input) == n
  {
  }

  lemma TrimAfterDrop(line: Bytes)
    ensures TrimCr(DropCr(line)) == TrimCr(line)
  {
  }

  // ------------------------------------------------------------------
  // The reader
  // ------------------------------------------------------------------

  /** A byte slice whose nil value is told apart from the empty one. */
  type Slice = Option<Bytes>

  /** Appending nothing to a nil slice leaves it nil. */
  function Append(data: Slice, value: Bytes): Slice {
    if data.None? && value == [] then None
    else if data.None? then Some(value)
    else Some(data.value + value)
  }

  function SliceBytes(data: Slice): Bytes {
    if data.Some? then data.value else []
  }

  class Reader {
    const sc: Scanner
    var ev: Event
    var err: Option<ReadError>
    var done: bool

    constructor (input: Bytes, readError: Option<ReadError>)
      ensures Valid() && fresh(sc) && !done && err == None && sc.readError == readError
      ensures Remaining() == Decode(input, readError.Some?)
      ensures sc.rest == input
    {
      sc := new Scanner(input, readError);
      ev := Event([], []);
      err := None;
      done := false;
    }

    ghost predicate Valid()
      reads this, sc
    {
      && (err.Some? ==> done && err == sc.readError)
      && (done ==> sc.rest == [] && err == sc.readError)
    }

    /** The records still to be delivered. */
    ghost function Remaining(): seq<Event>
      reads this, sc
    {
      if done then [] else Decode(sc.rest, sc.readError.Some?)
    }

    /** Lines not yet scanned. */
    ghost function LinesLeft(): nat
      reads this, sc
    {
      |Lines(sc.rest)|
    }

    /** Folds one line that is not blank into the record being read. */
    static method ReadField(line: Bytes, ghost group: seq<Bytes>, name0: Bytes, data0: Slice, seen0: bool)
      returns (name: Bytes, data: Slice, seen: bool)
      requires line != []
      requires Tracks(group, name0, data0, seen0)
      ensures Tracks(group + [line], name, data, seen)
    {
      name, data, seen := name0, data0, seen0;
      TrackLine(group, line, name, data, seen);
      if line[0] == COLON {
        return;
      }
      var n := ColonAt(line);
      var field, value := line[..n], if n < |line| then line[n + 1..] else [];
      value := DropSpace(value);
      if field == EVENT {
        name := value;
        seen := true;
      } else if field == DATA {
        if data.Some? {
          data := Append(data, [LF]);
        }
        data := Append(data, value);
        seen := true;
      }
    }

    /** Scans up to the blank line that ends the next record, or to the end of the input. */
    method ReadRecord() returns (name: Bytes, data: Slice, seen: bool, ended: bool)
      requires Valid() && !done
      modifies sc
      ensures ended ==> seen
      ensures ended ==> old(Remaining()) == [Event(name, SliceBytes(data))] + Remaining()
      ensures ended ==> LinesLeft() < old(LinesLeft())
      ensures !ended ==> sc.rest == [] && (seen ==> 0 < old(LinesLeft()))
      ensures !ended ==>
        old(Remaining()) == (if seen && sc.readError.None? then [Event(name, SliceBytes(data))] else [])
    {
      ghost var failed := sc.readError.Some?;
      ghost var owed: seq<Event>, group: seq<Bytes>, left := Remaining(), [], Lines(sc.rest);
      AppendNil(left);
      name, data, seen, ended := [], None, false, false;

      while true
        invariant left == Lines(sc.rest)
        invariant NoBlank(group)
        invariant owed == Events(group + left, failed)
        invariant |group| + |left| <= old(LinesLeft())
        invariant Tracks(group, name, data, seen)
        decreases |sc.rest|
      {
        var more := sc.Scan();
        if !more {
          break;
        }
        var line := TrimCr(sc.line);
        ConsSlices(line, Lines(sc.rest), 0);
        left := Lines(sc.rest);

        if |line| == 0 {
          EndGroup(group, left, failed, name, data, seen);
          if seen {
            ended := true;
            return;
          }
          name := [];
          data := None;
          group := [];
          continue;
        }

        MoveLine(group, line, left);
        name, data, seen := ReadField(line, group, name, data, seen);
        group := group + [line];
      }
      LastGroup(group, failed, name, data, seen);
    }

    method Next() returns (ok: bool)
      requires Valid()
      modifies this, sc
      ensures Valid()
      ensures ok == (old(Remaining()) != [])
      ensures ok ==> ev == old(Remaining())[0] && Remaining() == old(Remaining())[1..]
      ensures ok ==> LinesLeft() < old(LinesLeft()) && err == None
      ensures !ok ==> done && Remaining() == [] && err == sc.readError && ev == old(ev)
    {
      if done {
        return false;
      }
      var name, data, seen, ended := ReadRecord();
      if ended {
        ev := Event(name, SliceBytes(data));
        return true;
      }

      done := true;
      if sc.readError.Some? {
        err := sc.readError;
        return false;
      }
      if seen {
        ev := Event(name, SliceBytes(data));
        return true;
      }
      return false;
    }
  }

  /** Iterating a reader to its end delivers every record it owes, and leaves the read error. */
  method Iterate(r: Reader) returns (events: seq<Event>)
    requires r.Valid()
    modifies r, r.sc
    ensures events == old(r.Remaining()) && r.err == r.sc.readError
  {
    events := [];
    ghost var owed := r.Remaining();
    AppendNil(owed);
    while true
      invariant r.Valid()
      invariant owed == events + r.Remaining()
      decreases |r.Remaining()|
    {
      ghost var before := r.Remaining();
      var ok := r.Next();
      if !ok {
        AppendNil(events);
        return;
      }
      Uncons(before);
      Assoc(events, [r.ev], r.Remaining());
      events := events + [r.ev];
    }
  }

  // ------------------------------------------------------------------
  // How the parser's variables follow the record specification
  // ------------------------------------------------------------------

  /** The data slice after the given data values: nil until the first value that is not empty. */
  function Payload(values: seq<Bytes>): Slice {
    var kept := DropLeadingEmpty(values);
    if kept == [] then None else Some(JoinLf(kept))
  }

  lemma {:induction false} DropLeadingEmptySnoc(values: seq<Bytes>, v: Bytes)
    ensures DropLeadingEmpty(values + [v]) ==
            if DropLeadingEmpty(values) == [] && v == [] then [] else DropLeadingEmpty(values) + [v]
  {
    if values == [] {
      assert values + [v] == [v];
      assert [v][1..] == [];
      assert [] + [v] == [v];
    } else if values[0] == [] {
      DropLeadingEmptySnoc(values[1..], v);
      assert (values + [v])[1..] == values[1..] + [v];
    }
  }

  lemma PayloadSnoc(values: seq<Bytes>, v: Bytes)
    ensures Payload(values + [v]) ==
            Append(if Payload(values).Some? then Append(Payload(values), [LF]) else None, v)
  {
    DropLeadingEmptySnoc(values, v);
    var kept := DropLeadingEmpty(values);
    assert (kept + [v])[..|kept + [v]| - 1] == kept;
  }

  /** What the parser's variables hold after the lines of the current group. */
  ghost predicate Tracks(group: seq<Bytes>, name: Bytes, data: Slice, seen: bool) {
    var fields := Fields(group);
    && name == LastName(fields)
    && data == Payload(DataValues(fields))
    && seen == (fields != [])
  }

  lemma TrackLine(group: seq<Bytes>, line: Bytes, name: Bytes, data: Slice, seen: bool)
    requires line != []
    requires Tracks(group, name, data, seen)
    ensures var f := FieldOf(line);
            match f
            case None => Tracks(group + [line], name, data, seen)
            case Some(NameField(v)) => Tracks(group + [line], v, data, true)
            case Some(DataField(v)) =>
              Tracks(group + [line], name, Append(if data.Some? then Append(data, [LF]) else None, v), true)
    ensures line[0] == COLON ==> FieldOf(line) == None
  {
    var wider := group + [line];
    assert wider[..|wider| - 1] == group;
    var f := FieldOf(line);
    if f.Some? {
      var fields := Fields(group) + [f.value];
      assert fields[..|fields| - 1] == Fields(group);
      if f.value.DataField? {
        PayloadSnoc(DataValues(Fields(group)), f.value.value);
      } else {
        assert DataValues(fields) == DataValues(Fields(group));
      }
    } else {
      assert Fields(wider) == Fields(group);
    }
    if line[0] == COLON {
      assert line[..0] == [];
    }
  }

  lemma FirstBlankIs(lines: seq<Bytes>, n: nat)
    requires n <= |lines|
    requires forall i :: 0 <= i < n ==> lines[i] != []
    requires n < |lines| ==> lines[n] == []
    ensures FirstBlank(lines) == n
  {
  }

  lemma MoveLine(group: seq<Bytes>, line: Bytes, rest: seq<Bytes>)
    requires NoBlank(group) && line != []
    ensures group + ([line] + rest) == group + [line] + rest
    ensures NoBlank(group + [line])
  {
  }

  ghost predicate NoBlank(group: seq<Bytes>) {
    forall i :: 0 <= i < |group| ==> group[i] != []
  }

  lemma EventsSplit(group: seq<Bytes>, rest: seq<Bytes>, failed: bool)
    requires NoBlank(group)
    ensures Events(group + ([[]] + rest), failed) == RecordOf(group) + Events(rest, failed)
  {
    var lines := group + ([[]] + rest);
    assert lines[..|group|] == group;
    FirstBlankIs(lines, |group|);
    assert lines[|group| + 1..] == rest;
  }

  lemma TrackedRecord(group: seq<Bytes>, name: Bytes, data: Slice, seen: bool)
    requires Tracks(group, name, data, seen)
    ensures RecordOf(group) == if seen then [Event(name, SliceBytes(data))] else []
  {
  }

  lemma EndGroup(group: seq<Bytes>, rest: seq<Bytes>, failed: bool, name: Bytes, data: Slice, seen: bool)
    requires NoBlank(group) && Tracks(group, name, data, seen)
    ensures Events(group + ([[]] + rest), failed) ==
            (if seen then [Event(name, SliceBytes(data))] else []) + Events(rest, failed)
    ensures !seen ==> Events(group + ([[]] + rest), failed) == Events([] + rest, failed)
    ensures Tracks([], [], None, false) && NoBlank([])
  {
    EventsSplit(group, rest, failed);
    TrackedRecord(group, name, data, seen);
    AppendNil(rest);
    AppendNil(Events(rest, failed));
  }

  lemma LastGroup(group: seq<Bytes>, failed: bool, name: Bytes, data: Slice, seen: bool)
    requires NoBlank(group) && Tracks(group, name, data, seen)
    ensures Events(group + [], failed) == if seen && !failed then [Event(name, SliceBytes(data))] else []
    ensures seen ==> group != []
  {
    TrackedRecord(group, name, data, seen);
    AppendNil(group);
    TakeAll(group);
    FirstBlankIs(group, |group|);
  }
}
