/** Base64 with the standard alphabet and padding: section 4 of RFC 4648. */
module Base64 {
  import opened Bytes
  import opened Seqs
  import opened Wrappers

  type Sextet = x: int | 0 <= x < 64

  const PAD: char := '='

  function Symbol(x: Sextet): char {
    if x < 26 then 'A' + x as char
    else if x < 52 then 'a' + (x - 26) as char
    else if x < 62 then '0' + (x - 52) as char
    else if x == 62 then '+' else '/'
  }

  function Value(c: char): Option<Sextet> {
    if 'A' <= c <= 'Z' then Some(c as int - 'A' as int)
    else if 'a' <= c <= 'z' then Some(c as int - 'a' as int + 26)
    else if '0' <= c <= '9' then Some(c as int - '0' as int + 52)
    else if c == '+' then Some(62)
    else if c == '/' then Some(63)
    else None
  }

  lemma ValueOfSymbol(x: Sextet)
    ensures Value(Symbol(x)) == Some(x)
    ensures Symbol(x) != PAD && !IsNewline(Symbol(x))
  {
  }

  function Sextet0(a: byte): Sextet {
    a as int / 4
  }

  function Sextet1(a: byte, b: byte): Sextet {
    a as int % 4 * 16 + b as int / 16
  }

  function Sextet2(b: byte, c: byte): Sextet {
    b as int % 16 * 4 + c as int / 64
  }

  function Sextet3(c: byte): Sextet {
    c as int % 64
  }

  /** Four symbols for three bytes. */
  function Quantum(a: byte, b: byte, c: byte): string {
    [Symbol(Sextet0(a)), Symbol(Sextet1(a, b)), Symbol(Sextet2(b, c)), Symbol(Sextet3(c))]
  }

  function Encode(data: Bytes): string {
    if data == [] then ""
    else if |data| == 1 then [Symbol(Sextet0(data[0])), Symbol(Sextet1(data[0], 0)), PAD, PAD]
    else if |data| == 2 then
      [Symbol(Sextet0(data[0])), Symbol(Sextet1(data[0], data[1])), Symbol(Sextet2(data[1], 0)), PAD]
    else Quantum(data[0], data[1], data[2]) + Encode(data[3..])
  }

  predicate IsNewline(c: char) {
    c == '\n' || c == '\r'
  }

  /** The decoder skips line breaks wherever they are. */
  function WithoutNewlines(s: string): string {
    if s == "" then "" else (if IsNewline(s[0]) then "" else [s[0]]) + WithoutNewlines(s[1..])
  }

  function Byte0(p: Sextet, q: Sextet): byte {
    (p * 4 + q / 16) as byte
  }

  function Byte1(q: Sextet, r: Sextet): byte {
    (q % 16 * 16 + r / 4) as byte
  }

  function Byte2(r: Sextet, t: Sextet): byte {
    (r % 4 * 64 + t) as byte
  }

  /** Quanta of four symbols; only the last may be padded, and its spare bits are not checked. */
  function DecodeQuanta(s: string): Option<Bytes> {
    if s == "" then Some([])
    else if |s| < 4 then None
    else
      match (Value(s[0]), Value(s[1]), Value(s[2]), Value(s[3]))
      case (Some(p), Some(q), Some(r), Some(t)) =>
        (match DecodeQuanta(s[4..])
         case Some(rest) => Some([Byte0(p, q), Byte1(q, r), Byte2(r, t)] + rest)
         case None => None)
      case (Some(p), Some(q), Some(r), None) =>
        if s[3] == PAD && |s| == 4 then Some([Byte0(p, q), Byte1(q, r)]) else None
      case (Some(p), Some(q), None, None) =>
        if s[2] == PAD && s[3] == PAD && |s| == 4 then Some([Byte0(p, q)]) else None
      case _ => None
  }

  function Decode(s: string): Option<Bytes> {
    DecodeQuanta(WithoutNewlines(s))
  }

  lemma {:induction false} EncodeHasNoNewline(data: Bytes)
    ensures forall i :: 0 <= i < |Encode(data)| ==> !IsNewline(Encode(data)[i])
  {
    if |data| >= 3 {
      EncodeHasNoNewline(data[3..]);
    }
  }

  lemma {:induction false} WithoutNewlinesId(s: string)
    requires forall i :: 0 <= i < |s| ==> !IsNewline(s[i])
    ensures WithoutNewlines(s) == s
  {
    if s != "" {
      WithoutNewlinesId(s[1..]);
      Uncons(s);
    }
  }

  lemma BytesOfSextets(a: byte, b: byte, c: byte)
    ensures Byte0(Sextet0(a), Sextet1(a, b)) == a
    ensures Byte1(Sextet1(a, b), Sextet2(b, c)) == b
    ensures Byte2(Sextet2(b, c), Sextet3(c)) == c
  {
  }

  lemma DecodeLastOne(a: byte)
    ensures DecodeQuanta(Encode([a])) == Some([a])
  {
    BytesOfSextets(a, 0, 0);
    TwoSymbols(Sextet0(a), Sextet1(a, 0));
  }

  lemma DecodeLastTwo(a: byte, b: byte)
    ensures DecodeQuanta(Encode([a, b])) == Some([a, b])
  {
    BytesOfSextets(a, b, 0);
    ThreeSymbols(Sextet0(a), Sextet1(a, b), Sextet2(b, 0));
  }

  lemma DecodeQuantum(a: byte, b: byte, c: byte, rest: string)
    requires DecodeQuanta(rest).Some?
    ensures DecodeQuanta(Quantum(a, b, c) + rest) == Some([a, b, c] + DecodeQuanta(rest).value)
  {
    BytesOfSextets(a, b, c);
    FourSymbols(Sextet0(a), Sextet1(a, b), Sextet2(b, c), Sextet3(c), rest);
  }

  lemma DecodeEncodeStep(data: Bytes)
    requires |data| >= 3 && DecodeQuanta(Encode(data[3..])) == Some(data[3..])
    ensures DecodeQuanta(Encode(data)) == Some(data)
  {
    FirstThree(data);
    DecodeQuantum(data[0], data[1], data[2], Encode(data[3..]));
  }

  lemma FirstThree(data: Bytes)
    requires |data| >= 3
    ensures data == [data[0], data[1], data[2]] + data[3..]
  {
  }

  lemma {:induction false} DecodeQuantaOfEncode(data: Bytes)
    ensures DecodeQuanta(Encode(data)) == Some(data)
  {
    if |data| >= 3 {
      DecodeQuantaOfEncode(data[3..]);
      DecodeEncodeStep(data);
    } else if |data| == 2 {
      DecodeLastTwo(data[0], data[1]);
      assert data == [data[0], data[1]];
    } else if |data| == 1 {
      DecodeLastOne(data[0]);
      assert data == [data[0]];
    }
  }

  lemma TwoSymbols(p: Sextet, q: Sextet)
    ensures DecodeQuanta([Symbol(p), Symbol(q), PAD, PAD]) == Some([Byte0(p, q)])
  {
    ValueOfSymbol(p);
    ValueOfSymbol(q);
  }

  lemma ThreeSymbols(p: Sextet, q: Sextet, r: Sextet)
    ensures DecodeQuanta([Symbol(p), Symbol(q), Symbol(r), PAD]) == Some([Byte0(p, q), Byte1(q, r)])
  {
    ValueOfSymbol(p);
    ValueOfSymbol(q);
    ValueOfSymbol(r);
  }

  lemma FourSymbols(p: Sextet, q: Sextet, r: Sextet, t: Sextet, rest: string)
    requires DecodeQuanta(rest).Some?
    ensures DecodeQuanta([Symbol(p), Symbol(q), Symbol(r), Symbol(t)] + rest) ==
            Some([Byte0(p, q), Byte1(q, r), Byte2(r, t)] + DecodeQuanta(rest).value)
  {
    ValueOfSymbol(p);
    ValueOfSymbol(q);
    ValueOfSymbol(r);
    ValueOfSymbol(t);
    var s := [Symbol(p), Symbol(q), Symbol(r), Symbol(t)] + rest;
    assert s[4..] == rest;
  }

  /** Decoding undoes encoding. */
  lemma DecodeEncode(data: Bytes)
    ensures Decode(Encode(data)) == Some(data)
    ensures Encode(data) == "" <==> data == []
  {
    EncodeHasNoNewline(data);
    WithoutNewlinesId(Encode(data));
    DecodeQuantaOfEncode(data);
  }

  predicate OnlyNewlines(s: string) {
    forall i :: 0 <= i < |s| ==> IsNewline(s[i])
  }

  lemma {:induction false} WithoutNewlinesEmpty(s: string)
    ensures WithoutNewlines(s) == "" <==> OnlyNewlines(s)
  {
    if s != "" {
      WithoutNewlinesEmpty(s[1..]);
      Uncons(s);
    }
  }

  /** A string decodes to nothing exactly when it holds line breaks only. */
  lemma DecodesToNothingIff(s: string)
    ensures Decode(s) == Some([]) <==> OnlyNewlines(s)
  {
    WithoutNewlinesEmpty(s);
  }

  /** Whole quanta of the alphabet, but for that many pads at the very end. */
  predicate WellPadded(s: string, pads: nat) {
    && |s| % 4 == 0 && pads <= 2 && pads <= |s|
    && (forall i :: 0 <= i < |s| - pads ==> Value(s[i]).Some?)
    && (forall i :: |s| - pads <= i < |s| ==> s[i] == PAD)
  }

  lemma PaddedTail(s: string, pads: nat)
    requires |s| > 4
    ensures WellPadded(s, pads) <==> (forall i :: 0 <= i < 4 ==> Value(s[i]).Some?) && WellPadded(s[4..], pads)
  {
    var tail := s[4..];
    assert forall i :: 0 <= i < |tail| ==> tail[i] == s[i + 4];
    if WellPadded(tail, pads) && forall i :: 0 <= i < 4 ==> Value(s[i]).Some? {
      forall i | 0 <= i < |s| - pads ensures Value(s[i]).Some? {
        if i >= 4 {
          assert tail[i - 4] == s[i];
        }
      }
      forall i | |s| - pads <= i < |s| ensures s[i] == PAD {
        assert tail[i - 4] == s[i];
      }
    }
  }

  lemma OneQuantum(s: string, pads: nat)
    requires |s| <= 4
    ensures WellPadded(s, pads) ==> DecodeQuanta(s).Some? && |DecodeQuanta(s).value| == |s| / 4 * 3 - pads
    ensures DecodeQuanta(s).Some? ==>
              |DecodeQuanta(s).value| <= |s| / 4 * 3 && WellPadded(s, |s| / 4 * 3 - |DecodeQuanta(s).value|)
  {
    if |s| == 4 {
      assert s[4..] == "";
    }
  }

  lemma {:induction false} PaddedDecodes(s: string, pads: nat)
    requires WellPadded(s, pads)
    ensures DecodeQuanta(s).Some? && |DecodeQuanta(s).value| == |s| / 4 * 3 - pads
    decreases |s|
  {
    if |s| <= 4 {
      OneQuantum(s, pads);
    } else {
      PaddedTail(s, pads);
      PaddedDecodes(s[4..], pads);
    }
  }

  lemma {:induction false} DecodedIsPadded(s: string) returns (pads: nat)
    requires DecodeQuanta(s).Some?
    ensures WellPadded(s, pads)
    decreases |s|
  {
    if |s| <= 4 {
      OneQuantum(s, 0);
      pads := |s| / 4 * 3 - |DecodeQuanta(s).value|;
    } else {
      pads := DecodedIsPadded(s[4..]);
      PaddedTail(s, pads);
    }
  }

  ghost predicate Padded(s: string) {
    exists pads: nat :: WellPadded(s, pads)
  }

  /** A string decodes exactly when, line breaks aside, it is whole quanta with at most two pads at the very end. */
  lemma DecodesIff(s: string)
    ensures Decode(s).Some? <==> Padded(WithoutNewlines(s))
  {
    var symbols := WithoutNewlines(s);
    if Padded(symbols) {
      var pads: nat :| WellPadded(symbols, pads);
      PaddedDecodes(symbols, pads);
    }
    if Decode(s).Some? {
      var pads := DecodedIsPadded(symbols);
    }
  }

  /** Four symbols give three bytes, and a pad is a byte less. */
  lemma DecodedLength(s: string, pads: nat)
    requires WellPadded(WithoutNewlines(s), pads)
    ensures Decode(s).Some? && |Decode(s).value| == |WithoutNewlines(s)| / 4 * 3 - pads
  {
    PaddedDecodes(WithoutNewlines(s), pads);
  }

  /** The test vectors of section 10 of RFC 4648. */
  lemma TestVectors()
    ensures Encode([102]) == "Zg==" && Encode([102, 111]) == "Zm8=" && Encode([102, 111, 111]) == "Zm9v"
    ensures Encode([102, 111, 111, 98, 97, 114]) == "Zm9vYmFy"
    ensures Encode([251, 255]) == "+/8="
  {
    var six: Bytes := [102, 111, 111, 98, 97, 114];
    assert six[3..] == [98, 97, 114];
    assert six[3..][3..] == [];
    assert Encode(six[3..]) == "YmFy" + Encode([]);
    assert [102 as byte, 111, 111][3..] == [];
  }
}
