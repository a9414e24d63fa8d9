/** The sandbox's reply generator: word splitting, truncation and streaming fragments. */
module Sandbox {
  import opened Seqs

  // ------------------------------------------------------------------
  // Words
  // ------------------------------------------------------------------

  /** The white space of the Unicode standard. */
  predicate IsSpace(c: char) {
    || '\t' <= c <= '\r'
    || c == ' ' || c == '\U{85}' || c == '\U{A0}' || c == '\U{1680}'
    || '\U{2000}' <= c <= '\U{200A}'
    || c == '\U{2028}' || c == '\U{2029}' || c == '\U{202F}' || c == '\U{205F}' || c == '\U{3000}'
  }

  function WordEnd(s: string): (n: nat)
    ensures n <= |s|
    ensures forall i :: 0 <= i < n ==> !IsSpace(s[i])
    ensures n < |s| ==> IsSpace(s[n])
  {
    if s == "" || IsSpace(s[0]) then 0 else 1 + WordEnd(s[1..])
  }

  /** The maximal runs without white space. */
  function Words(s: string): seq<string>
    decreases |s|
  {
    if s == "" then []
    else if IsSpace(s[0]) then Words(s[1..])
    else [s[..WordEnd(s)]] + Words(s[WordEnd(s)..])
  }

  function JoinWords(words: seq<string>): string {
    if words == [] then ""
    else if |words| == 1 then words[0]
    else words[0] + " " + JoinWords(words[1..])
  }

  /** The text with every run of white space collapsed to one space and the ends trimmed. */
  function Collapsed(s: string): string {
    JoinWords(Words(s))
  }

  function CountTokens(s: string): nat {
    if |Words(s)| == 0 then 1 else |Words(s)|
  }

  /** The reply cut to a number of words, and whether anything was cut. */
  function Truncate(answer: string, maxTokens: int): (string, bool) {
    if maxTokens <= 0 || |Words(answer)| <= maxTokens then (answer, false)
    else (JoinWords(Words(answer)[..maxTokens]), true)
  }

  // ------------------------------------------------------------------
  // Fragments
  // ------------------------------------------------------------------

  const MAX_CHUNK_RUNES := 7

  function Concat<T>(pieces: seq<seq<T>>): seq<T> {
    if pieces == [] then [] else Concat(pieces[..|pieces| - 1]) + pieces[|pieces| - 1]
  }

  /** A word cut into fragments of at most seven runes. */
  function Cut(w: string): seq<string>
    decreases |w|
  {
    if |w| <= MAX_CHUNK_RUNES then [w] else [w[..MAX_CHUNK_RUNES]] + Cut(w[MAX_CHUNK_RUNES..])
  }

  /** The fragments of the first n words; every word but the last keeps a trailing space. */
  function CutWords(words: seq<string>, n: nat): seq<string>
    requires n <= |words|
  {
    if n == 0 then []
    else CutWords(words, n - 1) + Cut(if n < |words| then words[n - 1] + " " else words[n - 1])
  }

  /** The streaming fragments of a reply. */
  function Chunks(s: string): seq<string> {
    CutWords(Words(s), |Words(s)|)
  }

  method Chunk(s: string) returns (out: seq<string>)
    ensures out == Chunks(s)
  {
    var words := Words(s);
    if |words| == 0 {
      return [];
    }
    out := [];
    for i := 0 to |words|
      invariant out == CutWords(words, i)
    {
      var w := words[i];
      if i < |words| - 1 {
        w := w + " ";
      }
      ghost var before, whole := out, w;
      var r := w;
      while |r| > MAX_CHUNK_RUNES
        invariant out + Cut(r) == before + Cut(whole)
        decreases |r|
      {
        Assoc(out, [r[..MAX_CHUNK_RUNES]], Cut(r[MAX_CHUNK_RUNES..]));
        out := out + [r[..MAX_CHUNK_RUNES]];
        r := r[MAX_CHUNK_RUNES..];
      }
      out := out + [r];
    }
  }

  /** Tool-call arguments, in whatever units, in three fragments, or one when they are too short. */
  function ArgumentChunks<T>(a: seq<T>): seq<seq<T>> {
    var size := |a| / 3;
    if |a| < 3 then [a] else [a[..size], a[size..2 * size], a[2 * size..]]
  }

  method ArgChunks<T>(a: seq<T>) returns (out: seq<seq<T>>)
    ensures out == ArgumentChunks(a)
  {
    if |a| < 3 {
      return [a];
    }
    var size := |a| / 3;
    out := [];
    for i := 0 to 3
      invariant |out| == i
      invariant i > 0 ==> out[0] == a[..size]
      invariant i > 1 ==> out[1] == a[size..2 * size]
      invariant i > 2 ==> out[2] == a[2 * size..]
    {
      var start := i * size;
      var end := if i == 2 then |a| else start + size;
      out := out + [a[start..end]];
    }
  }

  lemma {:induction false} ConcatAppend<T>(a: seq<seq<T>>, b: seq<seq<T>>)
    ensures Concat(a + b) == Concat(a) + Concat(b)
    decreases |b|
  {
    if b == [] {
      AppendNil(a);
    } else {
      var front, last := b[..|b| - 1], b[|b| - 1];
      ConcatAppend(a, front);
      FrontLast(b);
      Assoc(a, front, [last]);
      Snoc(a + front, last);
      Assoc(Concat(a), Concat(front), last);
    }
  }

  lemma ConcatOne<T>(w: seq<T>)
    ensures Concat([w]) == w
  {
    assert [w][..0] == [];
  }

  lemma {:induction false} ConcatCut(w: string)
    ensures Concat(Cut(w)) == w
    ensures w != "" ==> Small(Cut(w))
    decreases |w|
  {
    if |w| <= MAX_CHUNK_RUNES {
      ConcatOne(w);
    } else {
      var head, tail := w[..MAX_CHUNK_RUNES], w[MAX_CHUNK_RUNES..];
      ConcatCut(tail);
      ConcatAppend([head], Cut(tail));
      ConcatOne(head);
    }
  }

  /** The words joined so far, each followed by a space unless it is the last of all. */
  function Spaced(words: seq<string>, n: nat): string
    requires n <= |words|
  {
    if n == 0 then "" else Spaced(words, n - 1) + (if n < |words| then words[n - 1] + " " else words[n - 1])
  }

  lemma {:induction false} CutWordsConcat(words: seq<string>, n: nat)
    requires n <= |words|
    ensures Concat(CutWords(words, n)) == Spaced(words, n)
  {
    if n > 0 {
      var w := if n < |words| then words[n - 1] + " " else words[n - 1];
      CutWordsConcat(words, n - 1);
      ConcatCut(w);
      ConcatAppend(CutWords(words, n - 1), Cut(w));
    }
  }

  predicate Small(pieces: seq<string>) {
    forall i :: 0 <= i < |pieces| ==> 0 < |pieces[i]| <= MAX_CHUNK_RUNES
  }

  lemma {:induction false} CutWordsSmall(words: seq<string>, n: nat)
    requires n <= |words|
    requires forall i :: 0 <= i < |words| ==> IsWord(words[i])
    ensures Small(CutWords(words, n))
  {
    if n > 0 {
      CutWordsSmall(words, n - 1);
      assert IsWord(words[n - 1]);
      ConcatCut(if n < |words| then words[n - 1] + " " else words[n - 1]);
    }
  }

  lemma {:induction false} SpacedShift(words: seq<string>, n: nat)
    requires 0 < n <= |words| && |words| > 1
    ensures Spaced(words, n) == words[0] + " " + Spaced(words[1..], n - 1)
  {
    if n > 1 {
      SpacedShift(words, n - 1);
    }
  }

  lemma {:induction false} SpacedIsJoin(words: seq<string>)
    ensures Spaced(words, |words|) == JoinWords(words)
  {
    if |words| > 1 {
      SpacedIsJoin(words[1..]);
      SpacedShift(words, |words|);
    }
  }

  predicate IsWord(w: string) {
    w != "" && forall i :: 0 <= i < |w| ==> !IsSpace(w[i])
  }

  lemma {:induction false} WordsAreWords(s: string)
    ensures forall i :: 0 <= i < |Words(s)| ==> IsWord(Words(s)[i])
    decreases |s|
  {
    if s != "" {
      if IsSpace(s[0]) {
        WordsAreWords(s[1..]);
      } else {
        WordsAreWords(s[WordEnd(s)..]);
      }
    }
  }

  /** The fragments of a reply concatenate to its collapsed text, none empty or over seven runes. */
  lemma ChunksConcat(s: string)
    ensures Concat(Chunks(s)) == Collapsed(s)
    ensures Small(Chunks(s))
  {
    WordsAreWords(s);
    CutWordsSmall(Words(s), |Words(s)|);
    CutWordsConcat(Words(s), |Words(s)|);
    SpacedIsJoin(Words(s));
  }

  lemma ArgumentChunksConcat<T>(a: seq<T>)
    ensures Concat(ArgumentChunks(a)) == a
    ensures ArgumentChunks(a) != []
  {
    var size := |a| / 3;
    if |a| < 3 {
      ConcatOne(a);
    } else {
      var (x, y, z) := (a[..size], a[size..2 * size], a[2 * size..]);
      ConcatThree(x, y, z);
      CutInThree(a, size, 2 * size);
    }
  }

  lemma ConcatThree<T>(x: seq<T>, y: seq<T>, z: seq<T>)
    ensures Concat([x, y, z]) == x + y + z
  {
    ConcatOne(x);
    ConcatAppend([x], [y]);
    ConcatOne(y);
    ConcatAppend([x, y], [z]);
    ConcatOne(z);
    assert [x, y, z] == [x, y] + [z];
    assert [x, y] == [x] + [y];
  }

  lemma CutInThree<T>(a: seq<T>, i: nat, j: nat)
    requires i <= j <= |a|
    ensures a[..i] + a[i..j] + a[j..] == a
  {
  }

  // ------------------------------------------------------------------
  // Collapsing
  // ------------------------------------------------------------------

  lemma WordEndIs(s: string, n: nat)
    requires n <= |s|
    requires forall i :: 0 <= i < n ==> !IsSpace(s[i])
    requires n < |s| ==> IsSpace(s[n])
    ensures WordEnd(s) == n
  {
  }

  lemma WordEndAt(w: string, rest: string)
    requires IsWord(w)
    requires rest == "" || IsSpace(rest[0])
    ensures Words(w + rest) == [w] + Words(rest)
  {
    var s := w + rest;
    assert s[0] == w[0];
    assert forall i :: 0 <= i < |w| ==> s[i] == w[i];
    WordEndIs(s, |w|);
    assert s[..|w|] == w && s[|w|..] == rest;
  }

  lemma {:induction false} WordsOfJoin(words: seq<string>)
    requires forall i :: 0 <= i < |words| ==> IsWord(words[i])
    ensures Words(JoinWords(words)) == words
  {
    if |words| == 1 {
      AppendNil(words[0]);
      WordEndAt(words[0], "");
      assert words == [words[0]];
    } else if |words| > 1 {
      var rest := JoinWords(words[1..]);
      WordsOfJoin(words[1..]);
      WordEndAt(words[0], " " + rest);
      Assoc(words[0], " ", rest);
      assert (" " + rest)[1..] == rest;
      Uncons(words);
    }
  }

  /** Collapsing keeps the words, so it is idempotent. */
  lemma CollapsedKeepsWords(s: string)
    ensures Words(Collapsed(s)) == Words(s)
    ensures Collapsed(Collapsed(s)) == Collapsed(s)
    ensures CountTokens(Collapsed(s)) == CountTokens(s)
  {
    WordsAreWords(s);
    WordsOfJoin(Words(s));
  }

  /** Single spaces only, and only between words. */
  predicate SingleSpaced(s: string) {
    && (forall i :: 0 <= i < |s| && IsSpace(s[i]) ==> s[i] == ' ' && 0 < i < |s| - 1)
    && (forall i :: 0 <= i < |s| - 1 ==> !(IsSpace(s[i]) && IsSpace(s[i + 1])))
  }

  lemma {:induction false} JoinIsSingleSpaced(words: seq<string>)
    requires forall i :: 0 <= i < |words| ==> IsWord(words[i])
    ensures SingleSpaced(JoinWords(words))
    ensures words != [] ==> JoinWords(words) != "" && !IsSpace(JoinWords(words)[0])
  {
    if |words| > 1 {
      var w, rest := words[0], JoinWords(words[1..]);
      JoinIsSingleSpaced(words[1..]);
      var s := w + " " + rest;
      assert forall i :: 0 <= i < |w| ==> s[i] == w[i];
      assert forall i :: 0 <= i < |rest| ==> s[|w| + 1 + i] == rest[i];
      assert s[|w|] == ' ';
      forall i | 0 <= i < |s| && IsSpace(s[i]) ensures s[i] == ' ' && 0 < i < |s| - 1 {
        if i > |w| {
          assert s[i] == rest[i - |w| - 1];
        }
      }
      forall i | 0 <= i < |s| - 1 ensures !(IsSpace(s[i]) && IsSpace(s[i + 1])) {
        if i > |w| {
          assert s[i] == rest[i - |w| - 1] && s[i + 1] == rest[i - |w|];
        } else if i == |w| {
          assert s[i + 1] == rest[0];
        }
      }
    }
  }

  lemma {:induction false} SingleSpacedIsCollapsed(s: string)
    requires SingleSpaced(s)
    ensures Collapsed(s) == s
    decreases |s|
  {
    if s != "" {
      var n := WordEnd(s);
      assert !IsSpace(s[0]);
      if n == |s| {
        OneWord(s);
      } else {
        FirstSpace(s, n);
        SingleSpacedIsCollapsed(s[n + 1..]);
        WordThenRest(s, n);
        JoinCons(s[..n], Words(s[n + 1..]));
      }
    }
  }

  lemma OneWord(s: string)
    requires s != "" && WordEnd(s) == |s|
    ensures Collapsed(s) == s
  {
    assert s[..|s|] == s && s[|s|..] == "";
    assert Words(s) == [s] + [];
  }

  /** What a single space leaves: a rest that starts with a word and is single spaced again. */
  lemma FirstSpace(s: string, n: nat)
    requires SingleSpaced(s) && n < |s| && IsSpace(s[n])
    ensures n + 1 < |s| && !IsSpace(s[n + 1]) && SingleSpaced(s[n + 1..])
    ensures s == s[..n] + " " + s[n + 1..]
  {
    var tail := s[n + 1..];
    assert forall i :: 0 <= i < |tail| ==> tail[i] == s[n + 1 + i];
  }

  lemma WordThenRest(s: string, n: nat)
    requires n == WordEnd(s) && 0 < n && n + 1 < |s| && !IsSpace(s[n + 1])
    ensures Words(s) == [s[..n]] + Words(s[n + 1..]) && Words(s[n + 1..]) != []
  {
    assert s[n..][1..] == s[n + 1..];
  }

  lemma JoinCons(w: string, words: seq<string>)
    requires words != []
    ensures JoinWords([w] + words) == w + " " + JoinWords(words)
  {
    assert ([w] + words)[1..] == words;
  }

  /** The streamed text is exactly the whole reply when, and only when, that is single spaced. */
  lemma CollapsedIsIdentityIff(s: string)
    ensures Collapsed(s) == s <==> SingleSpaced(s)
  {
    WordsAreWords(s);
    JoinIsSingleSpaced(Words(s));
    if SingleSpaced(s) {
      SingleSpacedIsCollapsed(s);
    }
  }

  /** A reply with two spaces in a row is not streamed as it is. */
  lemma DoubleSpaceIsLost()
    ensures Concat(Chunks("a  b")) != "a  b"
  {
    var s := "a  b";
    ChunksConcat(s);
    CollapsedIsIdentityIff(s);
    assert IsSpace(s[1]) && IsSpace(s[1 + 1]);
  }

  /** Truncation reports itself exactly when words were dropped, and keeps a prefix of the words. */
  lemma TruncateKeepsPrefix(answer: string, maxTokens: int)
    ensures var (cut, truncated) := Truncate(answer, maxTokens);
            && (truncated <==> 0 < maxTokens < |Words(answer)|)
            && (if truncated then Words(cut) == Words(answer)[..maxTokens] && SingleSpaced(cut) else cut == answer)
  {
    if 0 < maxTokens < |Words(answer)| {
      WordsAreWords(answer);
      WordsOfJoin(Words(answer)[..maxTokens]);
      JoinIsSingleSpaced(Words(answer)[..maxTokens]);
    }
  }

  /** How many words begin in a text, given whether white space comes before it. */
  function WordStarts(s: string, spaceBefore: bool): nat {
    if s == "" then 0
    else (if spaceBefore && !IsSpace(s[0]) then 1 else 0) + WordStarts(s[1..], IsSpace(s[0]))
  }

  lemma {:induction false} InsideWord(s: string)
    ensures WordStarts(s, false) == WordStarts(s[WordEnd(s)..], true)
    decreases |s|
  {
    if s != "" && !IsSpace(s[0]) {
      InsideWord(s[1..]);
      assert s[1..][WordEnd(s[1..])..] == s[WordEnd(s)..];
    }
  }

  lemma {:induction false} WordsAreStarts(s: string)
    ensures |Words(s)| == WordStarts(s, true)
    decreases |s|
  {
    if s != "" {
      if IsSpace(s[0]) {
        WordsAreStarts(s[1..]);
      } else {
        var n := WordEnd(s);
        WordsAreStarts(s[n..]);
        InsideWord(s[1..]);
        assert s[1..][WordEnd(s[1..])..] == s[n..];
      }
    }
  }

  /** A text counts one token for each place where a word begins, and an empty one still counts one. */
  lemma TokensAreWordStarts(s: string)
    ensures CountTokens(s) == if WordStarts(s, true) == 0 then 1 else WordStarts(s, true)
  {
    WordsAreStarts(s);
  }
}
