/** The normalization candidate memories are compared by
    (src-tauri/src/candidate_memory_internal/normalization.rs). */
module Normalization {
  import opened Common

  type Word = string

  /** Of the characters the table lists, only the micro sign maps to another one; every other row,
      like every character not listed, maps to itself. */
  function NfkcMap(c: char): char
  {
    if c == '\U{00B5}' then '\U{03BC}' else c
  }

  /** The one entry of the table that changes its character, and all the others. */
  lemma TableExactly(c: char)
    ensures NfkcMap('\U{00B5}') == '\U{03BC}'
    ensures c != '\U{00B5}' ==> NfkcMap(c) == c
  {
  }

  function Mapped(s: string): (r: string)
    ensures |r| == |s| && forall i :: 0 <= i < |s| ==> r[i] == NfkcMap(s[i])
  {
    seq(|s|, i requires 0 <= i < |s| => NfkcMap(s[i]))
  }

  /** The length of the run of characters up to the first whitespace. */
  function RunLength(s: string): (n: nat)
    ensures n <= |s| && (forall i :: 0 <= i < n ==> !Whitespace(s[i]))
    ensures n < |s| ==> Whitespace(s[n])
  {
    if s == [] || Whitespace(s[0]) then 0 else 1 + RunLength(s[1..])
  }

  /** `split_whitespace`. */
  function Words(s: string): seq<Word>
    decreases |s|
  {
    if s == [] then []
    else if Whitespace(s[0]) then Words(s[1..])
    else [s[..RunLength(s)]] + Words(s[RunLength(s)..])
  }

  /** `join(" ")`. */
  function Join(words: seq<Word>): string
  {
    if words == [] then []
    else if |words| == 1 then words[0]
    else words[0] + " " + Join(words[1..])
  }

  function TrimStart(s: string): string
  {
    if s != [] && Whitespace(s[0]) then TrimStart(s[1..]) else s
  }

  function TrimEnd(s: string): string
  {
    if s != [] && Whitespace(s[|s| - 1]) then TrimEnd(s[..|s| - 1]) else s
  }

  function Normalize(input: string): string
  {
    TrimEnd(TrimStart(Join(Words(Mapped(input)))))
  }

  // ---- Words --------------------------------------------------------------------------------------

  predicate IsWord(w: Word) {
    w != [] && forall i :: 0 <= i < |w| ==> !Whitespace(w[i])
  }

  predicate AreWords(words: seq<Word>) {
    forall i :: 0 <= i < |words| ==> IsWord(words[i])
  }

  lemma {:induction false} WordsAreWords(s: string)
    ensures AreWords(Words(s))
    decreases |s|
  {
    if s != [] {
      if Whitespace(s[0]) {
        WordsAreWords(s[1..]);
      } else {
        WordsAreWords(s[RunLength(s)..]);
      }
    }
  }

  lemma {:induction false} RunOfWord(w: Word, rest: string)
    requires IsWord(w) && (rest == [] || Whitespace(rest[0]))
    ensures RunLength(w + rest) == |w|
  {
    assert (w + rest)[0] == w[0];
    if |w| == 1 {
      assert (w + rest)[1..] == rest;
    } else {
      assert (w + rest)[1..] == w[1..] + rest;
      RunOfWord(w[1..], rest);
    }
  }

  /** Splitting, completely: whitespace in front is skipped, a word ends at the first whitespace, and
      the last word at the end.  Joining puts one space between words. */
  lemma WordsExactly(w: Word, space: char, rest: string, words: seq<Word>)
    requires IsWord(w) && Whitespace(space)
    ensures Words("") == [] && Words(w) == [w]
    ensures Words([space] + rest) == Words(rest)
    ensures Words(w + ([space] + rest)) == [w] + Words(rest)
    ensures Join([]) == "" && Join([w]) == w && (words != [] ==> Join([w] + words) == w + " " + Join(words))
  {
    assert ([space] + rest)[1..] == rest;
    assert w + "" == w && [w] + Words("") == [w];
    WordFirst(w, "");
    WordFirst(w, [space] + rest);
    assert ([w] + words)[1..] == words;
  }

  lemma WordFirst(w: Word, rest: string)
    requires IsWord(w) && (rest == [] || Whitespace(rest[0]))
    ensures Words(w + rest) == [w] + Words(rest)
  {
    RunOfWord(w, rest);
    assert (w + rest)[0] == w[0] && (w + rest)[..|w|] == w && (w + rest)[|w|..] == rest;
  }

  lemma {:induction false} WordsOfJoin(words: seq<Word>)
    requires AreWords(words)
    ensures Words(Join(words)) == words
  {
    if |words| == 1 {
      WordFirst(words[0], []);
      assert words[0] + [] == words[0];
    } else if |words| > 1 {
      var rest := " " + Join(words[1..]);
      assert rest[1..] == Join(words[1..]);
      WordFirst(words[0], rest);
      assert words[0] + rest == Join(words);
      WordsOfJoin(words[1..]);
    }
  }

  // ---- Trimming is a no-op --------------------------------------------------------------------------

  lemma {:induction false} JoinEnds(words: seq<Word>)
    requires AreWords(words) && words != []
    ensures var s := Join(words); s != [] && !Whitespace(s[0]) && !Whitespace(s[|s| - 1])
  {
    if |words| > 1 {
      JoinEnds(words[1..]);
      var s, tail := Join(words), Join(words[1..]);
      assert s == (words[0] + " ") + tail;
      assert s[0] == words[0][0] && s[|s| - 1] == tail[|tail| - 1];
    }
  }

  /** The final trim changes nothing. */
  lemma TrimIsNoOp(input: string)
    ensures Normalize(input) == Join(Words(Mapped(input)))
  {
    var words := Words(Mapped(input));
    WordsAreWords(Mapped(input));
    if words != [] {
      JoinEnds(words);
    }
  }

  // ---- Main results ---------------------------------------------------------------------------------

  function MappedWords(words: seq<Word>): (r: seq<Word>)
    ensures |r| == |words| && forall i :: 0 <= i < |words| ==> r[i] == Mapped(words[i])
  {
    seq(|words|, i requires 0 <= i < |words| => Mapped(words[i]))
  }

  lemma {:induction false} RunOfMapped(s: string)
    ensures RunLength(Mapped(s)) == RunLength(s)
  {
    if s != [] && !Whitespace(s[0]) {
      assert Mapped(s)[1..] == Mapped(s[1..]);
      RunOfMapped(s[1..]);
    }
  }

  /** Mapping neither makes nor removes whitespace, so it maps the words one by one. */
  lemma {:induction false} WordsOfMapped(s: string)
    ensures Words(Mapped(s)) == MappedWords(Words(s))
    decreases |s|
  {
    if s != [] {
      if Whitespace(s[0]) {
        assert Mapped(s)[1..] == Mapped(s[1..]);
        WordsOfMapped(s[1..]);
      } else {
        var n := RunLength(s);
        RunOfMapped(s);
        assert Mapped(s)[..n] == Mapped(s[..n]) && Mapped(s)[n..] == Mapped(s[n..]);
        WordsOfMapped(s[n..]);
        assert MappedWords([s[..n]] + Words(s[n..])) == [Mapped(s[..n])] + MappedWords(Words(s[n..]));
      }
    }
  }

  /** Main result: the words of the result are the mapped words of the input. */
  lemma WordsOfNormalized(input: string)
    ensures Words(Normalize(input)) == MappedWords(Words(input))
  {
    TrimIsNoOp(input);
    WordsAreWords(Mapped(input));
    WordsOfJoin(Words(Mapped(input)));
    WordsOfMapped(input);
  }

  /** Main result: normalization identifies two inputs exactly when their mapped words agree. */
  lemma {:induction false} NormalizeIdentifies(a: string, b: string)
    ensures Normalize(a) == Normalize(b) <==> MappedWords(Words(a)) == MappedWords(Words(b))
  {
    WordsOfNormalized(a);
    WordsOfNormalized(b);
    TrimIsNoOp(a);
    TrimIsNoOp(b);
    WordsOfMapped(a);
    WordsOfMapped(b);
  }

  lemma MappedTwice(words: seq<Word>)
    ensures MappedWords(MappedWords(words)) == MappedWords(words)
  {
    forall i | 0 <= i < |words| ensures Mapped(Mapped(words[i])) == Mapped(words[i]) {
    }
  }

  /** Main result: normalizing twice changes nothing. */
  lemma NormalizeTwice(input: string)
    ensures Normalize(Normalize(input)) == Normalize(input)
  {
    WordsOfNormalized(input);
    MappedTwice(Words(input));
    NormalizeIdentifies(Normalize(input), input);
  }

  // ---- The canonical form, described directly -----------------------------------------------------------

  /** No micro sign, single spaces as the only whitespace, and none at the ends. */
  predicate Canonical(s: string) {
    && (forall i :: 0 <= i < |s| ==> NfkcMap(s[i]) == s[i] && (Whitespace(s[i]) ==> s[i] == ' '))
    && (forall i :: 0 <= i < |s| - 1 ==> !(Whitespace(s[i]) && Whitespace(s[i + 1])))
    && (s != [] ==> !Whitespace(s[0]) && !Whitespace(s[|s| - 1]))
  }

  /** Canonical text after its first word and the space behind it. */
  lemma RestIsCanonical(s: string)
    requires Canonical(s) && s != [] && RunLength(s) < |s|
    ensures var n := RunLength(s);
            n + 1 < |s| && s[n] == ' ' && Canonical(s[n + 1..]) && !Whitespace(s[n + 1])
  {
    var n := RunLength(s);
    var rest := s[n + 1..];
    assert forall i :: 0 <= i < |rest| ==> rest[i] == s[n + 1 + i];
  }

  lemma {:induction false} JoinWords(s: string)
    requires Canonical(s)
    ensures Join(Words(s)) == s
    decreases |s|
  {
    if s != [] {
      var n := RunLength(s);
      if n == |s| {
        assert s[..n] == s && s[n..] == [];
      } else {
        RestIsCanonical(s);
        var rest := s[n + 1..];
        JoinWords(rest);
        FirstAndRest(s);
      }
    }
  }

  lemma {:induction false} FirstAndRest(s: string)
    requires s != [] && !Whitespace(s[0]) && RunLength(s) + 1 < |s|
    requires var n := RunLength(s); s[n] == ' ' && !Whitespace(s[n + 1]) && Join(Words(s[n + 1..])) == s[n + 1..]
    ensures Join(Words(s)) == s
  {
    hide Words, Join;
    var n := RunLength(s);
    var w, rest := s[..n], s[n + 1..];
    assert s == w + (" " + rest);
    WordFirst(w, " " + rest);
    SpaceFirst(rest);
    JoinMore(w, Words(rest));
  }

  lemma SpaceFirst(rest: string)
    requires rest != [] && !Whitespace(rest[0])
    ensures Words(" " + rest) == Words(rest) != []
  {
    assert (" " + rest)[1..] == rest;
  }

  lemma JoinMore(w: Word, words: seq<Word>)
    requires words != []
    ensures Join([w] + words) == w + (" " + Join(words))
  {
    assert ([w] + words)[1..] == words;
  }

  lemma {:induction false} JoinIsCanonical(words: seq<Word>)
    requires AreWords(words) && MappedWords(words) == words
    ensures Canonical(Join(words))
  {
    if words != [] {
      var w := words[0];
      JoinEnds(words);
      forall i | 0 <= i < |w| ensures NfkcMap(w[i]) == w[i] && !Whitespace(w[i]) {
        assert Mapped(w) == MappedWords(words)[0];
      }
      if |words| > 1 {
        var tail := Join(words[1..]);
        assert MappedWords(words[1..]) == words[1..];
        JoinIsCanonical(words[1..]);
        JoinEnds(words[1..]);
        var s := w + " " + tail;
        assert forall i :: 0 <= i < |s| ==>
          s[i] == if i < |w| then w[i] else if i == |w| then ' ' else tail[i - |w| - 1];
      }
    }
  }

  /** Main result: the fixed points of normalization are exactly the canonical texts. */
  lemma FixedExactlyWhenCanonical(s: string)
    ensures Normalize(s) == s <==> Canonical(s)
  {
    TrimIsNoOp(s);
    WordsOfMapped(s);
    WordsAreWords(s);
    WordsAreWords(Mapped(s));
    if Canonical(s) {
      assert Mapped(s) == s;
      JoinWords(s);
    }
    if Normalize(s) == s {
      WordsOfNormalized(s);
      JoinIsCanonical(Words(s));
    }
  }
}
