/** The word-count workload: a generator of synthetic text and the one-pass counter
    that finds its most frequent word. */
module WordCount {
  import Lcg

  // ------------------------------------------------------------------- words

  /** Where the first space is, or the length of the text. */
  function WordLength(text: string): (n: nat)
    ensures n <= |text|
    ensures ' ' !in text[..n]
    ensures n < |text| ==> text[n] == ' '
  {
    if text == "" || text[0] == ' ' then 0 else 1 + WordLength(text[1..])
  }

  /** The maximal space-free words of a text, in order. */
  function Words(text: string): seq<string>
    decreases |text|
  {
    if text == "" then []
    else if text[0] == ' ' then Words(text[1..])
    else [text[..WordLength(text)]] + Words(text[WordLength(text)..])
  }

  predicate IsWord(w: string) {
    w != "" && ' ' !in w
  }

  /** How the generator writes words: each followed by one space. */
  function Join(ws: seq<string>): string {
    if ws == [] then "" else ws[0] + " " + Join(ws[1..])
  }

  lemma {:induction false} WordLengthOf(w: string, rest: string)
    requires ' ' !in w && (rest == "" || rest[0] == ' ')
    ensures WordLength(w + rest) == |w|
  {
    if w == "" {
      assert w + rest == rest;
    } else {
      WordLengthOf(w[1..], rest);
      assert (w + rest)[1..] == w[1..] + rest;
      assert w[0] in w;
    }
  }

  lemma FirstWord(w: string, rest: string)
    requires IsWord(w) && (rest == "" || rest[0] == ' ')
    ensures Words(w + rest) == [w] + Words(rest)
  {
    WordLengthOf(w, rest);
    assert w[0] in w;
    assert (w + rest)[..|w|] == w && (w + rest)[|w|..] == rest;
  }

  lemma SkipSpace(text: string)
    ensures Words(" " + text) == Words(text)
  {
    assert (" " + text)[1..] == text;
  }

  /** Tokenising what the generator wrote gives back exactly the words it drew. */
  lemma {:induction false} WordsOfJoin(ws: seq<string>)
    requires forall w | w in ws :: IsWord(w)
    ensures Words(Join(ws)) == ws
  {
    if ws != [] {
      var rest := " " + Join(ws[1..]);
      assert Join(ws) == ws[0] + rest;
      FirstWord(ws[0], rest);
      SkipSpace(Join(ws[1..]));
      WordsOfJoin(ws[1..]);
      assert ws == [ws[0]] + ws[1..];
    }
  }

  /** Splitting never loses, invents or reorders anything but spaces. */
  lemma {:induction false} WordsKeepLetters(text: string)
    ensures forall w | w in Words(text) :: IsWord(w)
    ensures Letters(Join(Words(text))) == Letters(text)
    decreases |text|
  {
    if text == "" {
    } else if text[0] == ' ' {
      WordsKeepLetters(text[1..]);
    } else {
      var n := WordLength(text);
      WordsKeepLetters(text[n..]);
      var w, rest := text[..n], Words(text[n..]);
      assert Words(text) == [w] + rest;
      assert Join([w] + rest) == w + (" " + Join(rest)) by { assert ([w] + rest)[1..] == rest; }
      LettersAppend(w, " " + Join(rest));
      LettersAppend(" ", Join(rest));
      LettersAppend(w, text[n..]);
      assert text == w + text[n..];
    }
  }

  function Letters(text: string): string {
    if text == "" then ""
    else (if text[0] == ' ' then "" else [text[0]]) + Letters(text[1..])
  }

  lemma {:induction false} LettersAppend(a: string, b: string)
    ensures Letters(a + b) == Letters(a) + Letters(b)
  {
    if a == "" {
      assert a + b == b;
    } else {
      var first := if a[0] == ' ' then "" else [a[0]];
      LettersAppend(a[1..], b);
      assert (a + b)[0] == a[0] && (a + b)[1..] == a[1..] + b;
      assert Letters(a + b) == first + Letters(a[1..] + b);
    }
  }

  /** A text can be tokenised piecewise wherever a space ends the first piece. */
  lemma {:induction false} WordsSplit(a: string, b: string)
    requires a == "" || a[|a| - 1] == ' '
    ensures Words(a + b) == Words(a) + Words(b)
    decreases |a|
  {
    if a == "" {
      assert a + b == b;
    } else if a[0] == ' ' {
      assert (a + b)[1..] == a[1..] + b;
      WordsSplit(a[1..], b);
    } else {
      var n := WordLength(a);
      var w, rest := a[..n], a[n..];
      assert a == w + rest && a + b == w + (rest + b);
      FirstWord(w, rest);
      FirstWord(w, rest + b);
      WordsSplit(rest, b);
    }
  }

  // ---------------------------------------------------------------- counting

  function Count(ws: seq<string>, w: string): nat {
    if ws == [] then 0 else Count(ws[..|ws| - 1], w) + if ws[|ws| - 1] == w then 1 else 0
  }

  lemma {:induction false} CountIsMultiplicity(ws: seq<string>, w: string)
    ensures Count(ws, w) == multiset(ws)[w]
  {
    if ws != [] {
      CountIsMultiplicity(ws[..|ws| - 1], w);
      assert ws == ws[..|ws| - 1] + [ws[|ws| - 1]];
    }
  }

  lemma {:induction false} CountPositive(ws: seq<string>, w: string)
    ensures Count(ws, w) > 0 <==> w in ws
  {
    if ws != [] {
      CountPositive(ws[..|ws| - 1], w);
      assert ws == ws[..|ws| - 1] + [ws[|ws| - 1]];
    }
  }

  lemma CountAppend(ws: seq<string>, v: string, w: string)
    ensures Count(ws + [v], w) == Count(ws, w) + if v == w then 1 else 0
  {
    assert (ws + [v])[..|ws|] == ws;
  }

  /** Go's `<` on strings. */
  predicate Less(a: string, b: string) {
    b != "" && (a == "" || a[0] < b[0] || (a[0] == b[0] && Less(a[1..], b[1..])))
  }

  /** `a` and `b` have the same first `k` characters, and then `a` ends or has the
      smaller character. */
  predicate SmallerAt(a: string, b: string, k: nat) {
    && k <= |a| && k < |b| && a[..k] == b[..k]
    && (k == |a| || a[k] < b[k])
  }

  lemma SmallerAtHead(a: string, b: string, k: nat)
    requires k > 0 && SmallerAt(a, b, k)
    ensures a != "" && b != "" && a[0] == b[0]
  {
    assert a[..k][0] == b[..k][0];
  }

  /** The order is the lexicographic one. */
  lemma {:induction false} LessIsLexicographic(a: string, b: string)
    ensures Less(a, b) <==> exists k: nat :: SmallerAt(a, b, k)
    decreases |a|
  {
    if a == "" || b == "" || a[0] != b[0] {
      if Less(a, b) {
        assert SmallerAt(a, b, 0);
      }
      forall k: nat | SmallerAt(a, b, k) ensures Less(a, b) {
        if k > 0 {
          SmallerAtHead(a, b, k);
        }
      }
    } else {
      LessIsLexicographic(a[1..], b[1..]);
      if k: nat :| SmallerAt(a[1..], b[1..], k) {
        assert a[..k + 1] == [a[0]] + a[1..][..k] && b[..k + 1] == [b[0]] + b[1..][..k];
        assert SmallerAt(a, b, k + 1);
      }
      if k: nat :| SmallerAt(a, b, k) {
        assert k > 0;
        assert a[1..][..k - 1] == a[..k][1..] && b[1..][..k - 1] == b[..k][1..];
        assert SmallerAt(a[1..], b[1..], k - 1);
      }
    }
  }

  lemma {:induction false} LessIsTotal(a: string, b: string)
    ensures a != b ==> Less(a, b) || Less(b, a)
    ensures !(Less(a, b) && Less(b, a)) && !Less(a, a)
    decreases |a|
  {
    if a != "" {
      LessIsTotal(a[1..], a[1..]);
    }
    if a != "" && b != "" {
      LessIsTotal(a[1..], b[1..]);
      assert a == [a[0]] + a[1..] && b == [b[0]] + b[1..];
    }
  }

  lemma {:induction false} LessIsTransitive(a: string, b: string, c: string)
    requires Less(a, b) && Less(b, c)
    ensures Less(a, c)
    decreases |a|
  {
    if a != "" && a[0] == b[0] == c[0] {
      LessIsTransitive(a[1..], b[1..], c[1..]);
    }
  }

  /** `w` has the highest count and is the smallest word that has. */
  ghost predicate Hottest(ws: seq<string>, w: string) {
    w in ws && forall v | v in ws && v != w :: Beaten(Count(ws, w), w, Count(ws, v), v)
  }

  predicate Beaten(best: nat, w: string, count: nat, v: string) {
    count < best || (count == best && Less(w, v))
  }

  /** The specification has one answer, so the order in which the map is walked
      cannot show in the result. */
  lemma HottestIsUnique(ws: seq<string>, v: string, w: string)
    requires Hottest(ws, v) && Hottest(ws, w)
    ensures v == w
  {
    LessIsTotal(v, w);
  }

  ghost predicate Counted(counts: map<string, nat>, ws: seq<string>) {
    forall w :: (if w in counts then counts[w] else 0) == Count(ws, w) && (w in counts ==> counts[w] > 0)
  }

  lemma CountedAppend(counts: map<string, nat>, ws: seq<string>, w: string)
    requires Counted(counts, ws)
    ensures Counted(counts[w := (if w in counts then counts[w] else 0) + 1], ws + [w])
  {
    forall v ensures Count(ws + [w], v) == Count(ws, v) + if w == v then 1 else 0 {
      CountAppend(ws, w, v);
    }
  }

  /** The first pass after `i` characters: between words everything before `i` is
      counted; inside a word, everything before its `start`. */
  ghost predicate Scanned(text: string, i: nat, start: int, counts: map<string, nat>)
    requires i <= |text|
  {
    && -1 <= start < i
    && (start < 0 ==> (i == 0 || text[i - 1] == ' ') && Counted(counts, Words(text[..i])))
    && (start >= 0 ==>
          && ' ' !in text[start..i] && (start == 0 || text[start - 1] == ' ')
          && Counted(counts, Words(text[..start])))
  }

  lemma ScanLetter(text: string, i: nat, start: int, counts: map<string, nat>)
    requires i < |text| && text[i] != ' ' && Scanned(text, i, start, counts)
    ensures Scanned(text, i + 1, if start < 0 then i else start, counts)
  {
    var from := if start < 0 then i else start;
    assert text[from..i + 1] == text[from..i] + [text[i]];
  }

  lemma ScanWord(text: string, i: nat, start: nat, counts: map<string, nat>)
    requires i <= |text| && Scanned(text, i, start, counts)
    ensures var w := text[start..i];
            Counted(counts[w := (if w in counts then counts[w] else 0) + 1], Words(text[..i]))
  {
    WordAdded(text, start, i);
    CountedAppend(counts, Words(text[..start]), text[start..i]);
  }

  lemma ScanSpace(text: string, i: nat, counts: map<string, nat>)
    requires i < |text| && text[i] == ' ' && Counted(counts, Words(text[..i]))
    ensures Scanned(text, i + 1, -1, counts)
  {
    SpaceAdded(text, i);
  }

  /** The first pass: `start` is where the current word begins, or -1 between words. */
  method CountWords(text: string) returns (counts: map<string, nat>)
    ensures Counted(counts, Words(text))
  {
    counts := map[];
    var start: int := -1;
    var i := 0;
    while i <= |text|
      invariant 0 <= i <= |text| + 1
      invariant if i <= |text| then Scanned(text, i, start, counts) else Counted(counts, Words(text))
      decreases |text| + 1 - i
    {
      if i < |text| && text[i] != ' ' {
        ScanLetter(text, i, start, counts);
        if start < 0 {
          start := i;
        }
        i := i + 1;
        continue;
      }
      if start >= 0 {
        ScanWord(text, i, start, counts);
        var w := text[start..i];
        counts := counts[w := (if w in counts then counts[w] else 0) + 1];
        start := -1;
      }
      if i < |text| {
        ScanSpace(text, i, counts);
      } else {
        assert text[..i] == text;
      }
      i := i + 1;
    }
  }

  lemma WordAdded(text: string, start: nat, i: nat)
    requires start < i <= |text| && ' ' !in text[start..i]
    requires start == 0 || text[start - 1] == ' '
    ensures Words(text[..i]) == Words(text[..start]) + [text[start..i]]
  {
    var w := text[start..i];
    assert text[..i] == text[..start] + w;
    WordsSplit(text[..start], w);
    FirstWord(w, "");
    assert w + "" == w;
  }

  lemma SpaceAdded(text: string, i: nat)
    requires i < |text| && text[i] == ' '
    ensures Words(text[..i + 1]) == Words(text[..i])
  {
    SpaceAtEnd(text[..i]);
    assert text[..i + 1] == text[..i] + " ";
  }

  lemma {:induction false} SpaceAtEnd(a: string)
    ensures Words(a + " ") == Words(a)
    decreases |a|
  {
    if a == "" {
      assert a + " " == " ";
      SkipSpace("");
      assert " " + "" == " ";
    } else if a[0] == ' ' {
      assert (a + " ")[1..] == a[1..] + " ";
      SpaceAtEnd(a[1..]);
    } else {
      var n := WordLength(a);
      var w, rest := a[..n], a[n..];
      assert a == w + rest && a + " " == w + (rest + " ");
      FirstWord(w, rest);
      FirstWord(w, rest + " ");
      SpaceAtEnd(rest);
    }
  }

  /** The most frequent word, ties broken alphabetically; the map is walked in an
      arbitrary order. */
  method HottestWord(text: string) returns (word: string, count: nat)
    ensures Words(text) == [] ==> word == "" && count == 0
    ensures Words(text) != [] ==>
              && Hottest(Words(text), word)
              && word in Words(text) && count == multiset(Words(text))[word]
              && forall v | v in Words(text) && v != word ::
                   || multiset(Words(text))[v] < count
                   || (multiset(Words(text))[v] == count && exists k: nat :: SmallerAt(word, v, k))
  {
    var ws := Words(text);
    var counts := CountWords(text);
    forall w ensures w in counts <==> w in ws { CountPositive(ws, w); }
    word, count := "", 0;
    var left := counts.Keys;
    while left != {}
      invariant left <= counts.Keys
      invariant left == counts.Keys ==> word == "" && count == 0
      invariant left != counts.Keys ==> word in counts && word !in left && count == counts[word]
      invariant forall v | v in counts && v !in left && v != word :: Beaten(count, word, counts[v], v)
      decreases left
    {
      var w :| w in left;
      left := left - {w};
      if counts[w] > count || (counts[w] == count && Less(w, word)) {
        forall v | v in counts && v !in left && v != w ensures Beaten(counts[w], w, counts[v], v) {
          if v != word && counts[v] == count == counts[w] {
            LessIsTransitive(w, word, v);
          }
        }
        word, count := w, counts[w];
      } else {
        LessIsTotal(w, word);
      }
    }
    if ws != [] {
      assert ws[0] in counts;
      CountIsMultiplicity(ws, word);
      forall v | v in ws && v != word
        ensures multiset(ws)[v] < count || (multiset(ws)[v] == count && exists k: nat :: SmallerAt(word, v, k))
      {
        CountIsMultiplicity(ws, v);
        LessIsLexicographic(word, v);
        assert Beaten(count, word, counts[v], v);
      }
    }
  }

  // ---------------------------------------------------------- synthetic text

  /** The words drawn from a vocabulary by the first `n` draws after `seed`. */
  function Drawn(vocabulary: seq<string>, seed: nat, n: nat): (ws: seq<string>)
    requires vocabulary != []
    ensures |ws| == n
  {
    seq(n, k requires 0 <= k < n => vocabulary[Lcg.Draw(seed, k + 1) % |vocabulary|])
  }

  /** The words of the program. */
  const VOCABULARY := [
    "context", "channel", "goroutine", "interface", "slice", "map",
    "struct", "error", "defer", "select", "mutex", "atomic"]

  /** Word k is picked by the state after draw k + 1: with the program's seed the text
      starts "channel slice atomic ". */
  lemma CorpusStarts(n: nat)
    requires n >= 3
    ensures Drawn(VOCABULARY, 42, n)[..3] == ["channel", "slice", "atomic"]
  {
    Lcg.FirstDraws();
  }

  lemma {:induction false} JoinAppend(ws: seq<string>, w: string)
    ensures Join(ws + [w]) == Join(ws) + w + " "
  {
    if ws == [] {
      assert ws + [w] == [w] && [w][1..] == [];
    } else {
      JoinAppend(ws[1..], w);
      assert (ws + [w])[1..] == ws[1..] + [w];
    }
  }

  method Corpus(vocabulary: seq<string>, seed: nat, n: nat) returns (text: string)
    requires vocabulary != []
    ensures text == Join(Drawn(vocabulary, seed, n))
  {
    text := "";
    var state := seed;
    for k := 0 to n
      invariant state == Lcg.Draw(seed, k)
      invariant text == Join(Drawn(vocabulary, seed, k))
    {
      state := (state * Lcg.MULTIPLIER + Lcg.INCREMENT) % Lcg.MODULUS;
      var w := vocabulary[state % |vocabulary|];
      JoinAppend(Drawn(vocabulary, seed, k), w);
      assert Drawn(vocabulary, seed, k + 1) == Drawn(vocabulary, seed, k) + [w];
      text := text + w;
      text := text + " ";
    }
  }

  /** The whole workload, for any vocabulary of words, seed and length: what is
      counted is exactly what was drawn. */
  method Workload(vocabulary: seq<string>, seed: nat, n: nat) returns (word: string, count: nat)
    requires vocabulary != [] && forall w | w in vocabulary :: IsWord(w)
    ensures n == 0 ==> word == "" && count == 0
    ensures n > 0 ==> Hottest(Drawn(vocabulary, seed, n), word) && count == multiset(Drawn(vocabulary, seed, n))[word]
  {
    var text := Corpus(vocabulary, seed, n);
    WordsOfJoin(Drawn(vocabulary, seed, n));
    word, count := HottestWord(text);
  }
}
