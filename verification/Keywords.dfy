/** Keyword extraction (keyword_extractor.go): runs of content words become candidate
    phrases, words are scored by degree over frequency, phrases by the sum of their words,
    and the best topN are kept. Scores are exact rationals. */
module Keywords {
  import opened Domain

  /** A phrase is its list of words; the code joins them with blanks and splits them again. */
  type Phrase = seq<string>

  datatype KeywordScore = KeywordScore(keyword: Phrase, score: real)

  /** How a raw word is cleaned, and which cleaned words break a phrase (two bytes or less,
      or on the stop list). */
  datatype Lexicon = Lexicon(clean: string -> string, stop: string -> bool)

  // ---------------------------------------------------------- candidate phrases

  /** The content words of a sentence: cleaned, not empty, not stopping. */
  function Content(words: seq<string>, lex: Lexicon): Phrase {
    if words == [] then []
    else
      var w := lex.clean(words[|words| - 1]);
      Content(words[..|words| - 1], lex) + if w == "" || lex.stop(w) then [] else [w]
  }

  function ContentOfAll(sentences: seq<seq<string>>, lex: Lexicon): Phrase {
    if sentences == [] then []
    else ContentOfAll(sentences[..|sentences| - 1], lex) + Content(sentences[|sentences| - 1], lex)
  }

  function Flatten(ps: seq<Phrase>): Phrase {
    if ps == [] then [] else Flatten(ps[..|ps| - 1]) + ps[|ps| - 1]
  }

  /** Does the content word after words extend the phrase of the one before it? Only words
      that vanish when cleaned may stand between the two. */
  predicate Continues(words: seq<string>, lex: Lexicon) {
    if words == [] then false
    else
      var w := lex.clean(words[|words| - 1]);
      if w == "" then Continues(words[..|words| - 1], lex) else !lex.stop(w)
  }

  /** Where the phrases of a sentence begin, as positions among content words, base of which
      came before: at each content word that continues none. */
  ghost function Starts(words: seq<string>, lex: Lexicon, base: nat): seq<nat> {
    if words == [] then []
    else
      var init, w := words[..|words| - 1], lex.clean(words[|words| - 1]);
      Starts(init, lex, base)
        + if w == "" || lex.stop(w) || Continues(init, lex) then [] else [base + |Content(init, lex)|]
  }

  /** at lists the positions of the content words, in order. */
  ghost predicate ContentAt(words: seq<string>, lex: Lexicon, content: Phrase, at: seq<nat>) {
    && |at| == |content|
    && (forall r | 0 <= r < |at| :: at[r] < |words| && content[r] == lex.clean(words[at[r]]))
    && (forall q, r | 0 <= q < r < |at| :: at[q] < at[r])
    && forall i: nat | i < |words| ::
         i in at <==> lex.clean(words[i]) != "" && !lex.stop(lex.clean(words[i]))
  }

  /** Between content word r - 1 and content word r, if any, stands a word that does not vanish
      when cleaned. */
  ghost predicate Parted(words: seq<string>, lex: Lexicon, at: seq<nat>, r: nat)
    requires r < |at|
  {
    r == 0 || exists i: nat :: at[r - 1] < i < at[r] && i < |words| && lex.clean(words[i]) != ""
  }

  /** Nothing but vanishing words follow the last content word. */
  ghost predicate StillOpen(words: seq<string>, lex: Lexicon, at: seq<nat>) {
    at != [] && forall i: nat | at[|at| - 1] < i < |words| :: lex.clean(words[i]) == ""
  }

  /** A phrase begins at content word r exactly when r is the first or a stop word parts it
      from the one before. */
  ghost predicate StartsAt(starts: seq<nat>, words: seq<string>, lex: Lexicon, base: nat, at: seq<nat>) {
    && (forall x | x in starts :: base <= x < base + |at|)
    && forall r: nat | r < |at| :: base + r in starts <==> Parted(words, lex, at, r)
  }

  /** Content words and beginnings by position in the sentence. */
  lemma {:induction false} StartsExactly(words: seq<string>, lex: Lexicon, base: nat) returns (at: seq<nat>)
    ensures ContentAt(words, lex, Content(words, lex), at)
    ensures StartsAt(Starts(words, lex, base), words, lex, base, at)
    ensures Continues(words, lex) <==> StillOpen(words, lex, at)
    decreases |words|
  {
    at := [];
    if words != [] {
      var n := |words| - 1;
      var before := StartsExactly(words[..n], lex, base);
      at := AtNext(words, lex, before);
      ContentNext(words, lex, before);
      OpenNext(words, lex, before);
      StartsNext(words, lex, base, before);
    }
  }

  ghost function AtNext(words: seq<string>, lex: Lexicon, before: seq<nat>): seq<nat>
    requires words != []
  {
    var w := lex.clean(words[|words| - 1]);
    if w == "" || lex.stop(w) then before else before + [|words| - 1]
  }

  lemma {:induction false} ContentNext(words: seq<string>, lex: Lexicon, before: seq<nat>)
    requires words != [] && ContentAt(words[..|words| - 1], lex, Content(words[..|words| - 1], lex), before)
    ensures ContentAt(words, lex, Content(words, lex), AtNext(words, lex, before))
    ensures forall r | 0 <= r < |before| :: before[r] < |words| - 1
  {
    var n, at := |words| - 1, AtNext(words, lex, before);
    forall i: nat | i < |words| ensures i in at <==> lex.clean(words[i]) != "" && !lex.stop(lex.clean(words[i])) {
      InAppended(before, n, i);
      assert i < n ==> words[..n][i] == words[i];
    }
  }

  lemma {:induction false} OpenNext(words: seq<string>, lex: Lexicon, before: seq<nat>)
    requires words != [] && forall r | 0 <= r < |before| :: before[r] < |words| - 1
    requires Continues(words[..|words| - 1], lex) <==> StillOpen(words[..|words| - 1], lex, before)
    ensures Continues(words, lex) <==> StillOpen(words, lex, AtNext(words, lex, before))
  {
    var n := |words| - 1;
    if lex.clean(words[n]) == "" {
      assert forall i: nat | i < n :: words[..n][i] == words[i];
    }
  }

  lemma {:induction false} PartedNext(words: seq<string>, lex: Lexicon, before: seq<nat>, r: nat)
    requires words != [] && r < |before| && forall q | 0 <= q < |before| :: before[q] < |words| - 1
    ensures Parted(words[..|words| - 1], lex, before, r) <==> Parted(words, lex, AtNext(words, lex, before), r)
  {
    var n := |words| - 1;
    assert AtNext(words, lex, before)[..|before|] == before;
    assert forall i: nat | i < n :: words[..n][i] == words[i];
  }

  lemma {:induction false} PartedLast(words: seq<string>, lex: Lexicon, before: seq<nat>)
    requires words != [] && forall q | 0 <= q < |before| :: before[q] < |words| - 1
    ensures Parted(words, lex, before + [|words| - 1], |before|) <==> !StillOpen(words[..|words| - 1], lex, before)
  {
    var n := |words| - 1;
    assert forall i: nat | i < n :: words[..n][i] == words[i];
  }

  lemma {:induction false} StartsNext(words: seq<string>, lex: Lexicon, base: nat, before: seq<nat>)
    requires words != []
    requires var init := words[..|words| - 1];
             && ContentAt(init, lex, Content(init, lex), before)
             && StartsAt(Starts(init, lex, base), init, lex, base, before)
             && (Continues(init, lex) <==> StillOpen(init, lex, before))
    ensures StartsAt(Starts(words, lex, base), words, lex, base, AtNext(words, lex, before))
  {
    var init, at := words[..|words| - 1], AtNext(words, lex, before);
    ContentNext(words, lex, before);
    PartedLast(words, lex, before);
    forall r: nat | r < |at| ensures base + r in Starts(words, lex, base) <==> Parted(words, lex, at, r) {
      if r < |before| {
        PartedNext(words, lex, before, r);
        assert base + r in Starts(init, lex, base) <==> Parted(init, lex, before, r);
      } else {
        assert base + r !in Starts(init, lex, base);
      }
    }
  }

  ghost function StartsInAll(sentences: seq<seq<string>>, lex: Lexicon): seq<nat> {
    if sentences == [] then []
    else
      var init := sentences[..|sentences| - 1];
      StartsInAll(init, lex) + Starts(sentences[|sentences| - 1], lex, |ContentOfAll(init, lex)|)
  }

  /** Where each phrase of a list begins in the flattened list. */
  ghost function Offsets(ps: seq<Phrase>): seq<nat> {
    if ps == [] then [] else Offsets(ps[..|ps| - 1]) + [|Flatten(ps[..|ps| - 1])|]
  }

  lemma {:induction false} OffsetsLength(ps: seq<Phrase>)
    ensures |Offsets(ps)| == |ps|
  {
    if ps != [] {
      OffsetsLength(ps[..|ps| - 1]);
    }
  }

  /** Words and offsets determine the phrases. */
  lemma {:induction false} PhrasesDetermined(ps: seq<Phrase>, qs: seq<Phrase>)
    requires Flatten(ps) == Flatten(qs) && Offsets(ps) == Offsets(qs)
    ensures ps == qs
  {
    OffsetsLength(ps);
    OffsetsLength(qs);
    if ps != [] {
      var n := |ps| - 1;
      var at := Offsets(ps)[n];
      assert Flatten(ps)[..at] == Flatten(ps[..n]) && Flatten(ps)[at..] == ps[n];
      assert Flatten(qs)[..at] == Flatten(qs[..n]) && Flatten(qs)[at..] == qs[n];
      assert Offsets(ps)[..n] == Offsets(ps[..n]) && Offsets(qs)[..n] == Offsets(qs[..n]);
      PhrasesDetermined(ps[..n], qs[..n]);
    }
  }

  ghost predicate NoneEmpty(ps: seq<Phrase>) {
    forall i | 0 <= i < |ps| :: ps[i] != []
  }

  /** After some words of a sentence: phrases are closed, current is open. */
  ghost predicate Scanned(
    phrases: seq<Phrase>, current: Phrase, before: seq<Phrase>, words: seq<string>, lex: Lexicon)
  {
    && NoneEmpty(phrases)
    && Flatten(phrases) + current == Flatten(before) + Content(words, lex)
    && (current != [] <==> Continues(words, lex))
    && Offsets(phrases) + OpenAt(phrases, current) == Offsets(before) + Starts(words, lex, |Flatten(before)|)
  }

  ghost function OpenAt(phrases: seq<Phrase>, current: Phrase): seq<nat> {
    if current == [] then [] else [|Flatten(phrases)|]
  }

  lemma Closes(phrases: seq<Phrase>, current: Phrase, before: seq<Phrase>, words: seq<string>, lex: Lexicon)
    requires Scanned(phrases, current, before, words, lex)
    ensures var closed := if current == [] then phrases else phrases + [current];
            && NoneEmpty(closed) && Flatten(closed) == Flatten(before) + Content(words, lex)
            && Offsets(closed) == Offsets(before) + Starts(words, lex, |Flatten(before)|)
  {
  }

  lemma ScanStop(phrases: seq<Phrase>, current: Phrase, before: seq<Phrase>, words: seq<string>, i: nat, lex: Lexicon)
    requires i < |words| && Scanned(phrases, current, before, words[..i], lex)
    requires lex.clean(words[i]) != "" && lex.stop(lex.clean(words[i]))
    ensures Scanned(if current == [] then phrases else phrases + [current], [], before, words[..i + 1], lex)
  {
    Closes(phrases, current, before, words[..i], lex);
    StopWord(words, i, lex, |Flatten(before)|);
    var closed := if current == [] then phrases else phrases + [current];
    assert Flatten(closed) + [] == Flatten(closed) && Offsets(closed) + [] == Offsets(closed);
  }

  /** A stop word adds nothing, and the next content word continues none. */
  lemma StopWord(words: seq<string>, i: nat, lex: Lexicon, base: nat)
    requires i < |words| && lex.clean(words[i]) != "" && lex.stop(lex.clean(words[i]))
    ensures Content(words[..i + 1], lex) == Content(words[..i], lex) && !Continues(words[..i + 1], lex)
    ensures Starts(words[..i + 1], lex, base) == Starts(words[..i], lex, base)
  {
    assert words[..i + 1][..i] == words[..i];
  }

  lemma ScanWord(phrases: seq<Phrase>, current: Phrase, before: seq<Phrase>, words: seq<string>, i: nat, lex: Lexicon)
    requires i < |words| && Scanned(phrases, current, before, words[..i], lex)
    requires lex.clean(words[i]) != "" && !lex.stop(lex.clean(words[i]))
    ensures Scanned(phrases, current + [lex.clean(words[i])], before, words[..i + 1], lex)
  {
    var w := lex.clean(words[i]);
    var part, more := words[..i], words[..i + 1];
    assert more[..i] == part;
    assert Content(more, lex) == Content(part, lex) + [w];
    Regroup(Flatten(phrases), current, Flatten(before), Content(part, lex), w);
    if current == [] {
      assert |Flatten(phrases)| == |Flatten(before)| + |Content(part, lex)|;
      assert Offsets(phrases) == Offsets(phrases) + OpenAt(phrases, []);
      Regroup(Offsets(phrases), [], Offsets(before), Starts(part, lex, |Flatten(before)|), |Flatten(phrases)|);
    }
  }

  lemma Regroup<T>(a: seq<T>, b: seq<T>, c: seq<T>, d: seq<T>, x: T)
    requires a + b == c + d
    ensures a + (b + [x]) == c + (d + [x])
  {
    assert a + (b + [x]) == a + b + [x];
  }

  lemma ScanNothing(
    phrases: seq<Phrase>, current: Phrase, before: seq<Phrase>, words: seq<string>, i: nat, lex: Lexicon)
    requires i < |words| && Scanned(phrases, current, before, words[..i], lex) && lex.clean(words[i]) == ""
    ensures Scanned(phrases, current, before, words[..i + 1], lex)
  {
    assert words[..i + 1][..i] == words[..i];
  }

  /** The phrases of one sentence appended to earlier ones: no content word is lost, moved or
      added, and phrases begin exactly where they should. */
  method SentencePhrases(words: seq<string>, lex: Lexicon, before: seq<Phrase>) returns (phrases: seq<Phrase>)
    requires NoneEmpty(before)
    ensures NoneEmpty(phrases)
    ensures Flatten(phrases) == Flatten(before) + Content(words, lex)
    ensures Offsets(phrases) == Offsets(before) + Starts(words, lex, |Flatten(before)|)
  {
    phrases := before;
    var current: Phrase := [];
    for i := 0 to |words|
      invariant Scanned(phrases, current, before, words[..i], lex)
    {
      var cleaned := lex.clean(words[i]);
      if cleaned == "" {
        ScanNothing(phrases, current, before, words, i, lex);
      } else if lex.stop(cleaned) {
        ScanStop(phrases, current, before, words, i, lex);
        if current != [] {
          phrases := phrases + [current];
          current := [];
        }
      } else {
        ScanWord(phrases, current, before, words, i, lex);
        current := current + [cleaned];
      }
    }
    assert words[..|words|] == words;
    Closes(phrases, current, before, words, lex);
    if current != [] {
      phrases := phrases + [current];
    }
  }

  method CandidatePhrases(sentences: seq<seq<string>>, lex: Lexicon) returns (phrases: seq<Phrase>)
    ensures NoneEmpty(phrases)
    ensures Flatten(phrases) == ContentOfAll(sentences, lex)
    ensures Offsets(phrases) == StartsInAll(sentences, lex)
  {
    phrases := [];
    for i := 0 to |sentences|
      invariant NoneEmpty(phrases)
      invariant Flatten(phrases) == ContentOfAll(sentences[..i], lex)
      invariant Offsets(phrases) == StartsInAll(sentences[..i], lex)
    {
      assert sentences[..i + 1][..i] == sentences[..i];
      phrases := SentencePhrases(sentences[i], lex, phrases);
    }
    assert sentences[..|sentences|] == sentences;
  }

  // ------------------------------------------------------------- word tables

  function CountIn(p: Phrase, w: string): nat {
    if p == [] then 0 else CountIn(p[..|p| - 1], w) + if p[|p| - 1] == w then 1 else 0
  }

  /** How often w occurs in the phrases. */
  function Freq(ps: seq<Phrase>, w: string): nat {
    if ps == [] then 0 else Freq(ps[..|ps| - 1], w) + CountIn(ps[|ps| - 1], w)
  }

  /** The lengths of the phrases, summed over the occurrences of w. */
  function LengthSum(ps: seq<Phrase>, w: string): nat {
    if ps == [] then 0 else LengthSum(ps[..|ps| - 1], w) + CountIn(ps[|ps| - 1], w) * |ps[|ps| - 1]|
  }

  function Longest(ps: seq<Phrase>): nat {
    if ps == [] then 0 else Max(Longest(ps[..|ps| - 1]), |ps[|ps| - 1]|)
  }

  /** The counts are those of the multiset of words. */
  lemma {:induction false} CountsExactly(ps: seq<Phrase>, w: string)
    ensures Freq(ps, w) == multiset(Flatten(ps))[w]
  {
    if ps != [] {
      var n := |ps| - 1;
      CountsExactly(ps[..n], w);
      CountIsMultiplicity(ps[n], w);
    }
  }

  lemma {:induction false} CountIsMultiplicity(p: Phrase, w: string)
    ensures CountIn(p, w) == multiset(p)[w]
  {
    if p != [] {
      var n := |p| - 1;
      CountIsMultiplicity(p[..n], w);
      assert p == p[..n] + [p[n]];
    }
  }

  /** The length sum adds up over phrases, and one phrase counts its length once for each
      occurrence of the word. */
  lemma {:induction false} LengthSumExactly(ps: seq<Phrase>, qs: seq<Phrase>, p: Phrase, w: string)
    ensures LengthSum([p], w) == multiset(p)[w] * |p|
    ensures LengthSum(ps + qs, w) == LengthSum(ps, w) + LengthSum(qs, w)
    decreases |qs|
  {
    CountIsMultiplicity(p, w);
    assert [p][..0] == [];
    if qs == [] {
      assert ps + qs == ps;
    } else {
      var n := |qs| - 1;
      assert (ps + qs)[..|ps| + n] == ps + qs[..n];
      LengthSumExactly(ps, qs[..n], p, w);
    }
  }

  lemma {:induction false} CountPositive(p: Phrase, i: nat)
    requires i < |p|
    ensures CountIn(p, p[i]) > 0
  {
    var n := |p| - 1;
    if i < n {
      CountPositive(p[..n], i);
    }
  }

  lemma {:induction false} FreqPositive(ps: seq<Phrase>, k: nat, i: nat)
    requires k < |ps| && i < |ps[k]|
    ensures Freq(ps, ps[k][i]) > 0
  {
    var n := |ps| - 1;
    if k < n {
      FreqPositive(ps[..n], k, i);
    } else {
      CountPositive(ps[n], i);
    }
  }

  lemma {:induction false} CountBounds(p: Phrase, w: string)
    ensures CountIn(p, w) <= |p|
  {
    if p != [] {
      CountBounds(p[..|p| - 1], w);
    }
  }

  lemma BoundsStep(f: nat, l: nat, c: nat, n: nat, limit: nat)
    requires f <= l <= f * limit && n <= limit && (n == 0 ==> c == 0)
    ensures f + c <= l + c * n <= (f + c) * limit
  {
  }

  /** Each occurrence counts at least 1 and at most the longest phrase. */
  lemma {:induction false} LengthSumBounds(ps: seq<Phrase>, w: string, limit: nat)
    requires Longest(ps) <= limit
    ensures Freq(ps, w) <= LengthSum(ps, w) <= Freq(ps, w) * limit
  {
    if ps != [] {
      var init, p := ps[..|ps| - 1], ps[|ps| - 1];
      LengthSumBounds(init, w, limit);
      CountBounds(p, w);
      BoundsStep(Freq(init, w), LengthSum(init, w), CountIn(p, w), |p|, limit);
    }
  }

  /** The score of a word that occurs: mean length of the phrases over its occurrences. */
  function Score(ps: seq<Phrase>, w: string): real
    requires Freq(ps, w) > 0
  {
    LengthSum(ps, w) as real / Freq(ps, w) as real
  }

  lemma RealProduct(a: nat, b: nat)
    ensures (a * b) as real == a as real * b as real
  {
  }

  lemma Product(x: real, y: real, b: real)
    requires x < y && b > 0.0
    ensures x * b < y * b
  {
  }

  lemma Quotient(a: real, b: real, limit: real)
    requires b > 0.0 && b <= a <= b * limit
    ensures (a / b) * b == a && 1.0 <= a / b <= limit
  {
  }

  ghost predicate MeanLength(score: real, freq: nat, lengths: nat, longest: nat) {
    score * freq as real == lengths as real && 1.0 <= score <= longest as real
  }

  lemma RatioExact(score: real, f: nat, l: nat, limit: nat)
    requires f > 0 && f <= l <= f * limit && score == l as real / f as real
    ensures MeanLength(score, f, l, limit)
  {
    RealProduct(f, limit);
    Quotient(l as real, f as real, limit as real);
  }

  /** Score times frequency is the sum of phrase lengths over the occurrences, and a score
      lies between 1 and the length of the longest phrase. */
  lemma ScoreExact(ps: seq<Phrase>, w: string)
    requires Freq(ps, w) > 0
    ensures MeanLength(Score(ps, w), Freq(ps, w), LengthSum(ps, w), Longest(ps))
  {
    LengthSumBounds(ps, w, Longest(ps));
    RatioExact(Score(ps, w), Freq(ps, w), LengthSum(ps, w), Longest(ps));
  }

  // ------------------------------------------------------------- phrase scores

  ghost predicate WordsOccur(ps: seq<Phrase>, p: Phrase) {
    forall i | 0 <= i < |p| :: Freq(ps, p[i]) > 0
  }

  function PhraseScore(ps: seq<Phrase>, p: Phrase): real
    requires forall i | 0 <= i < |p| :: Freq(ps, p[i]) > 0
  {
    if p == [] then 0.0 else PhraseScore(ps, p[..|p| - 1]) + Score(ps, p[|p| - 1])
  }

  /** A phrase's score is the sum of its words' scores. */
  lemma {:induction false} PhraseScoreExactly(ps: seq<Phrase>, p: Phrase, q: Phrase, w: string)
    requires WordsOccur(ps, p) && WordsOccur(ps, q) && Freq(ps, w) > 0
    ensures PhraseScore(ps, [w]) == Score(ps, w)
    ensures WordsOccur(ps, p + q) && PhraseScore(ps, p + q) == PhraseScore(ps, p) + PhraseScore(ps, q)
    decreases |q|
  {
    assert PhraseScore(ps, [w]) == PhraseScore(ps, [w][..0]) + Score(ps, w);
    if q == [] {
      assert p + q == p;
    } else {
      var n := |q| - 1;
      PhraseScoreExactly(ps, p, q[..n], w);
      assert (p + q)[..|p| + n] == p + q[..n];
    }
  }

  lemma CandidateOccurs(ps: seq<Phrase>, k: nat)
    requires k < |ps|
    ensures WordsOccur(ps, ps[k])
  {
    forall i: nat | i < |ps[k]| ensures Freq(ps, ps[k][i]) > 0 {
      FreqPositive(ps, k, i);
    }
  }

  lemma AddScore(m: nat, n: nat, sum: real, score: real, limit: real)
    requires m == n + 1 && Between(sum, n, limit) && 1.0 <= score <= limit
    ensures Between(sum + score, m, limit)
  {
  }

  ghost predicate Between(score: real, m: nat, limit: real) {
    m as real <= score <= m as real * limit
  }

  /** A phrase of m words scores between m and m times the longest phrase. */
  lemma {:induction false} PhraseScoreBounds(ps: seq<Phrase>, p: Phrase)
    requires WordsOccur(ps, p)
    ensures Between(PhraseScore(ps, p), |p|, Longest(ps) as real)
  {
    if p != [] {
      var n := |p| - 1;
      PhraseScoreBounds(ps, p[..n]);
      ScoreExact(ps, p[n]);
      AddScore(|p|, |p[..n]|, PhraseScore(ps, p[..n]), Score(ps, p[n]), Longest(ps) as real);
    }
  }

  lemma FreqNext(ps: seq<Phrase>, i: nat, w: string)
    requires i < |ps|
    ensures Freq(ps[..i + 1], w) == Freq(ps[..i], w) + CountIn(ps[i], w)
    ensures LengthSum(ps[..i + 1], w) == LengthSum(ps[..i], w) + CountIn(ps[i], w) * |ps[i]|
  {
    assert ps[..i + 1][..i] == ps[..i];
  }

  function Get(m: map<string, nat>, w: string): nat {
    if w in m then m[w] else 0
  }

  /** The table of a phrase prefix: what freq and degree hold for w when the words of
      earlier phrases (f0, d0) and the first part of this one are counted. */
  ghost predicate Counted(freq: map<string, nat>, degree: map<string, nat>, w: string, f: nat, l: nat) {
    && Get(freq, w) == f && Get(degree, w) + f == l
    && (w in freq <==> f > 0) && (w in degree ==> w in freq)
  }

  ghost predicate TablesOf(freq: map<string, nat>, degree: map<string, nat>, ps: seq<Phrase>) {
    forall w :: Counted(freq, degree, w, Freq(ps, w), LengthSum(ps, w))
  }

  /** ps are counted, and of one more phrase of n words the first ones, q. */
  ghost predicate PartTables(freq: map<string, nat>, degree: map<string, nat>, ps: seq<Phrase>, q: Phrase, n: nat) {
    forall w :: Counted(freq, degree, w, Freq(ps, w) + CountIn(q, w), LengthSum(ps, w) + CountIn(q, w) * n)
  }

  method CountWords(ps: seq<Phrase>) returns (freq: map<string, nat>, degree: map<string, nat>)
    ensures TablesOf(freq, degree, ps)
  {
    freq, degree := map[], map[];
    for i := 0 to |ps|
      invariant TablesOf(freq, degree, ps[..i])
    {
      freq, degree := CountPhrase(ps, i, freq, degree);
    }
    assert ps[..|ps|] == ps;
  }

  method CountPhrase(ps: seq<Phrase>, i: nat, freq0: map<string, nat>, degree0: map<string, nat>)
    returns (freq: map<string, nat>, degree: map<string, nat>)
    requires i < |ps| && TablesOf(freq0, degree0, ps[..i])
    ensures TablesOf(freq, degree, ps[..i + 1])
  {
    freq, degree := freq0, degree0;
    var words := ps[i];
    for j := 0 to |words|
      invariant PartTables(freq, degree, ps[..i], words[..j], |words|)
    {
      var w := words[j];
      PartNext(freq, degree, ps[..i], words, j);
      freq := freq[w := Get(freq, w) + 1];
      degree := degree[w := Get(degree, w) + (|words| - 1)];
    }
    assert words[..|words|] == words;
    forall w ensures Counted(freq, degree, w, Freq(ps[..i], w) + CountIn(words, w),
                             LengthSum(ps[..i], w) + CountIn(words, w) * |words|)
    {
    }
    WholePhrase(freq, degree, ps, i);
  }

  lemma WholePhrase(freq: map<string, nat>, degree: map<string, nat>, ps: seq<Phrase>, i: nat)
    requires i < |ps| && PartTables(freq, degree, ps[..i], ps[i], |ps[i]|)
    ensures TablesOf(freq, degree, ps[..i + 1])
  {
    var more, part := ps[..i + 1], ps[..i];
    forall w ensures Counted(freq, degree, w, Freq(more, w), LengthSum(more, w)) {
      FreqNext(ps, i, w);
      assert Counted(freq, degree, w, Freq(part, w) + CountIn(ps[i], w),
                     LengthSum(part, w) + CountIn(ps[i], w) * |ps[i]|);
    }
  }

  /** Counting one more word of a phrase. */
  lemma PartNext(freq: map<string, nat>, degree: map<string, nat>, ps: seq<Phrase>, words: Phrase, j: nat)
    requires j < |words| && PartTables(freq, degree, ps, words[..j], |words|)
    ensures var w := words[j];
            PartTables(freq[w := Get(freq, w) + 1], degree[w := Get(degree, w) + (|words| - 1)],
                       ps, words[..j + 1], |words|)
  {
    var w, q, n := words[j], words[..j], |words|;
    var f, d, r := freq[w := Get(freq, w) + 1], degree[w := Get(degree, w) + (n - 1)], words[..j + 1];
    assert r[..j] == q;
    forall v ensures Counted(f, d, v, Freq(ps, v) + CountIn(r, v), LengthSum(ps, v) + CountIn(r, v) * n) {
      assert Counted(freq, degree, v, Freq(ps, v) + CountIn(q, v), LengthSum(ps, v) + CountIn(q, v) * n);
      OneMore(CountIn(q, v), n);
    }
  }

  lemma OneMore(c: nat, n: nat)
    ensures (c + 1) * n == c * n + n
  {
  }

  method ScoreWords(ps: seq<Phrase>, freq: map<string, nat>, degree: map<string, nat>)
    returns (scores: map<string, real>)
    requires TablesOf(freq, degree, ps)
    ensures forall w :: w in scores <==> Freq(ps, w) > 0
    ensures forall w | w in scores :: scores[w] == Score(ps, w)
  {
    scores := map[];
    var pending := freq.Keys;
    while pending != {}
      invariant pending <= freq.Keys && scores.Keys == freq.Keys - pending
      invariant forall w | w in scores :: Freq(ps, w) > 0 && scores[w] == Score(ps, w)
      decreases pending
    {
      var w :| w in pending;
      assert Counted(freq, degree, w, Freq(ps, w), LengthSum(ps, w));
      scores := scores[w := (Get(degree, w) + freq[w]) as real / freq[w] as real];
      pending := pending - {w};
    }
    forall w ensures w in scores <==> Freq(ps, w) > 0 {
      assert Counted(freq, degree, w, Freq(ps, w), LengthSum(ps, w));
    }
  }

  method ScorePhrases(ps: seq<Phrase>, words: map<string, real>) returns (scores: map<Phrase, real>)
    requires forall w :: w in words <==> Freq(ps, w) > 0
    requires forall w | w in words :: words[w] == Score(ps, w)
    ensures scores.Keys == set p | p in ps
    ensures forall p | p in scores :: WordsOccur(ps, p) && scores[p] == PhraseScore(ps, p)
  {
    scores := map[];
    for i := 0 to |ps|
      invariant scores.Keys == set p | p in ps[..i]
      invariant forall p | p in scores :: WordsOccur(ps, p) && scores[p] == PhraseScore(ps, p)
    {
      CandidateOccurs(ps, i);
      var score := ScoreOne(ps, ps[i], words);
      scores := scores[ps[i] := score];
      assert ps[..i + 1] == ps[..i] + [ps[i]];
    }
    assert ps[..|ps|] == ps;
  }

  method ScoreOne(ps: seq<Phrase>, p: Phrase, words: map<string, real>) returns (score: real)
    requires WordsOccur(ps, p) && forall w :: w in words <==> Freq(ps, w) > 0
    requires forall w | w in words :: words[w] == Score(ps, w)
    ensures score == PhraseScore(ps, p)
  {
    score := 0.0;
    for j := 0 to |p|
      invariant score == PhraseScore(ps, p[..j])
    {
      assert p[..j + 1][..j] == p[..j];
      score := score + words[p[j]];
    }
    assert p[..|p|] == p;
  }

  // ------------------------------------------------------------------ ranking

  ghost predicate SortedDown(rs: seq<KeywordScore>) {
    forall i, j | 0 <= i < j < |rs| :: rs[i].score >= rs[j].score
  }

  /** Each phrase once, with its score. */
  ghost predicate Lists(rs: seq<KeywordScore>, scores: map<Phrase, real>) {
    && (forall i | 0 <= i < |rs| :: rs[i].keyword in scores && rs[i].score == scores[rs[i].keyword])
    && (forall i, j | 0 <= i < j < |rs| :: rs[i].keyword != rs[j].keyword)
  }

  ghost predicate Listed(rs: seq<KeywordScore>, p: Phrase) {
    exists j :: 0 <= j < |rs| && rs[j].keyword == p
  }

  /** The best topN phrases: sorted, as many as there are up to topN, and no phrase left out
      beats one that is in. */
  ghost predicate IsRanking(rs: seq<KeywordScore>, scores: map<Phrase, real>, topN: nat) {
    && Lists(rs, scores) && SortedDown(rs)
    && |rs| == Min(topN, |scores|)
    && forall p, i | p in scores && 0 <= i < |rs| && !Listed(rs, p) :: scores[p] <= rs[i].score
  }

  /** Where a score goes in a sorted list. */
  method Place(rs: seq<KeywordScore>, score: real) returns (at: nat)
    requires SortedDown(rs)
    ensures at <= |rs|
    ensures forall i | 0 <= i < at :: rs[i].score >= score
    ensures forall i | at <= i < |rs| :: rs[i].score <= score
  {
    at := 0;
    while at < |rs| && rs[at].score >= score
      invariant at <= |rs| && forall i | 0 <= i < at :: rs[i].score >= score
    {
      at := at + 1;
    }
  }

  /** Lists the phrases in any order the map yields them, sorted by score. */
  method SortByScore(scores: map<Phrase, real>) returns (rs: seq<KeywordScore>)
    ensures Lists(rs, scores) && SortedDown(rs) && |rs| == |scores|
    ensures forall p | p in scores :: Listed(rs, p)
  {
    rs := [];
    var pending := scores.Keys;
    while pending != {}
      invariant SortedSoFar(rs, pending, scores)
      decreases pending
    {
      var p :| p in pending;
      rs := PutOne(rs, pending, p, scores);
      pending := pending - {p};
    }
  }

  /** All phrases but the pending ones are listed, in order. */
  ghost predicate SortedSoFar(rs: seq<KeywordScore>, pending: set<Phrase>, scores: map<Phrase, real>) {
    && pending <= scores.Keys && |rs| + |pending| == |scores|
    && Lists(rs, scores) && SortedDown(rs)
    && (forall p | p in pending :: !Listed(rs, p))
    && (forall p | p in scores && p !in pending :: Listed(rs, p))
  }

  method PutOne(before: seq<KeywordScore>, ghost pending: set<Phrase>, p: Phrase, scores: map<Phrase, real>)
    returns (rs: seq<KeywordScore>)
    requires SortedSoFar(before, pending, scores) && p in pending
    ensures SortedSoFar(rs, pending - {p}, scores)
  {
    var x := KeywordScore(p, scores[p]);
    var at := Place(before, x.score);
    rs := before[..at] + [x] + before[at..];
    ConcatPutsIn(before, at, x);
    PutInSorted(before, rs, at, x);
    PutInLists(before, rs, at, x, scores);
    forall q ensures Listed(rs, q) <==> Listed(before, q) || q == p {
      PutInListed(before, rs, at, x, q);
    }
  }

  /** rs is before with x put in at position at. */
  ghost predicate PutIn(before: seq<KeywordScore>, rs: seq<KeywordScore>, at: nat, x: KeywordScore) {
    && at <= |before| && |rs| == |before| + 1 && rs[at] == x
    && (forall i | 0 <= i < at :: rs[i] == before[i])
    && (forall i | at < i < |rs| :: rs[i] == before[i - 1])
  }

  lemma ConcatPutsIn(before: seq<KeywordScore>, at: nat, x: KeywordScore)
    requires at <= |before|
    ensures PutIn(before, before[..at] + [x] + before[at..], at, x)
  {
  }

  lemma PutInSorted(before: seq<KeywordScore>, rs: seq<KeywordScore>, at: nat, x: KeywordScore)
    requires PutIn(before, rs, at, x) && SortedDown(before)
    requires forall i | 0 <= i < at :: before[i].score >= x.score
    requires forall i | at <= i < |before| :: before[i].score <= x.score
    ensures SortedDown(rs)
  {
  }

  lemma PutInListed(before: seq<KeywordScore>, rs: seq<KeywordScore>, at: nat, x: KeywordScore, p: Phrase)
    requires PutIn(before, rs, at, x)
    ensures Listed(rs, p) <==> Listed(before, p) || p == x.keyword
  {
    if Listed(before, p) {
      var j :| 0 <= j < |before| && before[j].keyword == p;
      assert rs[if j < at then j else j + 1] == before[j];
    }
    if p == x.keyword {
      assert rs[at].keyword == p;
    }
  }

  lemma PutInLists(
    before: seq<KeywordScore>, rs: seq<KeywordScore>, at: nat, x: KeywordScore, scores: map<Phrase, real>)
    requires PutIn(before, rs, at, x) && Lists(before, scores) && !Listed(before, x.keyword)
    requires x.keyword in scores && x.score == scores[x.keyword]
    ensures Lists(rs, scores)
  {
  }

  /** What a cut leaves out comes after what it leaves in. */
  lemma CutOff(all: seq<KeywordScore>, n: nat, p: Phrase, i: nat)
    requires SortedDown(all) && n <= |all| && Listed(all, p) && !Listed(all[..n], p) && i < n
    ensures exists k :: i < k < |all| && all[k].keyword == p && all[k].score <= all[i].score
  {
  }

  method Rank(scores: map<Phrase, real>, topN: nat) returns (rs: seq<KeywordScore>)
    ensures IsRanking(rs, scores, topN)
  {
    rs := SortByScore(scores);
    if |rs| > topN {
      ghost var all := rs;
      rs := rs[..topN];
      forall p, i | p in scores && 0 <= i < |rs| && !Listed(rs, p) ensures scores[p] <= rs[i].score {
        CutOff(all, topN, p, i);
      }
    }
  }

  /** Of two rankings of the same scores neither beats the other anywhere: whatever order
      the maps yield and however ties fall, the list of scores is the same. */
  lemma ScoresDetermined(rs: seq<KeywordScore>, qs: seq<KeywordScore>, scores: map<Phrase, real>, topN: nat, i: nat)
    requires IsRanking(rs, scores, topN) && IsRanking(qs, scores, topN) && i < |rs|
    ensures |qs| == |rs| && rs[i].score == qs[i].score
  {
    NotBeaten(rs, qs, scores, topN, i);
    NotBeaten(qs, rs, scores, topN, i);
  }

  lemma NotBeaten(rs: seq<KeywordScore>, qs: seq<KeywordScore>, scores: map<Phrase, real>, topN: nat, i: nat)
    requires IsRanking(rs, scores, topN) && IsRanking(qs, scores, topN) && i < |rs|
    ensures |qs| == |rs| && rs[i].score <= qs[i].score
  {
    var k := Outsider(qs[..i], rs[..i + 1]);
    assert rs[..i + 1][k] == rs[k] && rs[i].score <= rs[k].score;
    OutsideIsLower(qs, scores, topN, i, rs[k].keyword);
  }

  /** A phrase that is not among the first i scores no more than entry i. */
  lemma OutsideIsLower(qs: seq<KeywordScore>, scores: map<Phrase, real>, topN: nat, i: nat, p: Phrase)
    requires IsRanking(qs, scores, topN) && i < |qs| && p in scores && !Listed(qs[..i], p)
    ensures scores[p] <= qs[i].score
  {
  }

  ghost function KeywordsOf(rs: seq<KeywordScore>): set<Phrase> {
    set i | 0 <= i < |rs| :: rs[i].keyword
  }

  lemma {:induction false} KeywordCount(rs: seq<KeywordScore>)
    ensures |KeywordsOf(rs)| <= |rs|
    ensures (forall i, j | 0 <= i < j < |rs| :: rs[i].keyword != rs[j].keyword) ==> |KeywordsOf(rs)| == |rs|
  {
    if rs != [] {
      var n := |rs| - 1;
      KeywordCount(rs[..n]);
      assert KeywordsOf(rs) == KeywordsOf(rs[..n]) + {rs[n].keyword};
    }
  }

  /** m + 1 distinct keywords do not fit into m places. */
  lemma Outsider(few: seq<KeywordScore>, many: seq<KeywordScore>) returns (k: nat)
    requires |many| > |few| && forall i, j | 0 <= i < j < |many| :: many[i].keyword != many[j].keyword
    ensures k < |many| && !Listed(few, many[k].keyword)
  {
    KeywordCount(few);
    KeywordCount(many);
    if KeywordsOf(many) <= KeywordsOf(few) {
      SubsetSize(KeywordsOf(many), KeywordsOf(few));
    }
    var p :| p in KeywordsOf(many) && p !in KeywordsOf(few);
    k :| k < |many| && many[k].keyword == p;
  }

  /** ps are the candidate phrases of the sentences. */
  ghost predicate ArePhrases(ps: seq<Phrase>, sentences: seq<seq<string>>, lex: Lexicon) {
    NoneEmpty(ps) && Flatten(ps) == ContentOfAll(sentences, lex) && Offsets(ps) == StartsInAll(sentences, lex)
  }

  /** scores gives every phrase of the list its score. */
  ghost predicate AreScores(scores: map<Phrase, real>, ps: seq<Phrase>) {
    && scores.Keys == (set p | p in ps)
    && forall p | p in scores :: WordsOccur(ps, p) && scores[p] == PhraseScore(ps, p)
  }

  /** rs ranks the candidate phrases of the sentences. */
  ghost predicate AreKeywords(rs: seq<KeywordScore>, sentences: seq<seq<string>>, lex: Lexicon, topN: nat) {
    exists ps, scores :: ArePhrases(ps, sentences, lex) && AreScores(scores, ps) && IsRanking(rs, scores, topN)
  }

  /** Two extractions from one text may differ in how ties fall, but not in their scores. */
  lemma KeywordsDetermined(
    rs: seq<KeywordScore>, qs: seq<KeywordScore>, sentences: seq<seq<string>>, lex: Lexicon, topN: nat)
    requires AreKeywords(rs, sentences, lex, topN) && AreKeywords(qs, sentences, lex, topN)
    ensures |rs| == |qs| && forall i | 0 <= i < |rs| :: rs[i].score == qs[i].score
  {
    var ps, s :| ArePhrases(ps, sentences, lex) && AreScores(s, ps) && IsRanking(rs, s, topN);
    var os, t :| ArePhrases(os, sentences, lex) && AreScores(t, os) && IsRanking(qs, t, topN);
    PhrasesDetermined(ps, os);
    assert s == t;
    forall i | 0 <= i < |rs| ensures rs[i].score == qs[i].score {
      ScoresDetermined(rs, qs, s, topN, i);
    }
  }

  /** ExtractKeywords on the word lists of a text's sentences. */
  method ExtractKeywords(sentences: seq<seq<string>>, lex: Lexicon, blank: bool, topN: int)
    returns (rs: seq<KeywordScore>)
    ensures topN <= 0 || blank ==> rs == []
    ensures topN > 0 && !blank ==> AreKeywords(rs, sentences, lex, topN)
  {
    if topN <= 0 || blank {
      return [];
    }
    var phrases := CandidatePhrases(sentences, lex);
    var freq, degree := CountWords(phrases);
    var words := ScoreWords(phrases, freq, degree);
    var scores := ScorePhrases(phrases, words);
    rs := Rank(scores, topN);
    assert ArePhrases(phrases, sentences, lex) && AreScores(scores, phrases);
  }
}
