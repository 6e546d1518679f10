/** The two text loops of the nlp package: the sentence splitter with its honorific
    exceptions (sentence_splitter.go) and the line loop that joins hyphenated lines
    (nlp/normalizer.go). */
module Splitting {
  import opened Domain

  /** Runes or lines from start up to end. */
  datatype Stretch = Stretch(start: nat, end: nat)

  // ------------------------------------------------------------------- sentences

  /** Taken as given: white space, trimming, and whether the last word of a text, without its
      punctuation, is on the honorific list. */
  datatype Sentences = Sentences(space: char -> bool, trim: string -> string, titled: string -> bool)

  predicate EndsHere(s: string, cfg: Sentences, i: nat)
    requires i < |s|
  {
    (s[i] == '.' || s[i] == '!' || s[i] == '?') && (i + 1 < |s| ==> cfg.space(s[i + 1]))
  }

  /** A sentence that began at start ends with rune i. */
  predicate CutsAt(s: string, cfg: Sentences, start: nat, i: nat)
    requires start <= i < |s|
  {
    EndsHere(s, cfg, i) && !cfg.titled(cfg.trim(s[start..i + 1]))
  }

  /** A span reaches to the first cut after its start. */
  ghost predicate IsSentence(s: string, cfg: Sentences, p: Stretch) {
    && p.start < p.end <= |s|
    && (forall i | p.start <= i < p.end - 1 :: !CutsAt(s, cfg, p.start, i))
    && (p.end < |s| ==> CutsAt(s, cfg, p.start, p.end - 1))
  }

  /** The spans lie end to end from 0 on. */
  ghost predicate EndToEnd(ps: seq<Stretch>, end: nat) {
    && (ps == [] ==> end == 0) && (ps != [] ==> ps[0].start == 0 && ps[|ps| - 1].end == end)
    && forall k | 0 < k < |ps| :: ps[k].start == ps[k - 1].end
  }

  ghost predicate IsSplit(s: string, cfg: Sentences, ps: seq<Stretch>) {
    EndToEnd(ps, |s|) && forall k | 0 <= k < |ps| :: IsSentence(s, cfg, ps[k])
  }

  /** The text determines its sentences. */
  lemma {:induction false} SplitUnique(s: string, cfg: Sentences, ps: seq<Stretch>, qs: seq<Stretch>, k: nat)
    requires IsSplit(s, cfg, ps) && IsSplit(s, cfg, qs) && k <= |ps|
    ensures k <= |qs| && forall j | 0 <= j < k :: ps[j] == qs[j]
  {
    if k > 0 {
      SplitUnique(s, cfg, ps, qs, k - 1);
      assert IsSentence(s, cfg, ps[k - 1]);
      assert k > 1 ==> ps[k - 2] == qs[k - 2];
      assert IsSentence(s, cfg, qs[k - 1]);
    }
  }

  ghost function Rejoin(s: string, ps: seq<Stretch>): string
    requires forall k | 0 <= k < |ps| :: ps[k].start <= ps[k].end <= |s|
  {
    if ps == [] then "" else Rejoin(s, ps[..|ps| - 1]) + s[ps[|ps| - 1].start..ps[|ps| - 1].end]
  }

  /** Nothing of the text is lost or moved: the spans joined are the text. */
  lemma {:induction false} RejoinsText(s: string, ps: seq<Stretch>, end: nat)
    requires EndToEnd(ps, end) && end <= |s|
    requires forall k | 0 <= k < |ps| :: ps[k].start <= ps[k].end <= |s|
    ensures Rejoin(s, ps) == s[..end]
  {
    if ps != [] {
      var n := |ps| - 1;
      var q, at := ps[..n], ps[n].start;
      assert EndToEnd(q, at) by {
        assert n > 0 ==> q[0] == ps[0] && q[n - 1] == ps[n - 1];
        assert forall k | 0 <= k < n :: q[k] == ps[k];
      }
      RejoinsText(s, q, at);
      assert s[..at] + s[at..end] == s[..end];
    }
  }

  ghost function Texts(s: string, cfg: Sentences, ps: seq<Stretch>): seq<string>
    requires forall k | 0 <= k < |ps| :: ps[k].start <= ps[k].end <= |s|
  {
    seq(|ps|, k requires 0 <= k < |ps| => cfg.trim(s[ps[k].start..ps[k].end]))
  }

  /** Scanned up to i: closed spans end at start, and no cut since. */
  ghost predicate Open(s: string, cfg: Sentences, ps: seq<Stretch>, start: nat, i: nat) {
    && start <= i <= |s| && EndToEnd(ps, start)
    && (forall k | 0 <= k < |ps| :: IsSentence(s, cfg, ps[k]))
    && forall j | start <= j < i :: !CutsAt(s, cfg, start, j)
  }

  lemma SentenceClosed(s: string, cfg: Sentences, ps: seq<Stretch>, start: nat, i: nat)
    requires Open(s, cfg, ps, start, i) && i < |s|
    requires CutsAt(s, cfg, start, i) || i + 1 == |s|
    ensures var qs := ps + [Stretch(start, i + 1)];
            EndToEnd(qs, i + 1) && forall k | 0 <= k < |qs| :: IsSentence(s, cfg, qs[k])
  {
  }

  lemma TextAppended(s: string, cfg: Sentences, ps: seq<Stretch>, p: Stretch)
    requires forall k | 0 <= k < |ps| :: ps[k].start <= ps[k].end <= |s|
    requires p.start <= p.end <= |s|
    ensures Texts(s, cfg, ps + [p]) == Texts(s, cfg, ps) + [cfg.trim(s[p.start..p.end])]
  {
  }

  /** The sentences of a split; a remainder that trims to nothing is skipped. */
  ghost predicate AreSentences(out: seq<string>, s: string, cfg: Sentences, ps: seq<Stretch>)
    requires IsSplit(s, cfg, ps)
  {
    if ps != [] && !CutsAt(s, cfg, ps[|ps| - 1].start, |s| - 1) && cfg.trim(s[ps[|ps| - 1].start..|s|]) == ""
    then out == Texts(s, cfg, ps[..|ps| - 1])
    else out == Texts(s, cfg, ps)
  }

  /** The split in terms of the text: each sentence but the last ends with a full stop, an
      exclamation or a question mark before white space, and not on an honorific; where a mark
      before white space ends none, the text since the sentence began ends on an honorific; and
      the result lists the sentences, trimmed, without a remainder that is blank. */
  lemma SplitExactly(out: seq<string>, s: string, cfg: Sentences, ps: seq<Stretch>, k: nat)
    requires IsSplit(s, cfg, ps) && AreSentences(out, s, cfg, ps) && k < |ps|
    ensures ps[k].start < ps[k].end <= |s|
    ensures ps[k].end < |s| ==>
              && s[ps[k].end - 1] in {'.', '!', '?'} && cfg.space(s[ps[k].end])
              && !cfg.titled(cfg.trim(s[ps[k].start..ps[k].end]))
    ensures forall i: nat | ps[k].start <= i < ps[k].end - 1 && s[i] in {'.', '!', '?'} && cfg.space(s[i + 1]) ::
              cfg.titled(cfg.trim(s[ps[k].start..i + 1]))
    ensures |ps| - 1 <= |out| <= |ps| && (k < |out| ==> out[k] == cfg.trim(s[ps[k].start..ps[k].end]))
    ensures |out| < |ps| <==>
              var last := cfg.trim(s[ps[|ps| - 1].start..|s|]);
              last == "" && !(s[|s| - 1] in {'.', '!', '?'} && !cfg.titled(last))
  {
    var n := |ps| - 1;
    assert IsSentence(s, cfg, ps[k]) && IsSentence(s, cfg, ps[n]);
    forall i: nat | ps[k].start <= i < ps[k].end - 1 && s[i] in {'.', '!', '?'} && cfg.space(s[i + 1])
      ensures cfg.titled(cfg.trim(s[ps[k].start..i + 1]))
    {
      assert !CutsAt(s, cfg, ps[k].start, i);
    }
  }

  /** SplitSentences on a trimmed text. */
  method SplitSentences(s: string, cfg: Sentences) returns (sentences: seq<string>)
    ensures exists ps :: IsSplit(s, cfg, ps) && AreSentences(sentences, s, cfg, ps)
  {
    var start;
    ghost var ps;
    sentences, start, ps := ScanSentences(s, cfg);
    if start < |s| {
      var remainder := cfg.trim(s[start..|s|]);
      SentenceClosed(s, cfg, ps, start, |s| - 1);
      TextAppended(s, cfg, ps, Stretch(start, |s|));
      ps := ps + [Stretch(start, |s|)];
      if remainder != "" {
        sentences := sentences + [remainder];
      }
    }
    assert IsSplit(s, cfg, ps) && AreSentences(sentences, s, cfg, ps);
  }

  /** The rune loop. */
  method ScanSentences(s: string, cfg: Sentences) returns (sentences: seq<string>, start: nat, ghost ps: seq<Stretch>)
    ensures Open(s, cfg, ps, start, |s|) && sentences == Texts(s, cfg, ps)
    ensures start == |s| && ps != [] ==> CutsAt(s, cfg, ps[|ps| - 1].start, |s| - 1)
  {
    sentences, ps, start := [], [], 0;
    for i := 0 to |s|
      invariant Open(s, cfg, ps, start, i) && sentences == Texts(s, cfg, ps)
      invariant ps != [] ==> ps[|ps| - 1].start < start <= i && CutsAt(s, cfg, ps[|ps| - 1].start, start - 1)
    {
      if EndsHere(s, cfg, i) {
        var segment := cfg.trim(s[start..i + 1]);
        if !cfg.titled(segment) {
          SentenceClosed(s, cfg, ps, start, i);
          TextAppended(s, cfg, ps, Stretch(start, i + 1));
          sentences, ps := sentences + [segment], ps + [Stretch(start, i + 1)];
          start := i + 1;
        }
      }
    }
  }

  // ----------------------------------------------------------- hyphenated lines

  /** Taken as given: trimming, and squeezing white space to single blanks. */
  datatype Tidy = Tidy(trim: string -> string, squeeze: string -> string)

  predicate IsBlank(line: string, t: Tidy) {
    t.trim(line) == ""
  }

  predicate Hyphenated(text: string) {
    text != "" && text[|text| - 1] == '-'
  }

  /** Line a is broken at a hyphen and has something to be joined with. */
  predicate Joins(lines: seq<string>, t: Tidy, a: nat)
    requires a < |lines|
  {
    Hyphenated(t.trim(lines[a])) && a + 1 < |lines| && !IsBlank(lines[a + 1], t)
  }

  /** A group is one line, or two when the first is broken; it never begins with a blank. */
  ghost predicate IsGroup(lines: seq<string>, t: Tidy, p: Stretch) {
    && p.start < |lines| && !IsBlank(lines[p.start], t)
    && p.end == p.start + if Joins(lines, t, p.start) then 2 else 1
  }

  ghost predicate InGroup(ps: seq<Stretch>, i: int) {
    exists k :: 0 <= k < |ps| && ps[k].start <= i < ps[k].end
  }

  /** Groups in order, without overlap, that leave out blank lines only. */
  ghost predicate AreGroups(lines: seq<string>, t: Tidy, ps: seq<Stretch>, end: nat) {
    && end <= |lines|
    && (forall k | 0 <= k < |ps| :: IsGroup(lines, t, ps[k]) && ps[k].end <= end)
    && (forall j, k | 0 <= j < k < |ps| :: ps[j].end <= ps[k].start)
    && forall i | 0 <= i < end && !IsBlank(lines[i], t) :: InGroup(ps, i)
  }

  function GroupText(lines: seq<string>, t: Tidy, p: Stretch): string
    requires p.start < |lines| && p.end <= |lines|
  {
    var first := t.trim(lines[p.start]);
    t.squeeze(
      if p.end == p.start + 2 && first != "" then first[..|first| - 1] + t.trim(lines[p.start + 1]) else first)
  }

  ghost predicate GroupTexts(out: seq<string>, lines: seq<string>, t: Tidy, ps: seq<Stretch>) {
    |out| == |ps| && forall k | 0 <= k < |ps| :: GroupTextAt(out, lines, t, ps, k)
  }

  ghost predicate GroupTextAt(out: seq<string>, lines: seq<string>, t: Tidy, ps: seq<Stretch>, k: int)
    requires 0 <= k < |out| == |ps|
  {
    ps[k].start < |lines| && ps[k].end <= |lines| && out[k] == GroupText(lines, t, ps[k])
  }

  lemma GroupAdded(lines: seq<string>, t: Tidy, ps: seq<Stretch>, i: nat, p: Stretch)
    requires AreGroups(lines, t, ps, i) && p.start == i && IsGroup(lines, t, p) && p.end <= |lines|
    ensures AreGroups(lines, t, ps + [p], p.end)
  {
    var qs := ps + [p];
    forall j | 0 <= j < p.end && !IsBlank(lines[j], t) ensures InGroup(qs, j) {
      if j < i {
        var k :| 0 <= k < |ps| && ps[k].start <= j < ps[k].end;
        assert qs[k] == ps[k];
      } else {
        assert qs[|ps|] == p;
      }
    }
  }

  lemma BlankSkipped(lines: seq<string>, t: Tidy, ps: seq<Stretch>, i: nat)
    requires AreGroups(lines, t, ps, i) && i < |lines| && IsBlank(lines[i], t)
    ensures AreGroups(lines, t, ps, i + 1)
  {
  }

  /** The groups in terms of the lines: a line that ends with a hyphen and has a next line that
      is not blank is joined with it, the hyphen gone; any other stands alone. */
  lemma GroupsExactly(out: seq<string>, lines: seq<string>, t: Tidy, ps: seq<Stretch>, k: nat)
    requires AreGroups(lines, t, ps, |lines|) && GroupTexts(out, lines, t, ps) && k < |ps|
    ensures |out| == |ps| && IsRead(out[k], lines, t, ps[k])
  {
    assert IsGroup(lines, t, ps[k]) && GroupTextAt(out, lines, t, ps, k);
    GroupExactly(out[k], lines, t, ps[k]);
  }

  ghost predicate IsRead(text: string, lines: seq<string>, t: Tidy, p: Stretch) {
    && p.start < |lines| && t.trim(lines[p.start]) != ""
    && var first := t.trim(lines[p.start]);
       if first[|first| - 1] == '-' && p.start + 1 < |lines| && t.trim(lines[p.start + 1]) != "" then
         p.end == p.start + 2 && text == t.squeeze(first[..|first| - 1] + t.trim(lines[p.start + 1]))
       else
         p.end == p.start + 1 && text == t.squeeze(first)
  }

  lemma GroupExactly(text: string, lines: seq<string>, t: Tidy, p: Stretch)
    requires IsGroup(lines, t, p) && p.end <= |lines| && text == GroupText(lines, t, p)
    ensures IsRead(text, lines, t, p)
  {
  }

  /** The line loop: a broken line swallows the next one, blank lines vanish, and every other
      line ends up in exactly one line of the result, in order. */
  method JoinHyphenated(lines: seq<string>, t: Tidy) returns (out: seq<string>)
    ensures exists ps :: AreGroups(lines, t, ps, |lines|) && GroupTexts(out, lines, t, ps)
  {
    out := [];
    ghost var ps := [];
    var i := 0;
    while i < |lines|
      invariant AreGroups(lines, t, ps, i) && GroupTexts(out, lines, t, ps)
    {
      if t.trim(lines[i]) == "" {
        BlankSkipped(lines, t, ps, i);
        i := i + 1;
      } else {
        var text, next := ReadGroup(lines, t, i);
        GroupAdded(lines, t, ps, i, Stretch(i, next));
        TextAdded(out, lines, t, ps, Stretch(i, next), text);
        out, ps, i := out + [text], ps + [Stretch(i, next)], next;
      }
    }
  }

  /** The body of the loop for a line that is not blank. */
  method ReadGroup(lines: seq<string>, t: Tidy, i: nat) returns (text: string, next: nat)
    requires i < |lines| && !IsBlank(lines[i], t)
    ensures IsGroup(lines, t, Stretch(i, next)) && next <= |lines| && text == GroupText(lines, t, Stretch(i, next))
  {
    var trimmed := t.trim(lines[i]);
    next := i + 1;
    if Hyphenated(trimmed) && i + 1 < |lines| {
      var nextLine := t.trim(lines[i + 1]);
      if nextLine != "" {
        trimmed := trimmed[..|trimmed| - 1] + nextLine;
        next := i + 2;
      }
    }
    text := t.squeeze(trimmed);
  }

  lemma TextAdded(out: seq<string>, lines: seq<string>, t: Tidy, ps: seq<Stretch>, p: Stretch, text: string)
    requires GroupTexts(out, lines, t, ps) && p.start < |lines| && p.end <= |lines| && text == GroupText(lines, t, p)
    ensures GroupTexts(out + [text], lines, t, ps + [p])
  {
    var more, qs := out + [text], ps + [p];
    forall k | 0 <= k < |qs| ensures GroupTextAt(more, lines, t, qs, k) {
      if k < |ps| {
        assert GroupTextAt(out, lines, t, ps, k);
      }
    }
  }

  lemma StartsInOrder(lines: seq<string>, t: Tidy, ps: seq<Stretch>, end: nat, a: nat, b: nat)
    requires AreGroups(lines, t, ps, end) && a <= b < |ps|
    ensures ps[a].start <= ps[b].start
  {
    assert IsGroup(lines, t, ps[a]);
  }

  /** Given k equal groups, group k of ps lies in no earlier group of qs. */
  lemma LaterGroup(lines: seq<string>, t: Tidy, ps: seq<Stretch>, qs: seq<Stretch>, k: nat) returns (j: nat)
    requires AreGroups(lines, t, ps, |lines|) && AreGroups(lines, t, qs, |lines|)
    requires k < |ps| && k <= |qs| && forall j | 0 <= j < k :: ps[j] == qs[j]
    ensures k <= j < |qs| && qs[j].start <= ps[k].start
  {
    assert IsGroup(lines, t, ps[k]);
    assert InGroup(qs, ps[k].start);
    j :| j < |qs| && qs[j].start <= ps[k].start < qs[j].end;
    assert forall m: nat | m < k :: ps[m].end <= ps[k].start;
  }

  lemma NextGroup(lines: seq<string>, t: Tidy, ps: seq<Stretch>, qs: seq<Stretch>, k: nat)
    requires AreGroups(lines, t, ps, |lines|) && AreGroups(lines, t, qs, |lines|)
    requires k < |ps| && k <= |qs| && forall j | 0 <= j < k :: ps[j] == qs[j]
    ensures k < |qs| && qs[k].start <= ps[k].start
  {
    var j := LaterGroup(lines, t, ps, qs, k);
    StartsInOrder(lines, t, qs, |lines|, k, j);
  }

  lemma SameGroup(lines: seq<string>, t: Tidy, ps: seq<Stretch>, qs: seq<Stretch>, k: nat)
    requires AreGroups(lines, t, ps, |lines|) && AreGroups(lines, t, qs, |lines|)
    requires k < |ps| && k <= |qs| && forall j | 0 <= j < k :: ps[j] == qs[j]
    ensures k < |qs| && ps[k] == qs[k]
  {
    NextGroup(lines, t, ps, qs, k);
    NextGroup(lines, t, qs, ps, k);
    assert IsGroup(lines, t, ps[k]) && IsGroup(lines, t, qs[k]);
  }

  lemma {:induction false} GroupsAgree(lines: seq<string>, t: Tidy, ps: seq<Stretch>, qs: seq<Stretch>, k: nat)
    requires AreGroups(lines, t, ps, |lines|) && AreGroups(lines, t, qs, |lines|) && k < |ps|
    ensures k < |qs| && ps[k] == qs[k]
    decreases k
  {
    forall j: nat | j < k ensures j < |qs| && ps[j] == qs[j] {
      GroupsAgree(lines, t, ps, qs, j);
    }
    if k > 0 {
      GroupsAgree(lines, t, ps, qs, k - 1);
    }
    SameGroup(lines, t, ps, qs, k);
  }

  /** The lines determine the groups: a broken line that was itself swallowed joins nothing. */
  lemma GroupsUnique(lines: seq<string>, t: Tidy, ps: seq<Stretch>, qs: seq<Stretch>)
    requires AreGroups(lines, t, ps, |lines|) && AreGroups(lines, t, qs, |lines|)
    ensures ps == qs
  {
    forall k: nat | k < |ps| ensures k < |qs| && ps[k] == qs[k] {
      GroupsAgree(lines, t, ps, qs, k);
    }
    if |ps| < |qs| {
      GroupsAgree(lines, t, qs, ps, |qs| - 1);
    } else if |qs| < |ps| {
      GroupsAgree(lines, t, ps, qs, |ps| - 1);
    }
  }
}
