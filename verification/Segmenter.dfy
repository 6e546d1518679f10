/** The document segmenter (segmenter.go): its four strategies on top of unit packing and
    sliding windows. */
module Segmenter {
  import opened Domain
  import opened Pages
  import Packing
  import Windows

  datatype Strategy = Exact | Paragraph | Sentence | CharacterBased

  /** A byte-pair encoder; either direction may fail. */
  datatype Encoder = Encoder(encode: string -> Option<seq<nat>>, decode: seq<nat> -> Option<string>)

  /** Settings as the constructor leaves them, and tokens, which counts tokens of a text. */
  datatype Config = Config(
    target: nat, overlap: nat, strategy: Strategy, encoder: Option<Encoder>, tokens: string -> nat, ops: TextOps)

  /** Non-positive settings fall back to 450 and 80, an unknown strategy to paragraphs. */
  function NewConfig(
    target: int, overlap: int, strategy: Option<Strategy>, encoder: Option<Encoder>,
    tokens: string -> nat, ops: TextOps): (c: Config)
    ensures c.target > 0 && c.overlap > 0
  {
    Config(if target <= 0 then 450 else target, if overlap <= 0 then 80 else overlap,
           if strategy.Some? then strategy.value else Paragraph, encoder, tokens, ops)
  }

  predicate Blank(x: ExtractedLine, ops: TextOps) {
    ops.trim(x.text) == ""
  }

  // ------------------------------------------------------------------ paragraphs

  /** lines[a..b] is a paragraph: a maximal run of lines that are not blank. */
  ghost predicate IsParagraph(lines: seq<ExtractedLine>, ops: TextOps, a: nat, b: nat) {
    && a < b <= |lines|
    && (forall i | a <= i < b :: !Blank(lines[i], ops))
    && (a > 0 ==> Blank(lines[a - 1], ops))
    && (b < |lines| ==> Blank(lines[b], ops))
  }

  /** The paragraphs in order, and no line that is not blank outside them. */
  ghost predicate AreParagraphs(lines: seq<ExtractedLine>, ops: TextOps, ps: seq<Packing.Span>) {
    && (forall k | 0 <= k < |ps| :: IsParagraph(lines, ops, ps[k].start, ps[k].end))
    && (forall j, k | 0 <= j < k < |ps| :: ps[j].end < ps[k].start)
    && (forall i | 0 <= i < |lines| && !Blank(lines[i], ops) :: Covered(ps, i))
  }

  ghost predicate Covered(ps: seq<Packing.Span>, i: int) {
    exists k :: 0 <= k < |ps| && ps[k].start <= i < ps[k].end
  }

  /** A paragraph's text: its lines, trimmed, with a blank between neighbours; and its pages. */
  ghost predicate IsParagraphUnit(u: Packing.TextUnit, lines: seq<ExtractedLine>, ops: TextOps, p: Packing.Span)
    requires p.start < p.end <= |lines|
  {
    && LaidOut(u.text, Trimmed(lines[p.start..p.end], ops), " ")
    && u.startPage == lines[p.start].page && u.endPage == lines[p.end - 1].page
  }

  ghost predicate AreParagraphUnits(
    us: seq<Packing.TextUnit>, lines: seq<ExtractedLine>, ops: TextOps, ps: seq<Packing.Span>)
  {
    |us| == |ps| && forall k | 0 <= k < |us| :: ParagraphUnitAt(us, lines, ops, ps, k)
  }

  ghost predicate ParagraphUnitAt(
    us: seq<Packing.TextUnit>, lines: seq<ExtractedLine>, ops: TextOps, ps: seq<Packing.Span>, k: int)
    requires 0 <= k < |us| == |ps|
  {
    ps[k].start < ps[k].end <= |lines| && IsParagraphUnit(us[k], lines, ops, ps[k])
  }

  /** The units of a document's paragraphs. */
  ghost predicate ParagraphUnitsOf(us: seq<Packing.TextUnit>, lines: seq<ExtractedLine>, ops: TextOps) {
    exists ps :: AreParagraphs(lines, ops, ps) && AreParagraphUnits(us, lines, ops, ps)
  }

  /** Two paragraphs that share a line are the same. */
  lemma ParagraphsMeet(lines: seq<ExtractedLine>, ops: TextOps, a: nat, b: nat, c: nat, d: nat, i: nat)
    requires IsParagraph(lines, ops, a, b) && IsParagraph(lines, ops, c, d)
    requires a <= i < b && c <= i < d
    ensures a == c && b == d
  {
  }

  /** The lines determine their paragraphs. */
  lemma {:induction false} ParagraphsUnique(
    lines: seq<ExtractedLine>, ops: TextOps, p: seq<Packing.Span>, q: seq<Packing.Span>, k: nat)
    requires AreParagraphs(lines, ops, p) && AreParagraphs(lines, ops, q) && k <= |p|
    ensures k <= |q| && forall j | 0 <= j < k :: p[j] == q[j]
  {
    if k > 0 {
      ParagraphsUnique(lines, ops, p, q, k - 1);
      var j := SameParagraph(lines, ops, p, q, k - 1);
      NothingBetween(lines, ops, p, q, k - 1, j);
    }
  }

  lemma SameParagraph(
    lines: seq<ExtractedLine>, ops: TextOps, p: seq<Packing.Span>, q: seq<Packing.Span>, m: nat) returns (j: nat)
    requires AreParagraphs(lines, ops, p) && AreParagraphs(lines, ops, q) && m < |p|
    ensures j < |q| && q[j] == p[m]
  {
    assert IsParagraph(lines, ops, p[m].start, p[m].end);
    assert Covered(q, p[m].start);
    j :| j < |q| && q[j].start <= p[m].start < q[j].end;
    assert IsParagraph(lines, ops, q[j].start, q[j].end);
    ParagraphsMeet(lines, ops, p[m].start, p[m].end, q[j].start, q[j].end, p[m].start);
  }

  /** If the first m paragraphs agree and the next of p is paragraph j of q, then j is m. */
  lemma NothingBetween(
    lines: seq<ExtractedLine>, ops: TextOps, p: seq<Packing.Span>, q: seq<Packing.Span>, m: nat, j: nat)
    requires AreParagraphs(lines, ops, p) && AreParagraphs(lines, ops, q)
    requires m < |p| && m <= |q| && j < |q| && p[m] == q[j]
    requires forall i | 0 <= i < m :: p[i] == q[i]
    ensures j == m
  {
    if m < |q| {
      var i := PlaceOf(lines, ops, p, q, m);
      assert IsParagraph(lines, ops, p[m].start, p[m].end) && IsParagraph(lines, ops, q[j].start, q[j].end);
      assert m <= j;
    }
  }

  /** The paragraph of p that holds the first line of paragraph m of q comes no earlier. */
  lemma PlaceOf(
    lines: seq<ExtractedLine>, ops: TextOps, p: seq<Packing.Span>, q: seq<Packing.Span>, m: nat) returns (i: nat)
    requires AreParagraphs(lines, ops, p) && AreParagraphs(lines, ops, q)
    requires m <= |p| && m < |q| && forall t | 0 <= t < m :: p[t] == q[t]
    ensures m <= i < |p| && p[i].start <= q[m].start < p[i].end
  {
    assert IsParagraph(lines, ops, q[m].start, q[m].end);
    assert Covered(p, q[m].start);
    assert forall t | 0 <= t < m :: p[t] == q[t] && q[t].end < q[m].start;
    i :| i < |p| && p[i].start <= q[m].start < p[i].end;
  }

  /** Paragraphs of a document: the loop, then whatever is still open at the end. */
  method ExtractParagraphs(lines: seq<ExtractedLine>, ops: TextOps)
    returns (units: seq<Packing.TextUnit>)
    requires lines != []
    ensures ParagraphUnitsOf(units, lines, ops)
  {
    var current, startPage, endPage;
    ghost var ps, a;
    units, current, startPage, endPage, ps, a := ScanParagraphs(lines, ops);
    LastParagraph(lines, ops, ps, a);
    units, ps := CloseParagraph(lines, ops, units, current, startPage, endPage, ps, a, |lines|);
  }

  /** The paragraph loop: a blank line closes the open paragraph, any other extends it. */
  method ScanParagraphs(lines: seq<ExtractedLine>, ops: TextOps)
    returns (units: seq<Packing.TextUnit>, current: seq<string>, startPage: int, endPage: int,
             ghost ps: seq<Packing.Span>, ghost a: nat)
    requires lines != []
    ensures OpenParagraph(lines, ops, ps, a, |lines|) && AreParagraphUnits(units, lines, ops, ps)
    ensures Pending(current, startPage, endPage, lines, ops, a, |lines|)
  {
    units, ps, current, a := [], [], [], 0;
    startPage, endPage := lines[0].page, lines[0].page;
    for i := 0 to |lines|
      invariant OpenParagraph(lines, ops, ps, a, i)
      invariant AreParagraphUnits(units, lines, ops, ps)
      invariant Pending(current, startPage, endPage, lines, ops, a, i)
    {
      units, current, startPage, endPage, ps, a :=
        ScanLine(lines, ops, units, current, startPage, endPage, ps, a, i);
    }
  }

  method ScanLine(lines: seq<ExtractedLine>, ops: TextOps, units0: seq<Packing.TextUnit>, current0: seq<string>,
                  startPage0: int, endPage0: int, ghost ps0: seq<Packing.Span>, ghost a0: nat, i: nat)
    returns (units: seq<Packing.TextUnit>, current: seq<string>, startPage: int, endPage: int,
             ghost ps: seq<Packing.Span>, ghost a: nat)
    requires i < |lines| && OpenParagraph(lines, ops, ps0, a0, i) && AreParagraphUnits(units0, lines, ops, ps0)
    requires Pending(current0, startPage0, endPage0, lines, ops, a0, i)
    ensures OpenParagraph(lines, ops, ps, a, i + 1) && AreParagraphUnits(units, lines, ops, ps)
    ensures Pending(current, startPage, endPage, lines, ops, a, i + 1)
  {
    startPage, endPage := startPage0, endPage0;
    if ops.trim(lines[i].text) == "" {
      BlankLine(lines, ops, ps0, a0, i);
      units, ps := CloseParagraph(lines, ops, units0, current0, startPage, endPage, ps0, a0, i);
      current, a := [], i + 1;
    } else {
      units, ps, a := units0, ps0, a0;
      ExtendsParagraph(lines, ops, ps, a, i);
      current, startPage, endPage := ExtendParagraph(lines, ops, current0, startPage, endPage, a, i);
    }
  }

  method ExtendParagraph(lines: seq<ExtractedLine>, ops: TextOps, current0: seq<string>, startPage0: int,
                         endPage0: int, ghost a: nat, i: nat)
    returns (current: seq<string>, startPage: int, endPage: int)
    requires i < |lines| && Pending(current0, startPage0, endPage0, lines, ops, a, i)
    ensures Pending(current, startPage, endPage, lines, ops, a, i + 1)
  {
    startPage := startPage0;
    if current0 == [] {
      startPage := lines[i].page;
    }
    PendingGrows(current0, startPage, endPage0, lines, ops, a, i);
    endPage := lines[i].page;
    current := current0 + [ops.trim(lines[i].text)];
  }

  /** The open paragraph, if any, becomes a unit. */
  method CloseParagraph(lines: seq<ExtractedLine>, ops: TextOps, units: seq<Packing.TextUnit>, current: seq<string>,
                        startPage: int, endPage: int, ghost ps: seq<Packing.Span>, ghost a: nat, ghost i: nat)
    returns (more: seq<Packing.TextUnit>, ghost ps1: seq<Packing.Span>)
    requires Pending(current, startPage, endPage, lines, ops, a, i)
    requires AreParagraphUnits(units, lines, ops, ps)
    ensures ps1 == Closed(ps, a, i) && AreParagraphUnits(more, lines, ops, ps1)
  {
    more, ps1 := units, ps;
    if current != [] {
      var unit := Packing.TextUnit(Join(current, " "), startPage, endPage);
      JoinLaidOut(current, " ");
      AppendUnit(units, lines, ops, ps, Packing.Span(a, i), unit);
      more := units + [unit];
      ps1 := ps + [Packing.Span(a, i)];
    }
  }

  ghost function Closed(ps: seq<Packing.Span>, a: nat, i: nat): seq<Packing.Span> {
    if a < i then ps + [Packing.Span(a, i)] else ps
  }

  /** The loop's variables describe the open lines[a..i]. */
  ghost predicate Pending(
    current: seq<string>, startPage: int, endPage: int, lines: seq<ExtractedLine>, ops: TextOps, a: nat, i: nat)
  {
    && a <= i <= |lines| && current == Trimmed(lines[a..i], ops)
    && (a < i ==> startPage == lines[a].page && endPage == lines[i - 1].page)
  }

  lemma PendingGrows(
    current: seq<string>, startPage: int, endPage: int, lines: seq<ExtractedLine>, ops: TextOps, a: nat, i: nat)
    requires a <= i < |lines| && current == Trimmed(lines[a..i], ops)
    requires startPage == lines[a].page
    ensures Pending(current + [ops.trim(lines[i].text)], startPage, lines[i].page, lines, ops, a, i + 1)
  {
  }

  lemma ExtendsParagraph(lines: seq<ExtractedLine>, ops: TextOps, ps: seq<Packing.Span>, a: nat, i: nat)
    requires OpenParagraph(lines, ops, ps, a, i) && i < |lines| && !Blank(lines[i], ops)
    ensures OpenParagraph(lines, ops, ps, a, i + 1)
  {
  }

  lemma AppendUnit(
    us: seq<Packing.TextUnit>, lines: seq<ExtractedLine>, ops: TextOps, ps: seq<Packing.Span>, p: Packing.Span,
    u: Packing.TextUnit)
    requires AreParagraphUnits(us, lines, ops, ps)
    requires p.start < p.end <= |lines| && IsParagraphUnit(u, lines, ops, p)
    ensures AreParagraphUnits(us + [u], lines, ops, ps + [p])
  {
    var psMore, usMore := ps + [p], us + [u];
    forall k | 0 <= k < |usMore| ensures ParagraphUnitAt(usMore, lines, ops, psMore, k) {
      if k < |us| {
        assert ParagraphUnitAt(us, lines, ops, ps, k);
      }
    }
  }

  lemma CoveredByMore(ps: seq<Packing.Span>, p: Packing.Span, j: int)
    ensures Covered(ps, j) || p.start <= j < p.end ==> Covered(ps + [p], j)
  {
    if Covered(ps, j) {
      var k :| 0 <= k < |ps| && ps[k].start <= j < ps[k].end;
      assert (ps + [p])[k] == ps[k];
    } else if p.start <= j < p.end {
      assert (ps + [p])[|ps|] == p;
    }
  }

  /** A blank line or the end of the text makes the open lines a paragraph. */
  lemma ClosedAreParagraphs(lines: seq<ExtractedLine>, ops: TextOps, ps: seq<Packing.Span>, a: nat, i: nat, k: int)
    requires OpenParagraph(lines, ops, ps, a, i) && (i < |lines| ==> Blank(lines[i], ops))
    requires 0 <= k < |Closed(ps, a, i)|
    ensures IsParagraph(lines, ops, Closed(ps, a, i)[k].start, Closed(ps, a, i)[k].end)
    ensures Closed(ps, a, i)[k].end <= i
  {
    if k < |ps| {
      assert Closed(ps, a, i)[k] == ps[k];
      assert ClosedBefore(lines, ops, ps, k, a);
    }
  }

  lemma ClosedInOrder(lines: seq<ExtractedLine>, ops: TextOps, ps: seq<Packing.Span>, a: nat, i: nat, j: int, k: int)
    requires OpenParagraph(lines, ops, ps, a, i)
    requires 0 <= j < k < |Closed(ps, a, i)|
    ensures Closed(ps, a, i)[j].end < Closed(ps, a, i)[k].start
  {
    assert Closed(ps, a, i)[j] == ps[j];
    assert ClosedBefore(lines, ops, ps, j, a);
  }

  lemma ClosedCover(lines: seq<ExtractedLine>, ops: TextOps, ps: seq<Packing.Span>, a: nat, i: nat, j: int)
    requires OpenParagraph(lines, ops, ps, a, i)
    requires 0 <= j < i && !Blank(lines[j], ops)
    ensures Covered(Closed(ps, a, i), j)
  {
    CoveredByMore(ps, Packing.Span(a, i), j);
  }

  lemma BlankLine(lines: seq<ExtractedLine>, ops: TextOps, ps: seq<Packing.Span>, a: nat, i: nat)
    requires OpenParagraph(lines, ops, ps, a, i) && i < |lines| && Blank(lines[i], ops)
    ensures OpenParagraph(lines, ops, Closed(ps, a, i), i + 1, i + 1)
  {
    var q := Closed(ps, a, i);
    var n := i + 1;
    forall k | 0 <= k < |q| ensures ClosedBefore(lines, ops, q, k, n) {
      ClosedAreParagraphs(lines, ops, ps, a, i, k);
    }
    forall j, k | 0 <= j < k < |q| ensures q[j].end < q[k].start {
      ClosedInOrder(lines, ops, ps, a, i, j, k);
    }
    forall j | 0 <= j < i + 1 && !Blank(lines[j], ops) ensures Covered(q, j) {
      ClosedCover(lines, ops, ps, a, i, j);
    }
  }

  lemma LastParagraph(lines: seq<ExtractedLine>, ops: TextOps, ps: seq<Packing.Span>, a: nat)
    requires OpenParagraph(lines, ops, ps, a, |lines|)
    ensures AreParagraphs(lines, ops, Closed(ps, a, |lines|))
  {
    var q := Closed(ps, a, |lines|);
    forall k | 0 <= k < |q| ensures IsParagraph(lines, ops, q[k].start, q[k].end) {
      ClosedAreParagraphs(lines, ops, ps, a, |lines|, k);
    }
    forall j, k | 0 <= j < k < |q| ensures q[j].end < q[k].start {
      ClosedInOrder(lines, ops, ps, a, |lines|, j, k);
    }
    forall j | 0 <= j < |lines| && !Blank(lines[j], ops) ensures Covered(q, j) {
      ClosedCover(lines, ops, ps, a, |lines|, j);
    }
  }

  function Trimmed(lines: seq<ExtractedLine>, ops: TextOps): (r: seq<string>)
    ensures |r| == |lines| && forall i | 0 <= i < |lines| :: r[i] == ops.trim(lines[i].text)
  {
    seq(|lines|, i requires 0 <= i < |lines| => ops.trim(lines[i].text))
  }

  /** Loop invariant: closed paragraphs ps, and lines[a..i] open. */
  ghost predicate OpenParagraph(lines: seq<ExtractedLine>, ops: TextOps, ps: seq<Packing.Span>, a: nat, i: nat) {
    && a <= i <= |lines|
    && (forall j | a <= j < i :: !Blank(lines[j], ops))
    && (a > 0 ==> Blank(lines[a - 1], ops))
    && (forall k | 0 <= k < |ps| :: ClosedBefore(lines, ops, ps, k, a))
    && (forall j, k | 0 <= j < k < |ps| :: ps[j].end < ps[k].start)
    && (forall j | 0 <= j < a && !Blank(lines[j], ops) :: Covered(ps, j))
  }

  ghost predicate ClosedBefore(lines: seq<ExtractedLine>, ops: TextOps, ps: seq<Packing.Span>, k: int, a: nat)
    requires 0 <= k < |ps|
  {
    IsParagraph(lines, ops, ps[k].start, ps[k].end) && ps[k].end < a
  }

  lemma ParagraphPagesInOrder(us: seq<Packing.TextUnit>, lines: seq<ExtractedLine>, ops: TextOps)
    requires ParagraphUnitsOf(us, lines, ops) && PagesNondecreasing(lines)
    ensures Packing.PagesInOrder(us)
  {
    var ps :| AreParagraphs(lines, ops, ps) && AreParagraphUnits(us, lines, ops, ps);
    forall i | 0 <= i < |us| ensures us[i].startPage <= us[i].endPage {
      UnitPages(us, lines, ops, ps, i);
    }
    forall i, j | 0 <= i < j < |us| ensures us[i].endPage <= us[j].startPage {
      UnitPages(us, lines, ops, ps, i);
      UnitPages(us, lines, ops, ps, j);
    }
  }

  lemma UnitPages(
    us: seq<Packing.TextUnit>, lines: seq<ExtractedLine>, ops: TextOps, ps: seq<Packing.Span>, k: int)
    requires AreParagraphUnits(us, lines, ops, ps) && 0 <= k < |us|
    ensures ps[k].start < ps[k].end <= |lines|
    ensures us[k].startPage == lines[ps[k].start].page && us[k].endPage == lines[ps[k].end - 1].page
  {
    assert ParagraphUnitAt(us, lines, ops, ps, k);
  }

  // ------------------------------------------------------------------- sentences

  predicate EndsSentence(c: char) {
    c == '.' || c == '!' || c == '?'
  }

  /** The replacer: a blank right after a sentence end becomes a line break. */
  function Broken(s: string): (r: string)
    ensures |r| == |s|
  {
    seq(|s|, i requires 0 <= i < |s| => if s[i] == ' ' && i > 0 && EndsSentence(s[i - 1]) then '\n' else s[i])
  }

  function Pieces(s: string): seq<string> {
    Split(Broken(s), '\n')
  }

  /** Where a line is cut: its pieces, joined with line breaks, differ from it at most in the
      blanks right after a sentence end, and no such blank is left inside a piece. */
  lemma PiecesExact(s: string)
    ensures |Join(Pieces(s), "\n")| == |s|
    ensures forall i | 0 <= i < |s| ::
              var cut := s[i] == ' ' && i > 0 && (s[i - 1] == '.' || s[i - 1] == '!' || s[i - 1] == '?');
              Join(Pieces(s), "\n")[i] == if cut then '\n' else s[i]
    ensures forall k | 0 <= k < |Pieces(s)| :: '\n' !in Pieces(s)[k]
  {
    SplitRejoins(Broken(s), '\n');
    SplitParts(Broken(s), '\n');
  }

  /** The first k pieces of one line, trimmed, without the empty ones. */
  function LineSentences(pieces: seq<string>, page: int, ops: TextOps, k: nat): seq<Packing.TextUnit>
    requires k <= |pieces|
  {
    if k == 0 then []
    else
      LineSentences(pieces, page, ops, k - 1)
        + if ops.trim(pieces[k - 1]) != "" then [Packing.TextUnit(ops.trim(pieces[k - 1]), page, page)] else []
  }

  function SentencesOf(x: ExtractedLine, cfg: Config): seq<Packing.TextUnit> {
    var pieces := Pieces(cfg.ops.trim(x.text));
    if Blank(x, cfg.ops) then [] else LineSentences(pieces, x.page, cfg.ops, |pieces|)
  }

  function SentenceUnits(lines: seq<ExtractedLine>, cfg: Config): seq<Packing.TextUnit> {
    if lines == [] then []
    else SentenceUnits(lines[..|lines| - 1], cfg) + SentencesOf(lines[|lines| - 1], cfg)
  }

  /** What is to become a unit: piece j of line i, if neither trims to nothing. */
  ghost predicate IsSentence(lines: seq<ExtractedLine>, ops: TextOps, i: nat, j: nat) {
    && i < |lines| && ops.trim(lines[i].text) != ""
    && j < |Pieces(ops.trim(lines[i].text))| && ops.trim(Pieces(ops.trim(lines[i].text))[j]) != ""
  }

  ghost predicate SentenceAt(u: Packing.TextUnit, lines: seq<ExtractedLine>, ops: TextOps, p: Place) {
    && IsSentence(lines, ops, p.line, p.at)
    && u.text == ops.trim(Pieces(ops.trim(lines[p.line].text))[p.at])
    && u.startPage == u.endPage == lines[p.line].page
  }

  /** All sentences, once each, in reading order, and nothing else. */
  ghost predicate AreSentences(
    us: seq<Packing.TextUnit>, lines: seq<ExtractedLine>, ops: TextOps, at: seq<Place>)
  {
    && |at| == |us| && InReadingOrder(at)
    && (forall m | 0 <= m < |us| :: SentenceAt(us[m], lines, ops, at[m]))
    && forall i: nat, j: nat | IsSentence(lines, ops, i, j) :: Place(i, j) in at
  }

  /** The lines determine their sentences. */
  lemma SentencesUnique(
    us: seq<Packing.TextUnit>, vs: seq<Packing.TextUnit>, lines: seq<ExtractedLine>, ops: TextOps,
    p: seq<Place>, q: seq<Place>)
    requires AreSentences(us, lines, ops, p) && AreSentences(vs, lines, ops, q)
    ensures us == vs
  {
    forall m | 0 <= m < |p| ensures p[m] in q {
      assert SentenceAt(us[m], lines, ops, p[m]);
    }
    forall m | 0 <= m < |q| ensures q[m] in p {
      assert SentenceAt(vs[m], lines, ops, q[m]);
    }
    PlacesUnique(p, q);
    forall m | 0 <= m < |us| ensures us[m] == vs[m] {
      assert SentenceAt(us[m], lines, ops, p[m]) && SentenceAt(vs[m], lines, ops, q[m]);
    }
  }

  /** The sentences among the first k pieces of line n. */
  ghost predicate LineSentencesAt(
    us: seq<Packing.TextUnit>, lines: seq<ExtractedLine>, ops: TextOps, n: nat, k: nat, at: seq<Place>)
  {
    && |at| == |us| && InReadingOrder(at)
    && (forall m | 0 <= m < |at| :: at[m].line == n && at[m].at < k && SentenceAt(us[m], lines, ops, at[m]))
    && forall j: nat | j < k && IsSentence(lines, ops, n, j) :: Place(n, j) in at
  }

  lemma {:induction false} LineSentencesExactly(lines: seq<ExtractedLine>, ops: TextOps, n: nat, k: nat)
    returns (at: seq<Place>)
    requires n < |lines| && !Blank(lines[n], ops) && k <= |Pieces(ops.trim(lines[n].text))|
    ensures LineSentencesAt(LineSentences(Pieces(ops.trim(lines[n].text)), lines[n].page, ops, k), lines, ops, n, k, at)
    decreases k
  {
    at := [];
    if k > 0 {
      at := LineSentencesExactly(lines, ops, n, k - 1);
      if ops.trim(Pieces(ops.trim(lines[n].text))[k - 1]) != "" {
        at := at + [Place(n, k - 1)];
      }
    }
  }

  lemma SentenceInLonger(u: Packing.TextUnit, lines: seq<ExtractedLine>, n: nat, ops: TextOps, p: Place)
    requires n <= |lines| && SentenceAt(u, lines[..n], ops, p)
    ensures SentenceAt(u, lines, ops, p) && p.line < n
  {
  }

  /** Every piece of every line becomes a unit, trimmed, on its page and in order, unless it
      or its line trims to nothing. */
  lemma {:induction false} SentencesExactly(lines: seq<ExtractedLine>, cfg: Config) returns (at: seq<Place>)
    ensures AreSentences(SentenceUnits(lines, cfg), lines, cfg.ops, at)
    decreases |lines|
  {
    at := [];
    if lines != [] {
      var n := |lines| - 1;
      var before := SentencesExactly(lines[..n], cfg);
      var last := [];
      if !Blank(lines[n], cfg.ops) {
        last := LineSentencesExactly(lines, cfg.ops, n, |Pieces(cfg.ops.trim(lines[n].text))|);
      }
      MoreSentences(SentenceUnits(lines[..n], cfg), SentencesOf(lines[n], cfg), lines, cfg.ops, before, last);
      at := before + last;
    }
  }

  lemma MoreSentences(
    us: seq<Packing.TextUnit>, vs: seq<Packing.TextUnit>, lines: seq<ExtractedLine>, ops: TextOps,
    p: seq<Place>, q: seq<Place>)
    requires lines != [] && AreSentences(us, lines[..|lines| - 1], ops, p)
    requires var n := |lines| - 1;
             if Blank(lines[n], ops) then vs == [] && q == []
             else LineSentencesAt(vs, lines, ops, n, |Pieces(ops.trim(lines[n].text))|, q)
    ensures AreSentences(us + vs, lines, ops, p + q)
  {
    var n := |lines| - 1;
    forall m | 0 <= m < |p| ensures SentenceAt(us[m], lines, ops, p[m]) && p[m].line < n {
      assert SentenceAt(us[m], lines[..n], ops, p[m]);
      SentenceInLonger(us[m], lines, n, ops, p[m]);
    }
    LaterPlaces(p, q, n);
    forall m | 0 <= m < |us + vs| ensures SentenceAt((us + vs)[m], lines, ops, (p + q)[m]) {
      if m >= |p| {
        assert SentenceAt(vs[m - |p|], lines, ops, q[m - |p|]);
      }
    }
    forall i: nat, j: nat | IsSentence(lines, ops, i, j) ensures Place(i, j) in p + q {
      if i < n {
        assert IsSentence(lines[..n], ops, i, j);
      }
    }
  }

  method ExtractSentences(lines: seq<ExtractedLine>, cfg: Config) returns (units: seq<Packing.TextUnit>)
    ensures units == SentenceUnits(lines, cfg)
    ensures exists at :: AreSentences(units, lines, cfg.ops, at)
  {
    units := [];
    for i := 0 to |lines|
      invariant units == SentenceUnits(lines[..i], cfg)
    {
      assert lines[..i + 1][..i] == lines[..i];
      var more := SplitLine(lines[i], cfg);
      units := units + more;
    }
    assert lines[..|lines|] == lines;
    ghost var at := SentencesExactly(lines, cfg);
  }

  method SplitLine(x: ExtractedLine, cfg: Config) returns (units: seq<Packing.TextUnit>)
    ensures units == SentencesOf(x, cfg)
  {
    units := [];
    var trimmed := cfg.ops.trim(x.text);
    if trimmed == "" {
      return;
    }
    var pieces := Pieces(trimmed);
    for j := 0 to |pieces|
      invariant units == LineSentences(pieces, x.page, cfg.ops, j)
    {
      var piece := cfg.ops.trim(pieces[j]);
      if piece != "" {
        units := units + [Packing.TextUnit(piece, x.page, x.page)];
      }
    }
  }

  ghost predicate OnPage(us: seq<Packing.TextUnit>, page: int) {
    forall i | 0 <= i < |us| :: us[i].startPage == us[i].endPage == page
  }

  lemma {:induction false} LineSentencesOnPage(pieces: seq<string>, page: int, ops: TextOps, k: nat)
    requires k <= |pieces|
    ensures OnPage(LineSentences(pieces, page, ops, k), page)
  {
    if k > 0 {
      LineSentencesOnPage(pieces, page, ops, k - 1);
    }
  }

  lemma {:induction false} SentencePagesInOrder(lines: seq<ExtractedLine>, cfg: Config)
    requires PagesNondecreasing(lines)
    ensures Packing.PagesInOrder(SentenceUnits(lines, cfg))
    ensures lines != [] ==> forall i | 0 <= i < |SentenceUnits(lines, cfg)| ::
              SentenceUnits(lines, cfg)[i].endPage <= lines[|lines| - 1].page
  {
    if lines != [] {
      var n := |lines| - 1;
      var init, x := lines[..n], lines[n];
      SentencePagesInOrder(init, cfg);
      var a, b := SentenceUnits(init, cfg), SentencesOf(x, cfg);
      if !Blank(x, cfg.ops) {
        var pieces := Pieces(cfg.ops.trim(x.text));
        LineSentencesOnPage(pieces, x.page, cfg.ops, |pieces|);
      }
      JoinUnits(a, b, x.page, if init == [] then x.page else init[n - 1].page);
    }
  }

  lemma JoinUnits(a: seq<Packing.TextUnit>, b: seq<Packing.TextUnit>, page: int, before: int)
    requires Packing.PagesInOrder(a) && OnPage(b, page) && before <= page
    requires forall i | 0 <= i < |a| :: a[i].endPage <= before
    ensures Packing.PagesInOrder(a + b)
    ensures forall i | 0 <= i < |a + b| :: (a + b)[i].endPage <= page
  {
  }

  // --------------------------------------------------------------------- windows

  /** The trimmed lines that are not blank, each followed by the separator. */
  function FullText(lines: seq<ExtractedLine>, ops: TextOps, separator: string): string {
    if lines == [] then ""
    else
      var x := lines[|lines| - 1];
      FullText(lines[..|lines| - 1], ops, separator) + if Blank(x, ops) then "" else ops.trim(x.text) + separator
  }

  /** Where line i begins in the full text: what the lines before it take up. */
  function LineOffset(lines: seq<ExtractedLine>, ops: TextOps, gap: nat, i: nat): nat
    requires i <= |lines|
  {
    if i == 0 then 0
    else
      var t := ops.trim(lines[i - 1].text);
      LineOffset(lines, ops, gap, i - 1) + if t == "" then 0 else |t| + gap
  }

  /** text is the trimmed lines that are not blank, in order, each followed by the separator,
      and nothing else. */
  ghost predicate IsFullText(text: string, lines: seq<ExtractedLine>, ops: TextOps, separator: string) {
    && |text| == LineOffset(lines, ops, |separator|, |lines|)
    && forall i: nat | i < |lines| :: LineStands(text, lines, ops, separator, i)
  }

  ghost predicate LineStands(text: string, lines: seq<ExtractedLine>, ops: TextOps, separator: string, i: nat)
    requires i < |lines|
  {
    var t := ops.trim(lines[i].text);
    t != "" ==> Stands(text, t + separator, LineOffset(lines, ops, |separator|, i))
  }

  lemma {:induction false} LineOffsetPrefix(lines: seq<ExtractedLine>, ops: TextOps, gap: nat, n: nat, i: nat)
    requires i <= n <= |lines|
    ensures LineOffset(lines[..n], ops, gap, i) == LineOffset(lines, ops, gap, i)
    decreases i
  {
    if i > 0 {
      LineOffsetPrefix(lines, ops, gap, n, i - 1);
    }
  }

  lemma {:induction false} FullTextExactly(lines: seq<ExtractedLine>, ops: TextOps, separator: string)
    ensures IsFullText(FullText(lines, ops, separator), lines, ops, separator)
    decreases |lines|
  {
    if lines != [] {
      FullTextExactly(lines[..|lines| - 1], ops, separator);
      OneLineLonger(FullText(lines[..|lines| - 1], ops, separator), lines, ops, separator);
    }
  }

  lemma {:induction false} OneLineLonger(text: string, lines: seq<ExtractedLine>, ops: TextOps, separator: string)
    requires lines != [] && IsFullText(text, lines[..|lines| - 1], ops, separator)
    ensures var t := ops.trim(lines[|lines| - 1].text);
            IsFullText(text + if t == "" then "" else t + separator, lines, ops, separator)
  {
    var n, t := |lines| - 1, ops.trim(lines[|lines| - 1].text);
    var more := if t == "" then "" else t + separator;
    LineOffsetPrefix(lines, ops, |separator|, n, n);
    forall i: nat | i < n ensures LineStands(text + more, lines, ops, separator, i) {
      LineStays(text, lines, ops, separator, i, more);
    }
    LastStands(text, more);
    assert LineStands(text + more, lines, ops, separator, n);
  }

  lemma {:induction false} LineStays(
    text: string, lines: seq<ExtractedLine>, ops: TextOps, separator: string, i: nat, more: string)
    requires i + 1 < |lines| && IsFullText(text, lines[..|lines| - 1], ops, separator)
    ensures LineStands(text + more, lines, ops, separator, i)
  {
    LineOffsetPrefix(lines, ops, |separator|, |lines| - 1, i);
    assert LineStands(text, lines[..|lines| - 1], ops, separator, i);
    if ops.trim(lines[i].text) != "" {
      StandsInMore(text, more, ops.trim(lines[i].text) + separator, LineOffset(lines, ops, |separator|, i));
    }
  }

  lemma LastStands(text: string, more: string)
    ensures Stands(text + more, more, |text|)
  {
  }

  /** The lines determine the full text. */
  lemma FullTextUnique(x: string, y: string, lines: seq<ExtractedLine>, ops: TextOps, separator: string)
    requires IsFullText(x, lines, ops, separator) && IsFullText(y, lines, ops, separator)
    ensures x == y
  {
    FullTextAlike(x, y, lines, ops, separator, |lines|);
    assert x[..|x|] == x && y[..|y|] == y;
  }

  lemma {:induction false} FullTextAlike(
    x: string, y: string, lines: seq<ExtractedLine>, ops: TextOps, separator: string, i: nat)
    requires IsFullText(x, lines, ops, separator) && IsFullText(y, lines, ops, separator) && i <= |lines|
    ensures LineOffset(lines, ops, |separator|, i) <= |x|
    ensures x[..LineOffset(lines, ops, |separator|, i)] == y[..LineOffset(lines, ops, |separator|, i)]
    decreases i
  {
    if i > 0 {
      FullTextAlike(x, y, lines, ops, separator, i - 1);
      var o, t := LineOffset(lines, ops, |separator|, i - 1), ops.trim(lines[i - 1].text);
      assert LineStands(x, lines, ops, separator, i - 1) && LineStands(y, lines, ops, separator, i - 1);
      if t != "" {
        AlikeFurther(x, y, o, t + separator);
      }
    }
  }

  method BuildFullText(lines: seq<ExtractedLine>, ops: TextOps, separator: string) returns (text: string)
    ensures text == FullText(lines, ops, separator)
    ensures IsFullText(text, lines, ops, separator)
  {
    text := "";
    for i := 0 to |lines|
      invariant text == FullText(lines[..i], ops, separator)
    {
      assert lines[..i + 1][..i] == lines[..i];
      var trimmed := ops.trim(lines[i].text);
      if trimmed != "" {
        text := text + trimmed;
        text := text + separator;
      }
    }
    assert lines[..|lines|] == lines;
    FullTextExactly(lines, ops, separator);
  }

  /** The text of a token window; a failed decode falls back to the whole document. */
  function Decoded(e: Encoder, ids: seq<nat>, full: string): string {
    match e.decode(ids) case Some(s) => s case None => full
  }

  /** Chunk k of exact mode: pages of the whole document, no offsets. */
  ghost predicate IsTokenChunk(
    c: Chunk, cfg: Config, e: Encoder, lines: seq<ExtractedLine>, doc: UUID, ids: seq<nat>, w: Windows.Window, k: nat)
    requires lines != []
  {
    && w.start <= w.end <= |ids|
    && c == Chunk(c.id, doc, NIL, k, Decoded(e, ids[w.start..w.end], FullText(lines, cfg.ops, " ")), "",
                  PlainMetadata(lines[0].page, lines[|lines| - 1].page, 0, 0, cfg.tokens(c.content)))
  }

  /** Chunk k of character mode: the window's text at its true offsets. */
  ghost predicate IsCharacterChunk(
    c: Chunk, cfg: Config, lines: seq<ExtractedLine>, doc: UUID, full: string, w: Windows.Window, k: nat)
    requires lines != []
  {
    && w.start <= w.end <= |full|
    && c == Chunk(c.id, doc, NIL, k, full[w.start..w.end], "",
                  PlainMetadata(lines[0].page, lines[|lines| - 1].page, w.start, w.end, cfg.tokens(c.content)))
  }

  // ------------------------------------------------------------- the whole document

  function UnitSettings(cfg: Config): Packing.Settings {
    Packing.Settings(cfg.target, cfg.overlap, cfg.tokens, cfg.ops.byteLen)
  }

  ghost predicate ParagraphSegmentation(cfg: Config, doc: UUID, lines: seq<ExtractedLine>, cs: seq<Chunk>) {
    exists us :: ParagraphUnitsOf(us, lines, cfg.ops) && Packing.PackedInto(cs, UnitSettings(cfg), us, doc)
  }

  ghost predicate SentenceSegmentation(cfg: Config, doc: UUID, lines: seq<ExtractedLine>, cs: seq<Chunk>) {
    Packing.PackedInto(cs, UnitSettings(cfg), SentenceUnits(lines, cfg), doc)
  }

  ghost predicate TokenSegmentation(
    cfg: Config, e: Encoder, doc: UUID, lines: seq<ExtractedLine>, ids: seq<nat>, cs: seq<Chunk>)
    requires lines != []
  {
    exists ws ::
      && Windows.AreWindows(ws, |ids|, cfg.target, Windows.CalcStep(cfg.target, cfg.overlap))
      && |cs| == |ws| && forall k | 0 <= k < |ws| :: IsTokenChunk(cs[k], cfg, e, lines, doc, ids, ws[k], k)
  }

  ghost predicate CharacterSegmentation(
    cfg: Config, doc: UUID, lines: seq<ExtractedLine>, full: string, cs: seq<Chunk>)
    requires lines != []
  {
    exists ws ::
      && Windows.AreWindows(ws, |full|, cfg.target * 4, Windows.CalcStep(cfg.target * 4, cfg.overlap * 4))
      && |cs| == |ws| && forall k | 0 <= k < |ws| :: IsCharacterChunk(cs[k], cfg, lines, doc, full, ws[k], k)
  }

  /** The token ids exact mode slices, unless it falls back to paragraphs. */
  function TokenIds(cfg: Config, full: string): Option<seq<nat>> {
    if cfg.encoder.None? then None
    else
      match cfg.encoder.value.encode(full)
      case None => None
      case Some(ids) => if ids == [] then None else Some(ids)
  }

  /** What the segmenter owes its caller, strategy by strategy. */
  ghost predicate IsSegmentation(cfg: Config, doc: UUID, lines: seq<ExtractedLine>, cs: seq<Chunk>) {
    if lines == [] then cs == []
    else
      match cfg.strategy
      case Paragraph => ParagraphSegmentation(cfg, doc, lines, cs)
      case Sentence => SentenceSegmentation(cfg, doc, lines, cs)
      case CharacterBased =>
        var full := FullText(lines, cfg.ops, "\n");
        if cfg.ops.trim(full) == "" then cs == [] else CharacterSegmentation(cfg, doc, lines, full, cs)
      case Exact =>
        var full := FullText(lines, cfg.ops, " ");
        if cfg.ops.trim(full) == "" then cs == []
        else
          match TokenIds(cfg, full)
          case None => ParagraphSegmentation(cfg, doc, lines, cs)
          case Some(ids) => TokenSegmentation(cfg, cfg.encoder.value, doc, lines, ids, cs)
  }

  /** Exact mode at budget 1 never ends on a text of two or more tokens; nothing else hangs. */
  predicate Ends(cfg: Config, lines: seq<ExtractedLine>) {
    cfg.strategy == Exact && cfg.target == 1 ==>
      var ids := TokenIds(cfg, FullText(lines, cfg.ops, " "));
      ids.None? || |ids.value| <= 1
  }

  method SegmentDocument(cfg: Config, doc: UUID, lines: seq<ExtractedLine>, newId: nat -> UUID)
    returns (cs: seq<Chunk>)
    requires cfg.target > 0 && cfg.overlap > 0 && Ends(cfg, lines)
    ensures IsSegmentation(cfg, doc, lines, cs) && IdsFrom(cs, newId)
  {
    if lines == [] {
      return [];
    }
    match cfg.strategy {
      case Exact => cs := SegmentExactTokens(cfg, doc, lines, newId);
      case Sentence =>
        var units := ExtractSentences(lines, cfg);
        cs := Packing.SegmentUnits(UnitSettings(cfg), doc, units, newId);
      case CharacterBased => cs := SegmentCharacterBased(cfg, doc, lines, newId);
      case Paragraph => cs := SegmentParagraphs(cfg, doc, lines, newId);
    }
  }

  method SegmentParagraphs(cfg: Config, doc: UUID, lines: seq<ExtractedLine>, newId: nat -> UUID)
    returns (cs: seq<Chunk>)
    requires lines != []
    ensures ParagraphSegmentation(cfg, doc, lines, cs) && IdsFrom(cs, newId)
  {
    var units := ExtractParagraphs(lines, cfg.ops);
    cs := Packing.SegmentUnits(UnitSettings(cfg), doc, units, newId);
  }

  method SegmentExactTokens(cfg: Config, doc: UUID, lines: seq<ExtractedLine>, newId: nat -> UUID)
    returns (cs: seq<Chunk>)
    requires lines != [] && cfg.target > 0 && cfg.overlap > 0 && cfg.strategy == Exact && Ends(cfg, lines)
    ensures IsSegmentation(cfg, doc, lines, cs) && IdsFrom(cs, newId)
  {
    var full := BuildFullText(lines, cfg.ops, " ");
    if cfg.ops.trim(full) == "" {
      return [];
    }
    if cfg.encoder.None? {
      cs := SegmentParagraphs(cfg, doc, lines, newId);
      return;
    }
    var encoded := cfg.encoder.value.encode(full);
    if encoded.None? || encoded.value == [] {
      cs := SegmentParagraphs(cfg, doc, lines, newId);
      return;
    }
    cs := SliceTokens(cfg, cfg.encoder.value, doc, lines, full, encoded.value, newId);
  }

  method SliceTokens(cfg: Config, e: Encoder, doc: UUID, lines: seq<ExtractedLine>, full: string,
                     ids: seq<nat>, newId: nat -> UUID)
    returns (cs: seq<Chunk>)
    requires lines != [] && full == FullText(lines, cfg.ops, " ")
    requires cfg.target > 0 && cfg.overlap > 0 && (cfg.target == 1 ==> |ids| <= 1)
    ensures TokenSegmentation(cfg, e, doc, lines, ids, cs) && IdsFrom(cs, newId)
  {
    Windows.StepBounds(cfg.target, cfg.overlap);
    var ws := Windows.Cut(|ids|, cfg.target, Windows.CalcStep(cfg.target, cfg.overlap));
    cs := [];
    for k := 0 to |ws|
      invariant |cs| == k && IdsFrom(cs, newId)
      invariant forall j | 0 <= j < k :: IsTokenChunk(cs[j], cfg, e, lines, doc, ids, ws[j], j)
    {
      assert Windows.IsWindow(ws[k], |ids|, cfg.target, Windows.CalcStep(cfg.target, cfg.overlap), k);
      var content := Decoded(e, ids[ws[k].start..ws[k].end], full);
      cs := cs + [Chunk(newId(k), doc, NIL, k, content, "",
                        PlainMetadata(lines[0].page, lines[|lines| - 1].page, 0, 0, cfg.tokens(content)))];
    }
  }

  method SegmentCharacterBased(cfg: Config, doc: UUID, lines: seq<ExtractedLine>, newId: nat -> UUID)
    returns (cs: seq<Chunk>)
    requires lines != [] && cfg.target > 0 && cfg.overlap > 0 && cfg.strategy == CharacterBased
    ensures IsSegmentation(cfg, doc, lines, cs) && IdsFrom(cs, newId)
  {
    var full := BuildFullText(lines, cfg.ops, "\n");
    if cfg.ops.trim(full) == "" {
      return [];
    }
    Windows.CharacterStepPositive(cfg.target, cfg.overlap);
    var ws := Windows.Cut(|full|, cfg.target * 4, Windows.CalcStep(cfg.target * 4, cfg.overlap * 4));
    cs := [];
    for k := 0 to |ws|
      invariant |cs| == k && IdsFrom(cs, newId)
      invariant forall j | 0 <= j < k :: IsCharacterChunk(cs[j], cfg, lines, doc, full, ws[j], j)
    {
      assert Windows.IsWindow(ws[k], |full|, cfg.target * 4, Windows.CalcStep(cfg.target * 4, cfg.overlap * 4), k);
      var content := full[ws[k].start..ws[k].end];
      cs := cs + [Chunk(newId(k), doc, NIL, k, content, "",
                        PlainMetadata(lines[0].page, lines[|lines| - 1].page,
                                      ws[k].start, ws[k].end, cfg.tokens(content)))];
    }
  }
}
