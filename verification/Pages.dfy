/** From the text stream to numbered, cleaned lines: the scan loop of extractor.go and the
    recurring-header filter of pipeline/normalizer.go. */
module Pages {
  import opened Domain

  const FORM_FEED: char := '\U{000C}'

  /** Text functions taken as given: trimming, byte length, and the clean-up of one line
      (NFKC, control characters, white space). */
  datatype TextOps = TextOps(trim: string -> string, byteLen: string -> nat, clean: string -> string)

  // -------------------------------------------------------------- form feeds

  function Count(s: string, c: char): nat {
    if s == "" then 0 else Count(s[..|s| - 1], c) + if s[|s| - 1] == c then 1 else 0
  }

  function Feeds(s: string): nat {
    Count(s, FORM_FEED)
  }

  /** Form feeds in a list of lines. */
  function FeedsIn(lines: seq<string>): nat {
    if lines == [] then 0 else FeedsIn(lines[..|lines| - 1]) + Feeds(lines[|lines| - 1])
  }

  /** strings.Split at a character: always one part more than there are separators. */
  function Split(s: string, sep: char): (parts: seq<string>)
    ensures |parts| == Count(s, sep) + 1
  {
    if s == "" then [""]
    else
      var init, c := Split(s[..|s| - 1], sep), s[|s| - 1];
      if c == sep then init + [""] else init[..|init| - 1] + [init[|init| - 1] + [c]]
  }

  /** Splitting leaves no separator in a part. */
  lemma {:induction false} SplitParts(s: string, sep: char)
    ensures forall k | 0 <= k < |Split(s, sep)| :: sep !in Split(s, sep)[k]
    decreases |s|
  {
    if s != "" {
      SplitParts(s[..|s| - 1], sep);
    }
  }

  /** Splitting loses nothing but the separators. */
  lemma {:induction false} SplitRejoins(s: string, sep: char)
    ensures Join(Split(s, sep), [sep]) == s
    decreases |s|
  {
    if s != "" {
      var init, c := Split(s[..|s| - 1], sep), s[|s| - 1];
      SplitRejoins(s[..|s| - 1], sep);
      assert s == s[..|s| - 1] + [c];
      if c == sep {
        assert Split(s, sep) == init + [""];
        JoinMore(init, [sep]);
      } else {
        assert Split(s, sep) == init[..|init| - 1] + [init[|init| - 1] + [c]];
        JoinLonger(init, [sep], [c]);
      }
    }
  }

  lemma {:induction false} JoinMore(parts: seq<string>, sep: string)
    requires parts != []
    ensures Join(parts + [""], sep) == Join(parts, sep) + sep
  {
    assert (parts + [""])[..|parts|] == parts;
  }

  lemma {:induction false} JoinLonger(parts: seq<string>, sep: string, more: string)
    requires parts != []
    ensures Join(parts[..|parts| - 1] + [parts[|parts| - 1] + more], sep) == Join(parts, sep) + more
  {
    var n := |parts| - 1;
    var longer := parts[..n] + [parts[n] + more];
    assert longer[..n] == parts[..n];
    if n > 0 {
      assert Join(parts[..n], sep) + sep + (parts[n] + more) == Join(parts[..n], sep) + sep + parts[n] + more;
    }
  }

  function SplitFeeds(s: string): (parts: seq<string>)
    ensures |parts| == Feeds(s) + 1
  {
    Split(s, FORM_FEED)
  }

  lemma {:induction false} FeedsSplit(a: string, b: string)
    ensures Feeds(a + b) == Feeds(a) + Feeds(b)
    decreases |b|
  {
    if b == "" {
      assert a + b == a;
    } else {
      assert (a + b)[..|a + b| - 1] == a + b[..|b| - 1];
      FeedsSplit(a, b[..|b| - 1]);
    }
  }

  /** s[o..e] has no form feed and reaches from one to the next, or to an end of s. */
  ghost predicate IsPiece(s: string, o: nat, e: nat) {
    && o <= e <= |s| && FORM_FEED !in s[o..e]
    && (o > 0 ==> s[o - 1] == FORM_FEED) && (e < |s| ==> s[e] == FORM_FEED)
  }

  lemma {:induction false} NoFeeds(s: string)
    ensures Feeds(s) == 0 <==> FORM_FEED !in s
  {
    if s != "" {
      NoFeeds(s[..|s| - 1]);
    }
  }

  lemma {:induction false} PartsLaidOut(s: string)
    ensures LaidOut(s, SplitFeeds(s), [FORM_FEED])
    ensures forall k | 0 <= k < |SplitFeeds(s)| :: FORM_FEED !in SplitFeeds(s)[k]
  {
    SplitRejoins(s, FORM_FEED);
    SplitParts(s, FORM_FEED);
    JoinLaidOut(SplitFeeds(s), [FORM_FEED]);
  }

  /** Where part j of a split line begins. */
  ghost function PartStart(s: string, j: nat): nat
    requires j <= |SplitFeeds(s)|
  {
    Offset(SplitFeeds(s), 1, j)
  }

  lemma {:induction false} PartIsPiece(s: string, j: nat)
    requires j < |SplitFeeds(s)|
    ensures var o, part := PartStart(s, j), SplitFeeds(s)[j];
            IsPiece(s, o, o + |part|) && s[o..o + |part|] == part
  {
    PartsLaidOut(s);
    var parts := SplitFeeds(s);
    assert PartLaid(s, parts, [FORM_FEED], j);
    if j + 1 < |parts| {
      assert PartLaid(s, parts, [FORM_FEED], j + 1);
    }
  }

  lemma {:induction false} FeedsBeforePart(s: string, j: nat)
    requires j < |SplitFeeds(s)|
    ensures PartStart(s, j) <= |s| && Feeds(s[..PartStart(s, j)]) == j
  {
    PartIsPiece(s, j);
    if j > 0 {
      FeedsBeforePart(s, j - 1);
      PartIsPiece(s, j - 1);
      var p, o, part := PartStart(s, j - 1), PartStart(s, j), SplitFeeds(s)[j - 1];
      NoFeeds(part);
      FeedsSplit(s[..p], part);
      FeedsSplit(s[..p] + part, [FORM_FEED]);
      assert s[..o] == s[..p] + part + [FORM_FEED];
    }
  }

  lemma FeedsLater(s: string, o: nat, p: nat)
    requires o < p <= |s| && s[p - 1] == FORM_FEED
    ensures Feeds(s[..o]) < Feeds(s[..p])
  {
    assert s[..p] == s[..o] + s[o..p];
    FeedsSplit(s[..o], s[o..p]);
    NoFeeds(s[o..p]);
    assert s[o..p][p - 1 - o] == FORM_FEED;
  }

  lemma NoFeedInside(s: string, o: nat, e: nat)
    requires o <= e <= |s| && FORM_FEED !in s[o..e]
    ensures forall p | o <= p < e :: s[p] != FORM_FEED
  {
    forall p | o <= p < e ensures s[p] != FORM_FEED {
      assert s[o..e][p - o] == s[p];
    }
  }

  /** A piece is decided by the form feeds before it. */
  lemma PieceUnique(s: string, o: nat, e: nat, p: nat, f: nat)
    requires IsPiece(s, o, e) && IsPiece(s, p, f) && Feeds(s[..o]) == Feeds(s[..p])
    ensures o == p && e == f
  {
    if o < p {
      FeedsLater(s, o, p);
    } else if p < o {
      FeedsLater(s, p, o);
    }
    NoFeedInside(s, o, e);
    NoFeedInside(s, p, f);
  }

  lemma FeedsUpTo(s: string, o: nat)
    requires o <= |s|
    ensures Feeds(s[..o]) <= Feeds(s)
  {
    FeedsSplit(s[..o], s[o..]);
    assert s == s[..o] + s[o..];
  }

  lemma PieceIsPart(s: string, o: nat, e: nat) returns (j: nat)
    requires IsPiece(s, o, e)
    ensures j < |SplitFeeds(s)| && o == PartStart(s, j) && e == o + |SplitFeeds(s)[j]|
  {
    j := Feeds(s[..o]);
    FeedsUpTo(s, o);
    FeedsBeforePart(s, j);
    PartIsPiece(s, j);
    PieceUnique(s, o, e, PartStart(s, j), PartStart(s, j) + |SplitFeeds(s)[j]|);
  }

  // --------------------------------------------------------------- extraction

  /** The non-blank ones of the first k parts of a split line, on consecutive pages. */
  function EmitParts(parts: seq<string>, page: nat, ops: TextOps, k: nat): seq<ExtractedLine>
    requires k <= |parts|
  {
    if k == 0 then []
    else
      EmitParts(parts, page, ops, k - 1)
        + if ops.trim(parts[k - 1]) != "" then [ExtractedLine(parts[k - 1], page + k - 1)] else []
  }

  /** What one scanned line contributes: itself, blank or not, unless it has form feeds. */
  function Emit(line: string, page: nat, ops: TextOps): seq<ExtractedLine> {
    if Feeds(line) == 0 then [ExtractedLine(line, page)]
    else EmitParts(SplitFeeds(line), page, ops, Feeds(line) + 1)
  }

  function Extracted(lines: seq<string>, ops: TextOps): seq<ExtractedLine> {
    if lines == [] then []
    else
      var n := |lines| - 1;
      Extracted(lines[..n], ops) + Emit(lines[n], 1 + FeedsIn(lines[..n]), ops)
  }

  lemma {:induction false} FeedsNext(lines: seq<string>, i: nat)
    requires i < |lines|
    ensures FeedsIn(lines[..i + 1]) == FeedsIn(lines[..i]) + Feeds(lines[i])
  {
    PrefixLast(lines, i);
  }

  lemma {:induction false} ExtractedLast(lines: seq<string>, ops: TextOps, before: seq<ExtractedLine>, page: nat)
    requires lines != [] && before == Extracted(lines[..|lines| - 1], ops) && page == 1 + FeedsIn(lines[..|lines| - 1])
    ensures Extracted(lines, ops) == before + Emit(lines[|lines| - 1], page, ops)
  {
  }

  lemma {:induction false} ExtractedNext(
    lines: seq<string>, i: nat, ops: TextOps, before: seq<ExtractedLine>, page: nat)
    requires i < |lines| && before == Extracted(lines[..i], ops) && page == 1 + FeedsIn(lines[..i])
    ensures Extracted(lines[..i + 1], ops) == before + Emit(lines[i], page, ops)
  {
    PrefixLast(lines, i);
    ExtractedLast(lines[..i + 1], ops, before, page);
  }

  /** What is to be sent: each line without form feeds, and each piece between form feeds
      that does not trim to nothing. */
  ghost predicate IsSent(lines: seq<string>, ops: TextOps, i: nat, o: nat, e: nat) {
    && i < |lines| && IsPiece(lines[i], o, e)
    && (FORM_FEED in lines[i] ==> ops.trim(lines[i][o..e]) != "")
  }

  /** x is the piece at place p, and its page is 1 plus the form feeds before it. */
  ghost predicate SentAt(x: ExtractedLine, lines: seq<string>, ops: TextOps, p: Place) {
    && IsSent(lines, ops, p.line, p.at, p.at + |x.text|)
    && x.text == lines[p.line][p.at..p.at + |x.text|]
    && x.page == 1 + FeedsIn(lines[..p.line]) + Feeds(lines[p.line][..p.at])
  }

  /** All that is to be sent, once each, in the order of the stream, and nothing else. */
  ghost predicate IsExtraction(sent: seq<ExtractedLine>, lines: seq<string>, ops: TextOps, at: seq<Place>) {
    && |at| == |sent| && InReadingOrder(at)
    && (forall m | 0 <= m < |sent| :: SentAt(sent[m], lines, ops, at[m]))
    && forall i: nat, o: nat, e: nat | IsSent(lines, ops, i, o, e) :: Place(i, o) in at
  }

  /** The stream determines what is sent. */
  lemma ExtractionUnique(
    x: seq<ExtractedLine>, y: seq<ExtractedLine>, lines: seq<string>, ops: TextOps, p: seq<Place>, q: seq<Place>)
    requires IsExtraction(x, lines, ops, p) && IsExtraction(y, lines, ops, q)
    ensures x == y
  {
    forall m | 0 <= m < |p| ensures p[m] in q {
      assert SentAt(x[m], lines, ops, p[m]);
    }
    forall m | 0 <= m < |q| ensures q[m] in p {
      assert SentAt(y[m], lines, ops, q[m]);
    }
    PlacesUnique(p, q);
    forall m | 0 <= m < |x| ensures x[m] == y[m] {
      assert SentAt(x[m], lines, ops, p[m]) && SentAt(y[m], lines, ops, q[m]);
      var s, o := lines[p[m].line], p[m].at;
      PieceUnique(s, o, o + |x[m].text|, o, o + |y[m].text|);
    }
  }

  /** Which of the first k parts are sent. */
  ghost predicate PartsSent(
    out: seq<ExtractedLine>, parts: seq<string>, page: nat, ops: TextOps, k: nat, at: seq<nat>)
    requires k <= |parts|
  {
    && |at| == |out|
    && (forall m | 0 <= m < |at| ::
          at[m] < k && ops.trim(parts[at[m]]) != "" && out[m] == ExtractedLine(parts[at[m]], page + at[m]))
    && (forall m, n | 0 <= m < n < |at| :: at[m] < at[n])
    && forall j: nat | j < k && ops.trim(parts[j]) != "" :: j in at
  }

  lemma {:induction false} EmittedParts(parts: seq<string>, page: nat, ops: TextOps, k: nat) returns (at: seq<nat>)
    requires k <= |parts|
    ensures PartsSent(EmitParts(parts, page, ops, k), parts, page, ops, k, at)
  {
    at := [];
    if k > 0 {
      at := EmittedParts(parts, page, ops, k - 1);
      if ops.trim(parts[k - 1]) != "" {
        at := at + [k - 1];
      }
    }
  }

  /** The extraction of line n alone. */
  ghost predicate LineSent(
    out: seq<ExtractedLine>, lines: seq<string>, ops: TextOps, n: nat, at: seq<Place>)
  {
    && |at| == |out| && InReadingOrder(at)
    && (forall m | 0 <= m < |at| :: at[m].line == n && SentAt(out[m], lines, ops, at[m]))
    && forall o: nat, e: nat | IsSent(lines, ops, n, o, e) :: Place(n, o) in at
  }

  lemma PartSent(lines: seq<string>, n: nat, ops: TextOps, j: nat)
    requires n < |lines| && j < |SplitFeeds(lines[n])|
    requires FORM_FEED in lines[n] ==> ops.trim(SplitFeeds(lines[n])[j]) != ""
    ensures SentAt(ExtractedLine(SplitFeeds(lines[n])[j], 1 + FeedsIn(lines[..n]) + j), lines, ops,
                   Place(n, PartStart(lines[n], j)))
  {
    PartIsPiece(lines[n], j);
    FeedsBeforePart(lines[n], j);
  }

  lemma PlainLineSent(lines: seq<string>, n: nat, ops: TextOps)
    requires n < |lines| && Feeds(lines[n]) == 0
    ensures LineSent([ExtractedLine(lines[n], 1 + FeedsIn(lines[..n]))], lines, ops, n, [Place(n, 0)])
  {
    var s := lines[n];
    NoFeeds(s);
    assert s[..0] == "" && s[0..|s|] == s;
    assert IsPiece(s, 0, |s|);
    NoFeedInside(s, 0, |s|);
    forall o: nat, e: nat | IsSent(lines, ops, n, o, e) ensures Place(n, o) in [Place(n, 0)] {
      assert o == 0;
    }
  }

  lemma SplitLineSent(lines: seq<string>, n: nat, ops: TextOps) returns (at: seq<Place>)
    requires n < |lines| && Feeds(lines[n]) > 0
    ensures LineSent(EmitParts(SplitFeeds(lines[n]), 1 + FeedsIn(lines[..n]), ops, |SplitFeeds(lines[n])|),
                     lines, ops, n, at)
  {
    var s, page := lines[n], 1 + FeedsIn(lines[..n]);
    var parts := SplitFeeds(s);
    NoFeeds(s);
    var out := EmitParts(parts, page, ops, |parts|);
    var js := EmittedParts(parts, page, ops, |parts|);
    at := PartPlaces(s, n, js);
    forall m | 0 <= m < |at| ensures at[m].line == n && SentAt(out[m], lines, ops, at[m]) {
      PartSent(lines, n, ops, js[m]);
    }
    forall o: nat, e: nat | IsSent(lines, ops, n, o, e) ensures Place(n, o) in at {
      PieceListed(lines, ops, n, o, e, out, js);
    }
  }

  ghost function PartPlaces(s: string, n: nat, js: seq<nat>): (at: seq<Place>)
    requires forall m | 0 <= m < |js| :: js[m] < |SplitFeeds(s)|
    requires forall i, j | 0 <= i < j < |js| :: js[i] < js[j]
    ensures |at| == |js| && InReadingOrder(at)
    ensures forall m | 0 <= m < |js| :: at[m] == Place(n, PartStart(s, js[m]))
  {
    assert forall i, j | 0 <= i < j < |js| :: PartStart(s, js[i]) < PartStart(s, js[j]) by {
      forall i, j | 0 <= i < j < |js| ensures PartStart(s, js[i]) < PartStart(s, js[j]) {
        OffsetsGrow(SplitFeeds(s), 1, js[i], js[j]);
      }
    }
    seq(|js|, m requires 0 <= m < |js| => Place(n, PartStart(s, js[m])))
  }

  lemma PieceListed(
    lines: seq<string>, ops: TextOps, n: nat, o: nat, e: nat, out: seq<ExtractedLine>, js: seq<nat>)
    requires IsSent(lines, ops, n, o, e) && FORM_FEED in lines[n]
    requires PartsSent(out, SplitFeeds(lines[n]), 1 + FeedsIn(lines[..n]), ops, |SplitFeeds(lines[n])|, js)
    ensures Place(n, o) in PartPlaces(lines[n], n, js)
  {
    var j := PieceIsPart(lines[n], o, e);
    PartIsPiece(lines[n], j);
    var m :| 0 <= m < |js| && js[m] == j;
    assert PartPlaces(lines[n], n, js)[m] == Place(n, o);
  }

  lemma EmittedLine(lines: seq<string>, n: nat, ops: TextOps) returns (at: seq<Place>)
    requires n < |lines|
    ensures LineSent(Emit(lines[n], 1 + FeedsIn(lines[..n]), ops), lines, ops, n, at)
  {
    if Feeds(lines[n]) == 0 {
      PlainLineSent(lines, n, ops);
      at := [Place(n, 0)];
    } else {
      at := SplitLineSent(lines, n, ops);
    }
  }

  lemma SentInLonger(x: ExtractedLine, lines: seq<string>, n: nat, ops: TextOps, p: Place)
    requires n <= |lines| && SentAt(x, lines[..n], ops, p)
    ensures SentAt(x, lines, ops, p)
  {
    assert lines[..n][..p.line] == lines[..p.line];
  }

  /** Extraction is complete: every line without form feeds and every piece between them that
      does not trim to nothing is sent, once, in order and on its page, and nothing else is. */
  lemma {:induction false} ExtractedExactly(lines: seq<string>, ops: TextOps) returns (at: seq<Place>)
    ensures IsExtraction(Extracted(lines, ops), lines, ops, at)
    decreases |lines|
  {
    if lines == [] {
      at := [];
    } else {
      var n := |lines| - 1;
      var before := ExtractedExactly(lines[..n], ops);
      var last := EmittedLine(lines, n, ops);
      OneLineMore(Extracted(lines[..n], ops), Emit(lines[n], 1 + FeedsIn(lines[..n]), ops), lines, ops, before, last);
      ExtractedLast(lines, ops, Extracted(lines[..n], ops), 1 + FeedsIn(lines[..n]));
      at := before + last;
    }
  }

  lemma OneLineMore(
    a: seq<ExtractedLine>, b: seq<ExtractedLine>, lines: seq<string>, ops: TextOps, p: seq<Place>, q: seq<Place>)
    requires lines != [] && IsExtraction(a, lines[..|lines| - 1], ops, p)
    requires LineSent(b, lines, ops, |lines| - 1, q)
    ensures IsExtraction(a + b, lines, ops, p + q)
  {
    var n := |lines| - 1;
    forall m | 0 <= m < |p + q| ensures SentAt((a + b)[m], lines, ops, (p + q)[m]) {
      if m < |p| {
        assert SentAt(a[m], lines[..n], ops, p[m]);
        SentInLonger(a[m], lines, n, ops, p[m]);
      } else {
        assert SentAt(b[m - |p|], lines, ops, q[m - |p|]);
      }
    }
    EarlierLines(a, lines, ops, p);
    LaterPlaces(p, q, n);
    forall i: nat, o: nat, e: nat | IsSent(lines, ops, i, o, e) ensures Place(i, o) in p + q {
      if i < n {
        assert IsSent(lines[..n], ops, i, o, e);
      }
    }
  }

  lemma EarlierLines(a: seq<ExtractedLine>, lines: seq<string>, ops: TextOps, p: seq<Place>)
    requires lines != [] && IsExtraction(a, lines[..|lines| - 1], ops, p)
    ensures forall m | 0 <= m < |p| :: p[m].line < |lines| - 1
  {
    forall m | 0 <= m < |p| ensures p[m].line < |lines| - 1 {
      assert SentAt(a[m], lines[..|lines| - 1], ops, p[m]);
    }
  }

  /** Page provenance: every extracted line is a piece of the stream, and its page number is
      1 plus the number of form feeds before that piece. */
  lemma PageProvenance(lines: seq<string>, ops: TextOps, m: nat) returns (p: Place)
    requires m < |Extracted(lines, ops)|
    ensures SentAt(Extracted(lines, ops)[m], lines, ops, p)
  {
    var at := ExtractedExactly(lines, ops);
    p := at[m];
  }

  ghost predicate PagesNondecreasing(xs: seq<ExtractedLine>) {
    forall i, j | 0 <= i < j < |xs| :: xs[i].page <= xs[j].page
  }

  ghost predicate PagesWithin(xs: seq<ExtractedLine>, lo: int, hi: int) {
    forall i | 0 <= i < |xs| :: lo <= xs[i].page <= hi
  }

  lemma {:induction false} EmitPages(parts: seq<string>, page: nat, ops: TextOps, k: nat)
    requires k <= |parts|
    ensures PagesNondecreasing(EmitParts(parts, page, ops, k))
    ensures PagesWithin(EmitParts(parts, page, ops, k), page, page + k - 1)
  {
    if k > 0 {
      EmitPages(parts, page, ops, k - 1);
    }
  }


  lemma EmitLinePages(line: string, page: nat, ops: TextOps)
    ensures InOrder(Emit(line, page, ops), page, page + Feeds(line))
  {
    if Feeds(line) > 0 {
      EmitPages(SplitFeeds(line), page, ops, Feeds(line) + 1);
    }
  }

  ghost predicate InOrder(xs: seq<ExtractedLine>, lo: int, hi: int) {
    PagesNondecreasing(xs) && PagesWithin(xs, lo, hi)
  }

  /** Extracted pages never go back, start at 1 or later and stay below the feed count. */
  lemma {:induction false} ExtractedPagesInOrder(lines: seq<string>, ops: TextOps)
    ensures InOrder(Extracted(lines, ops), 1, 1 + FeedsIn(lines))
  {
    if lines != [] {
      var n := |lines| - 1;
      ExtractedPagesInOrder(lines[..n], ops);
      EmittedInOrder(Extracted(lines, ops), 1 + FeedsIn(lines), Extracted(lines[..n], ops), lines[n],
                     1 + FeedsIn(lines[..n]), ops);
    }
  }

  lemma EmittedInOrder(
    all: seq<ExtractedLine>, last: nat, before: seq<ExtractedLine>, line: string, page: nat, ops: TextOps)
    requires page >= 1 && InOrder(before, 1, page)
    requires all == before + Emit(line, page, ops) && last == page + Feeds(line)
    ensures InOrder(all, 1, last)
  {
    EmitLinePages(line, page, ops);
    JoinPages(before, Emit(line, page, ops), 1, page, page + Feeds(line));
  }

  lemma JoinPages(a: seq<ExtractedLine>, b: seq<ExtractedLine>, lo: int, mid: int, hi: int)
    requires lo <= mid <= hi && InOrder(a, lo, mid) && InOrder(b, mid, hi)
    ensures InOrder(a + b, lo, hi)
  {
  }

  /** What was sent before a scan broke off is a beginning of what a longer scan sends. */
  lemma {:induction false} ExtractedPrefix(lines: seq<string>, k: nat, ops: TextOps)
    requires k <= |lines|
    ensures Extracted(lines[..k], ops) <= Extracted(lines, ops)
    decreases |lines|
  {
    var n := |lines| - 1;
    if k <= n {
      assert lines[..n][..k] == lines[..k];
      ExtractedPrefix(lines[..n], k, ops);
      LastLineExtends(lines, ops);
      PrefixTransitive(Extracted(lines[..k], ops), Extracted(lines[..n], ops), Extracted(lines, ops));
    } else {
      assert lines[..k] == lines;
    }
  }

  lemma LastLineExtends(lines: seq<string>, ops: TextOps)
    requires lines != []
    ensures Extracted(lines[..|lines| - 1], ops) <= Extracted(lines, ops)
  {
  }

  lemma PrefixTransitive<T>(a: seq<T>, b: seq<T>, c: seq<T>)
    requires a <= b <= c
    ensures a <= c
  {
  }

  /** The scan loop over the lines that could be read. A scanner or process error comes
      after they were sent, and after the channel was closed. */
  method ExtractFromReader(lines: seq<string>, ops: TextOps, fails: bool) returns (sent: seq<ExtractedLine>, err: bool)
    ensures sent == Extracted(lines, ops) && err == fails
    ensures exists at :: IsExtraction(sent, lines, ops, at)
  {
    var currentPage := 1;
    sent := [];
    for i := 0 to |lines|
      invariant currentPage == 1 + FeedsIn(lines[..i])
      invariant sent == Extracted(lines[..i], ops)
    {
      ExtractedNext(lines, i, ops, sent, currentPage);
      FeedsNext(lines, i);
      var more;
      more, currentPage := ScanLine(lines[i], currentPage, ops);
      sent := sent + more;
    }
    assert lines[..|lines|] == lines;
    ghost var at := ExtractedExactly(lines, ops);
    err := fails;
  }

  /** One scanned line: its parts when it has form feeds, itself otherwise. */
  method ScanLine(line: string, page: nat, ops: TextOps) returns (sent: seq<ExtractedLine>, currentPage: nat)
    ensures sent == Emit(line, page, ops) && currentPage == page + Feeds(line)
  {
    currentPage := page;
    var parts := SplitFeeds(line);
    if |parts| == 1 {
      return [ExtractedLine(line, currentPage)], currentPage;
    }
    sent := [];
    for j := 0 to |parts|
      invariant sent == EmitParts(parts, page, ops, j)
      invariant currentPage == page + if j == |parts| then j - 1 else j
    {
      if ops.trim(parts[j]) != "" {
        sent := sent + [ExtractedLine(parts[j], currentPage)];
      }
      if j < |parts| - 1 {
        currentPage := currentPage + 1;
      }
    }
  }

  // -------------------------------------------------------- recurring headers

  /** How many lines trim to t. */
  function Occurrences(xs: seq<ExtractedLine>, t: string, ops: TextOps): nat {
    if xs == [] then 0
    else Occurrences(xs[..|xs| - 1], t, ops) + if ops.trim(xs[|xs| - 1].text) == t then 1 else 0
  }

  function TotalPages(xs: seq<ExtractedLine>): int {
    if xs == [] then 0 else Max(TotalPages(xs[..|xs| - 1]), xs[|xs| - 1].page)
  }

  /** Only lines of 6 to 119 bytes can be headers. */
  predicate HeaderSized(t: string, ops: TextOps) {
    5 < ops.byteLen(t) < 120
  }

  /** A recurring header: a text of header size that occurs at least twice and on at least
      half as many lines as the document has pages. */
  predicate Recurring(xs: seq<ExtractedLine>, t: string, ops: TextOps) {
    TotalPages(xs) > 1 && HeaderSized(t, ops) && Occurrences(xs, t, ops) >= Max(TotalPages(xs) / 2, 2)
  }

  /** The lines of xs that are no header of all, cleaned, in order. */
  function Kept(xs: seq<ExtractedLine>, all: seq<ExtractedLine>, ops: TextOps): seq<ExtractedLine> {
    if xs == [] then []
    else
      var x := xs[|xs| - 1];
      Kept(xs[..|xs| - 1], all, ops)
        + if Recurring(all, ops.trim(x.text), ops) then [] else [Cleaned(x, ops)]
  }

  /** First pass: counts trimmed lines of header size and finds the number of pages. */
  method CountLines(xs: seq<ExtractedLine>, ops: TextOps) returns (counts: map<string, nat>, totalPages: int)
    ensures totalPages == TotalPages(xs)
    ensures forall t :: t in counts <==> HeaderSized(t, ops) && Occurrences(xs, t, ops) > 0
    ensures forall t | t in counts :: counts[t] == Occurrences(xs, t, ops)
  {
    counts, totalPages := map[], 0;
    for i := 0 to |xs|
      invariant totalPages == TotalPages(xs[..i])
      invariant forall t :: t in counts <==> HeaderSized(t, ops) && Occurrences(xs[..i], t, ops) > 0
      invariant forall t | t in counts :: counts[t] == Occurrences(xs[..i], t, ops)
    {
      assert xs[..i + 1][..i] == xs[..i];
      if xs[i].page > totalPages {
        totalPages := xs[i].page;
      }
      var trimmed := ops.trim(xs[i].text);
      if ops.byteLen(trimmed) <= 5 || ops.byteLen(trimmed) >= 120 {
        continue;
      }
      counts := counts[trimmed := (if trimmed in counts then counts[trimmed] else 0) + 1];
    }
    assert xs[..|xs|] == xs;
  }

  /** Both passes: drops every line whose trimmed text recurs and cleans the others. */
  method NormalizeLines(xs: seq<ExtractedLine>, ops: TextOps) returns (r: seq<ExtractedLine>)
    ensures r == Kept(xs, xs, ops)
  {
    if xs == [] {
      return [];
    }
    var counts, totalPages := CountLines(xs, ops);
    var recurring: set<string> := {};
    if totalPages > 1 {
      var threshold := totalPages / 2;
      if threshold < 2 {
        threshold := 2;
      }
      recurring := set t | t in counts && counts[t] >= threshold;
    }
    assert forall t :: t in recurring <==> Recurring(xs, t, ops);
    r := [];
    for i := 0 to |xs|
      invariant r == Kept(xs[..i], xs, ops)
    {
      assert xs[..i + 1][..i] == xs[..i];
      if ops.trim(xs[i].text) in recurring {
        continue;
      }
      r := r + [ExtractedLine(ops.clean(xs[i].text), xs[i].page)];
    }
    assert xs[..|xs|] == xs;
  }

  function Cleaned(x: ExtractedLine, ops: TextOps): ExtractedLine {
    ExtractedLine(ops.clean(x.text), x.page)
  }

  /** Where the kept lines stood. */
  ghost function KeptPositions(xs: seq<ExtractedLine>, all: seq<ExtractedLine>, ops: TextOps): seq<nat> {
    if xs == [] then []
    else
      KeptPositions(xs[..|xs| - 1], all, ops)
        + if Recurring(all, ops.trim(xs[|xs| - 1].text), ops) then [] else [|xs| - 1]
  }

  /** The result is an order-preserving subsequence: strictly increasing positions, each
      line cleaned and on its old page, and a line is dropped exactly when its trimmed text
      recurs, so of the lines with one trimmed text all survive or none. */
  lemma {:induction false} KeptIsSubsequence(xs: seq<ExtractedLine>, all: seq<ExtractedLine>, ops: TextOps)
    ensures |KeptPositions(xs, all, ops)| == |Kept(xs, all, ops)|
    ensures forall k | 0 <= k < |KeptPositions(xs, all, ops)| ::
              && KeptPositions(xs, all, ops)[k] < |xs|
              && Kept(xs, all, ops)[k] == Cleaned(xs[KeptPositions(xs, all, ops)[k]], ops)
    ensures forall j, k | 0 <= j < k < |KeptPositions(xs, all, ops)| ::
              KeptPositions(xs, all, ops)[j] < KeptPositions(xs, all, ops)[k]
    ensures forall i: nat | i < |xs| :: i in KeptPositions(xs, all, ops) <==> !Recurring(all, ops.trim(xs[i].text), ops)
  {
    if xs != [] {
      KeptIsSubsequence(xs[..|xs| - 1], all, ops);
    }
  }

  /** The lines that trim to t. */
  ghost function Alike(xs: seq<ExtractedLine>, t: string, ops: TextOps): set<nat> {
    set j: nat | j < |xs| && ops.trim(xs[j].text) == t
  }

  lemma {:induction false} OccurrencesAreAlike(xs: seq<ExtractedLine>, t: string, ops: TextOps)
    ensures Occurrences(xs, t, ops) == |Alike(xs, t, ops)|
  {
    if xs != [] {
      var n := |xs| - 1;
      OccurrencesAreAlike(xs[..n], t, ops);
      var init := Alike(xs[..n], t, ops);
      assert Alike(xs, t, ops) == if ops.trim(xs[n].text) == t then init + {n} else init;
    }
  }

  lemma {:induction false} TotalPagesIsLast(xs: seq<ExtractedLine>)
    ensures TotalPages(xs) >= 0 && forall x | x in xs :: x.page <= TotalPages(xs)
    ensures TotalPages(xs) > 0 ==> exists x :: x in xs && x.page == TotalPages(xs)
  {
    if xs != [] {
      var n := |xs| - 1;
      TotalPagesIsLast(xs[..n]);
      assert xs[n] in xs && forall x | x in xs[..n] :: x in xs;
      assert forall x | x in xs :: x in xs[..n] || x == xs[n];
    }
  }

  /** Header removal in terms of the lines alone: a line goes exactly when the document has
      more than one page, the trimmed line is 6 to 119 bytes long, and at least two lines, and
      half as many as there are pages, trim to the same. The others stay in order, cleaned, on
      their pages. */
  lemma KeptExactly(xs: seq<ExtractedLine>, ops: TextOps) returns (at: seq<nat>, pages: int)
    ensures pages >= 0 && forall x | x in xs :: x.page <= pages
    ensures pages > 0 ==> exists x :: x in xs && x.page == pages
    ensures |at| == |Kept(xs, xs, ops)| && forall j, k | 0 <= j < k < |at| :: at[j] < at[k]
    ensures forall k | 0 <= k < |at| ::
              at[k] < |xs| && Kept(xs, xs, ops)[k] == ExtractedLine(ops.clean(xs[at[k]].text), xs[at[k]].page)
    ensures forall i: nat | i < |xs| ::
              var t := ops.trim(xs[i].text);
              i !in at <==>
                && pages > 1 && 6 <= ops.byteLen(t) <= 119
                && |set j: nat | j < |xs| && ops.trim(xs[j].text) == t| >= (if pages / 2 < 2 then 2 else pages / 2)
  {
    at, pages := KeptPositions(xs, xs, ops), TotalPages(xs);
    TotalPagesIsLast(xs);
    KeptIsSubsequence(xs, xs, ops);
    forall i: nat | i < |xs|
      ensures var t := ops.trim(xs[i].text); Occurrences(xs, t, ops) == |Alike(xs, t, ops)|
    {
      OccurrencesAreAlike(xs, ops.trim(xs[i].text), ops);
    }
  }

  lemma NormalizedPagesInOrder(xs: seq<ExtractedLine>, ops: TextOps)
    requires PagesNondecreasing(xs)
    ensures PagesNondecreasing(Kept(xs, xs, ops))
  {
    KeptIsSubsequence(xs, xs, ops);
  }
}
