/** Value types shared by every stage of the pipe service, and the few relations
    on maps and sequences that the other modules use. */
module Domain {

  datatype Option<+T> = None | Some(value: T)

  /** UUIDs are numbers here; NIL is the all-zero UUID that marks "no vector". */
  type UUID = nat

  const NIL: UUID := 0

  datatype ExtractedLine = ExtractedLine(text: string, page: int)

  datatype ChunkMetadata = ChunkMetadata(
    startPage: int, endPage: int, startOffset: nat, endOffset: nat, tokenCount: nat,
    language: string, entities: seq<string>, keywords: seq<string>)

  /** The metadata of a chunk that has not been enriched yet. */
  function PlainMetadata(startPage: int, endPage: int, startOffset: nat, endOffset: nat, tokens: nat): ChunkMetadata {
    ChunkMetadata(startPage, endPage, startOffset, endOffset, tokens, "en", [], [])
  }

  datatype Chunk = Chunk(
    id: UUID, documentId: UUID, vectorId: UUID, index: nat,
    content: string, hash: string, metadata: ChunkMetadata)

  datatype Vector = Vector(id: UUID, hash: string, embedding: seq<real>)

  /** Generated ids never repeat. */
  ghost predicate IdsDiffer(newId: nat -> UUID) {
    forall p: nat, q: nat | p != q :: newId(p) != newId(q)
  }

  /** Chunk k has the k-th generated id. */
  ghost predicate IdsFrom(cs: seq<Chunk>, newId: nat -> UUID) {
    forall k: nat | k < |cs| :: cs[k].id == newId(k)
  }

  lemma IdsNext(cs: seq<Chunk>, c: Chunk, newId: nat -> UUID)
    requires IdsFrom(cs, newId) && c.id == newId(|cs|)
    ensures IdsFrom(cs + [c], newId)
  {
  }

  /** Every entry of m is also an entry of n. */
  ghost predicate Submap<K(!new), V(!new)>(m: map<K, V>, n: map<K, V>) {
    forall k | k in m :: k in n && n[k] == m[k]
  }

  /** The entries of m whose key is in ks. */
  function Restrict<K, V>(m: map<K, V>, ks: set<K>): map<K, V> {
    map k | k in m && k in ks :: m[k]
  }

  ghost predicate Distinct<T(!new)>(s: seq<T>) {
    forall i, j | 0 <= i < j < |s| :: s[i] != s[j]
  }

  /** The numbers 0, ..., n - 1. */
  function Below(n: nat): (r: set<nat>)
    ensures forall k: nat :: k in r <==> k < n
    ensures |r| == n
  {
    if n == 0 then {} else Below(n - 1) + {n - 1}
  }

  lemma InAppended<T>(s: seq<T>, x: T, y: T)
    ensures y in s + [x] <==> y in s || y == x
  {
  }

  lemma PrefixLast<T>(s: seq<T>, i: nat)
    requires i < |s|
    ensures var part := s[..i + 1]; part[..|part| - 1] == s[..i] && part[|part| - 1] == s[i]
  {
  }

  lemma {:induction false} SubsetSize<T>(a: set<T>, b: set<T>)
    requires a <= b
    ensures |a| <= |b|
  {
    if a != {} {
      var x :| x in a;
      SubsetSize(a - {x}, b - {x});
    }
  }

  /** Sets that differ at most in i differ in size accordingly. */
  lemma SizeUpdate<T>(a: set<T>, b: set<T>, i: T)
    requires a - {i} == b - {i}
    ensures |b| == |a| - (if i in a then 1 else 0) + (if i in b then 1 else 0)
  {
    var rest := a - {i};
    assert a == if i in a then rest + {i} else rest;
    assert b == if i in b then rest + {i} else rest;
  }

  /** strings.Join. */
  function Join(parts: seq<string>, sep: string): string {
    if parts == [] then ""
    else if |parts| == 1 then parts[0]
    else Join(parts[..|parts| - 1], sep) + sep + parts[|parts| - 1]
  }

  /** Where part i begins when the parts are laid end to end, gap characters between neighbours. */
  function Offset(parts: seq<string>, gap: nat, i: nat): nat
    requires i <= |parts|
  {
    if i == 0 then 0 else Offset(parts, gap, i - 1) + |parts[i - 1]| + gap
  }

  ghost predicate Stands(text: string, part: string, at: int) {
    0 <= at <= at + |part| <= |text| && text[at..at + |part|] == part
  }

  /** text is the parts in order, sep between neighbours, and nothing else. */
  ghost predicate LaidOut(text: string, parts: seq<string>, sep: string) {
    && |text| + (if parts == [] then 0 else |sep|) == Offset(parts, |sep|, |parts|)
    && forall i: nat | i < |parts| :: PartLaid(text, parts, sep, i)
  }

  ghost predicate PartLaid(text: string, parts: seq<string>, sep: string, i: nat)
    requires i < |parts|
  {
    && Stands(text, parts[i], Offset(parts, |sep|, i))
    && (i > 0 ==> Stands(text, sep, Offset(parts, |sep|, i) - |sep|))
  }

  lemma {:induction false} OffsetPrefix(parts: seq<string>, gap: nat, n: nat, i: nat)
    requires i <= n <= |parts|
    ensures Offset(parts[..n], gap, i) == Offset(parts, gap, i)
    decreases i
  {
    if i > 0 {
      OffsetPrefix(parts, gap, n, i - 1);
    }
  }

  lemma {:induction false} OffsetsGrow(parts: seq<string>, gap: nat, i: nat, j: nat)
    requires i < j <= |parts|
    ensures Offset(parts, gap, i) + |parts[i]| + gap <= Offset(parts, gap, j)
    decreases j
  {
    if i + 1 < j {
      OffsetsGrow(parts, gap, i, j - 1);
    }
  }

  /** Joining lays the parts out. */
  lemma {:induction false} JoinLaidOut(parts: seq<string>, sep: string)
    ensures LaidOut(Join(parts, sep), parts, sep)
  {
    if |parts| == 1 {
      assert Offset(parts, |sep|, 1) == Offset(parts, |sep|, 0) + |parts[0]| + |sep|;
      assert PartLaid(Join(parts, sep), parts, sep, 0);
    } else if |parts| > 1 {
      JoinLaidOut(parts[..|parts| - 1], sep);
      OnePartMore(Join(parts[..|parts| - 1], sep), parts, sep);
    }
  }

  lemma {:induction false} OnePartMore(text: string, parts: seq<string>, sep: string)
    requires |parts| > 1 && LaidOut(text, parts[..|parts| - 1], sep)
    ensures LaidOut(text + sep + parts[|parts| - 1], parts, sep)
  {
    var n := |parts| - 1;
    var more := text + sep + parts[n];
    OffsetPrefix(parts, |sep|, n, n);
    forall i: nat | i < n ensures PartLaid(more, parts, sep, i) {
      PartStays(text, parts, sep, i, sep + parts[n]);
      assert text + (sep + parts[n]) == more;
    }
    LastPart(text, parts[n], sep);
    assert PartLaid(more, parts, sep, n);
  }

  lemma {:induction false} PartStays(text: string, parts: seq<string>, sep: string, i: nat, more: string)
    requires i + 1 < |parts| && LaidOut(text, parts[..|parts| - 1], sep)
    ensures PartLaid(text + more, parts, sep, i)
  {
    OffsetPrefix(parts, |sep|, |parts| - 1, i);
    assert PartLaid(text, parts[..|parts| - 1], sep, i);
    StandsInMore(text, more, parts[i], Offset(parts, |sep|, i));
    if i > 0 {
      StandsInMore(text, more, sep, Offset(parts, |sep|, i) - |sep|);
    }
  }

  lemma LastPart(text: string, part: string, sep: string)
    ensures Stands(text + sep + part, sep, |text|) && Stands(text + sep + part, part, |text| + |sep|)
  {
  }

  lemma StandsInMore(text: string, more: string, part: string, at: int)
    requires Stands(text, part, at)
    ensures Stands(text + more, part, at)
  {
    assert (text + more)[at..at + |part|] == text[at..at + |part|];
  }

  /** The parts determine the text. */
  lemma {:induction false} LaidOutUnique(x: string, y: string, parts: seq<string>, sep: string)
    requires LaidOut(x, parts, sep) && LaidOut(y, parts, sep)
    ensures x == y
  {
    if parts != [] {
      var n := |parts| - 1;
      LaidOutAlike(x, y, parts, sep, n);
      assert x == x[..Offset(parts, |sep|, n) + |parts[n]|];
      assert y == y[..Offset(parts, |sep|, n) + |parts[n]|];
    }
  }

  lemma AlikeFurther(x: string, y: string, o: nat, part: string)
    requires o <= |x| && o <= |y| && x[..o] == y[..o] && Stands(x, part, o) && Stands(y, part, o)
    ensures x[..o + |part|] == y[..o + |part|]
  {
    assert x[..o + |part|] == x[..o] + x[o..o + |part|];
    assert y[..o + |part|] == y[..o] + y[o..o + |part|];
  }

  /** Laid out means joined. */
  lemma LaidOutIsJoin(text: string, parts: seq<string>, sep: string)
    requires LaidOut(text, parts, sep)
    ensures text == Join(parts, sep)
  {
    JoinLaidOut(parts, sep);
    LaidOutUnique(text, Join(parts, sep), parts, sep);
  }

  lemma {:induction false} JoinConcat(a: seq<string>, b: seq<string>, sep: string)
    requires a != [] && b != []
    ensures Join(a + b, sep) == Join(a, sep) + sep + Join(b, sep)
    decreases |b|
  {
    var n := |b| - 1;
    assert (a + b)[..|a| + n] == a + b[..n];
    if n == 0 {
      assert a + b[..0] == a;
    } else {
      JoinConcat(a, b[..n], sep);
      var x, y, z := Join(a, sep), Join(b[..n], sep), b[n];
      assert (x + sep + y) + sep + z == x + sep + (y + sep + z);
    }
  }

  lemma {:induction false} JoinFirst(parts: seq<string>, sep: string)
    requires parts != []
    ensures Join(parts[..1], sep) == parts[0]
  {
  }

  lemma {:induction false} JoinNext(parts: seq<string>, sep: string, k: nat)
    requires 0 < k < |parts|
    ensures Join(parts[..k + 1], sep) == Join(parts[..k], sep) + sep + parts[k]
  {
    assert parts[..k + 1][..k] == parts[..k];
  }

  lemma {:induction false} LaidOutAlike(x: string, y: string, parts: seq<string>, sep: string, i: nat)
    requires LaidOut(x, parts, sep) && LaidOut(y, parts, sep) && i < |parts|
    ensures Offset(parts, |sep|, i) + |parts[i]| <= |x| && Offset(parts, |sep|, i) + |parts[i]| <= |y|
    ensures x[..Offset(parts, |sep|, i) + |parts[i]|] == y[..Offset(parts, |sep|, i) + |parts[i]|]
    decreases i
  {
    var o := Offset(parts, |sep|, i);
    assert PartLaid(x, parts, sep, i) && PartLaid(y, parts, sep, i);
    if i > 0 {
      LaidOutAlike(x, y, parts, sep, i - 1);
      var p := o - |sep|;
      assert x[..o + |parts[i]|] == x[..p] + x[p..o] + x[o..o + |parts[i]|];
      assert y[..o + |parts[i]|] == y[..p] + y[p..o] + y[o..o + |parts[i]|];
    }
  }

  /** A position in a list of lines. */
  datatype Place = Place(line: nat, at: nat)

  predicate Before(p: Place, q: Place) {
    p.line < q.line || (p.line == q.line && p.at < q.at)
  }

  ghost predicate InReadingOrder(ps: seq<Place>) {
    forall i, j | 0 <= i < j < |ps| :: Before(ps[i], ps[j])
  }

  lemma LaterPlaces(p: seq<Place>, q: seq<Place>, n: nat)
    requires InReadingOrder(p) && forall i | 0 <= i < |p| :: p[i].line < n
    requires InReadingOrder(q) && forall i | 0 <= i < |q| :: q[i].line == n
    ensures InReadingOrder(p + q)
  {
  }

  ghost predicate SamePlaces(p: seq<Place>, q: seq<Place>) {
    (forall x | x in p :: x in q) && (forall x | x in q :: x in p)
  }

  /** Which places are listed decides the list. */
  lemma {:induction false} PlacesUnique(p: seq<Place>, q: seq<Place>)
    requires InReadingOrder(p) && InReadingOrder(q) && SamePlaces(p, q)
    ensures p == q
  {
    assert p != [] ==> p[0] in q;
    assert q != [] ==> q[0] in p;
    if p != [] {
      LastPlace(p, q);
      PlacesUnique(p[..|p| - 1], q[..|q| - 1]);
    }
  }

  lemma {:induction false} LastPlace(p: seq<Place>, q: seq<Place>)
    requires InReadingOrder(p) && InReadingOrder(q) && SamePlaces(p, q) && p != [] && q != []
    ensures p[|p| - 1] == q[|q| - 1] && SamePlaces(p[..|p| - 1], q[..|q| - 1])
  {
    var a, b := p[|p| - 1], q[|q| - 1];
    assert a in q && b in p;
    AllBefore(p);
    AllBefore(q);
    assert a == b;
    var init, rest := p[..|p| - 1], q[..|q| - 1];
    forall x | x in init ensures x in rest {
      assert x in p && x in q && Before(x, a);
    }
    forall x | x in rest ensures x in init {
      assert x in q && x in p && Before(x, b);
    }
  }

  lemma {:induction false} AllBefore(p: seq<Place>)
    requires InReadingOrder(p) && p != []
    ensures forall x | x in p :: x == p[|p| - 1] || (x in p[..|p| - 1] && Before(x, p[|p| - 1]))
    ensures forall x | x in p[..|p| - 1] :: x in p && Before(x, p[|p| - 1])
  {
  }

  function Min(a: int, b: int): int {
    if a <= b then a else b
  }

  function Max(a: int, b: int): int {
    if a >= b then a else b
  }
}
