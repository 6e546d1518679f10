/** MinHash signatures and the banded near-duplicate index (minhash_lsh.go). */
module MinHash {
  import opened Domain

  const TWO_64: nat := 0x1_0000_0000_0000_0000
  const PRIME: nat := 4294967311

  /** A bucket is named by its band and by the digest of the band's rows. */
  datatype BucketKey<D> = BucketKey(band: nat, digest: D)

  /** One IndexSignature call. */
  datatype Indexed = Indexed(sig: seq<nat>, id: UUID)

  // ---------------------------------------------------------------- signatures

  /** One universal hash: 64-bit wrap-around first, then the modulus. */
  function RowHash(a: nat, b: nat, sh: nat): nat {
    (a * sh + b) % TWO_64 % PRIME
  }

  function Shingle(words: seq<string>, i: nat): string
    requires i + 3 <= |words|
  {
    words[i] + " " + words[i + 1] + " " + words[i + 2]
  }

  /** The set a signature stands for: the hashes of all three-word shingles, or, for
      fewer than three words, the hash of the raw text alone. */
  function ShingleSet(text: string, words: seq<string>, hash: string -> nat): (s: set<nat>)
    ensures s != {}
  {
    if |words| < 3 then {hash(text)}
    else
      var s := set i: nat | i + 3 <= |words| :: hash(Shingle(words, i));
      assert hash(Shingle(words, 0)) in s;
      s
  }

  /** v is the least row hash over the set s, and some member attains it. */
  ghost predicate IsLeast(v: nat, a: nat, b: nat, s: set<nat>) {
    && (exists sh | sh in s :: v == RowHash(a, b, sh))
    && (forall sh | sh in s :: v <= RowHash(a, b, sh))
  }

  /** sig holds, row by row, the least row hash over the set s. */
  ghost predicate IsSignature(sig: seq<nat>, a: seq<nat>, b: seq<nat>, s: set<nat>)
    requires |a| == |b|
  {
    && |sig| == |a|
    && forall i | 0 <= i < |a| :: IsLeast(sig[i], a[i], b[i], s)
  }

  /** The signature is a function of the shingle set: order and multiplicity are gone. */
  lemma SignatureUnique(x: seq<nat>, y: seq<nat>, a: seq<nat>, b: seq<nat>, s: set<nat>)
    requires |a| == |b| && IsSignature(x, a, b, s) && IsSignature(y, a, b, s)
    ensures x == y
  {
  }

  /** What a row hash is: what is left of a * sh + b after whole wraps of 64 bits, and of that
      after whole primes. */
  lemma RowHashExactly(a: nat, b: nat, sh: nat) returns (wraps: nat, primes: nat)
    ensures a * sh + b == wraps * 0x1_0000_0000_0000_0000 + primes * 4294967311 + RowHash(a, b, sh)
    ensures RowHash(a, b, sh) < 4294967311
    ensures primes * 4294967311 + RowHash(a, b, sh) < 0x1_0000_0000_0000_0000
  {
    var x := a * sh + b;
    wraps := x / TWO_64;
    primes := x % TWO_64 / PRIME;
  }

  /** x is the hash of words j to j + 2 with blanks between them. */
  ghost predicate HashesThree(x: nat, words: seq<string>, hash: string -> nat, j: nat) {
    j + 3 <= |words| && x == hash(words[j] + " " + words[j + 1] + " " + words[j + 2])
  }

  lemma ShinglesExactly(text: string, words: seq<string>, hash: string -> nat, x: nat)
    ensures x in ShingleSet(text, words, hash) <==>
              if |words| < 3 then x == hash(text) else exists j: nat :: HashesThree(x, words, hash, j)
  {
    if |words| >= 3 {
      if x in ShingleSet(text, words, hash) {
        var j: nat :| j + 3 <= |words| && x == hash(Shingle(words, j));
        assert HashesThree(x, words, hash, j);
      }
      if j: nat :| HashesThree(x, words, hash, j) {
        assert x == hash(Shingle(words, j));
      }
    }
  }

  /** The signature in terms of the words: row i is the least value its row hash takes on the
      hashes of three words in a row, or its value on the whole text's hash when there are
      fewer than three words. */
  lemma SignatureExactly(
    sig: seq<nat>, a: seq<nat>, b: seq<nat>, text: string, words: seq<string>, hash: string -> nat, i: nat)
    requires |a| == |b| && IsSignature(sig, a, b, ShingleSet(text, words, hash)) && i < |a|
    ensures |sig| == |a|
    ensures |words| < 3 ==> sig[i] == RowHash(a[i], b[i], hash(text))
    ensures forall x, j: nat | HashesThree(x, words, hash, j) :: sig[i] <= RowHash(a[i], b[i], x)
    ensures |words| >= 3 ==> exists x, j: nat :: HashesThree(x, words, hash, j) && sig[i] == RowHash(a[i], b[i], x)
  {
    assert IsLeast(sig[i], a[i], b[i], ShingleSet(text, words, hash));
    var sh :| sh in ShingleSet(text, words, hash) && sig[i] == RowHash(a[i], b[i], sh);
    ShinglesExactly(text, words, hash, sh);
    forall x, j: nat | HashesThree(x, words, hash, j) ensures sig[i] <= RowHash(a[i], b[i], x) {
      ShinglesExactly(text, words, hash, x);
    }
  }

  function PointwiseMin(x: seq<nat>, y: seq<nat>): (z: seq<nat>)
    requires |x| == |y|
  {
    seq(|x|, i requires 0 <= i < |x| => if x[i] <= y[i] then x[i] else y[i])
  }

  /** The signature of a union is the pointwise minimum of the signatures. */
  lemma SignatureOfUnion(
    x: seq<nat>, y: seq<nat>, z: seq<nat>, a: seq<nat>, b: seq<nat>, s: set<nat>, t: set<nat>)
    requires |a| == |b| && IsSignature(x, a, b, s) && IsSignature(y, a, b, t)
    ensures IsSignature(z, a, b, s + t) <==> z == PointwiseMin(x, y)
  {
  }

  lemma SignatureBelowPrime(sig: seq<nat>, a: seq<nat>, b: seq<nat>, s: set<nat>)
    requires |a| == |b| && IsSignature(sig, a, b, s)
    ensures forall i | 0 <= i < |sig| :: sig[i] < PRIME
  {
  }

  // --------------------------------------------------------------------- bands

  /** The rows of one band; every band of every configuration lies inside the signature. */
  function Band(sig: seq<nat>, rows: nat, band: nat): seq<nat>
    requires (band + 1) * rows <= |sig|
  {
    assert band * rows <= (band + 1) * rows by { BandStart(band, rows); }
    sig[band * rows..(band + 1) * rows]
  }

  ghost predicate BandInside(sig: seq<nat>, rows: nat, band: nat) {
    (band + 1) * rows <= |sig|
  }

  lemma BandStart(band: nat, rows: nat)
    ensures (band + 1) * rows == band * rows + rows
  {
  }

  lemma QuotientFits(n: nat, m: nat)
    requires m > 0
    ensures m * (n / m) <= n
  {
  }

  lemma BandFits(band: nat, bands: nat, rows: nat, width: nat)
    requires band < bands && bands * rows <= width
    ensures (band + 1) * rows <= width
  {
  }

  /** Bands never share a row. */
  lemma BandsDisjoint(b0: nat, b1: nat, rows: nat, i: nat)
    requires b0 * rows <= i < (b0 + 1) * rows
    requires b1 * rows <= i < (b1 + 1) * rows
    ensures b0 == b1
  {
  }

  /** How many of the first n rows differ. */
  function Differences(x: seq<nat>, y: seq<nat>, n: nat): nat
    requires n <= |x| && n <= |y|
  {
    if n == 0 then 0
    else Differences(x, y, n - 1) + if x[n - 1] != y[n - 1] then 1 else 0
  }

  lemma {:induction false} DifferencesMonotone(x: seq<nat>, y: seq<nat>, m: nat, n: nat)
    requires m <= n <= |x| && n <= |y|
    ensures Differences(x, y, m) <= Differences(x, y, n)
    ensures (exists i | m <= i < n :: x[i] != y[i]) ==> Differences(x, y, m) < Differences(x, y, n)
    decreases n
  {
    if m < n {
      DifferencesMonotone(x, y, m, n - 1);
    }
  }

  /** If each of the first k bands differs somewhere, there are at least k differing rows. */
  lemma {:induction false} OneDifferencePerBand(x: seq<nat>, y: seq<nat>, rows: nat, k: nat)
    requires k * rows <= |x| == |y|
    requires forall band: nat | band < k ::
               BandInside(x, rows, band) && Band(x, rows, band) != Band(y, rows, band)
    ensures Differences(x, y, k * rows) >= k
  {
    if k > 0 {
      BandStart(k - 1, rows);
      OneDifferencePerBand(x, y, rows, k - 1);
      var p, q := Band(x, rows, k - 1), Band(y, rows, k - 1);
      assert |p| == |q| == rows;
      var j :| 0 <= j < rows && p[j] != q[j];
      assert x[(k - 1) * rows + j] != y[(k - 1) * rows + j];
      DifferencesMonotone(x, y, (k - 1) * rows, k * rows);
    }
  }

  /** Pigeonhole: fewer differing rows than bands leaves some band untouched. */
  lemma SomeBandAgrees(x: seq<nat>, y: seq<nat>, rows: nat, bands: nat) returns (band: nat)
    requires bands * rows <= |x| == |y|
    requires Differences(x, y, |x|) < bands
    ensures band < bands && (band + 1) * rows <= |x|
    ensures Band(x, rows, band) == Band(y, rows, band)
  {
    forall k: nat | k < bands ensures BandInside(x, rows, k) { BandFits(k, bands, rows, |x|); }
    DifferencesMonotone(x, y, bands * rows, |x|);
    if forall k: nat | k < bands :: BandInside(x, rows, k) && Band(x, rows, k) != Band(y, rows, k) {
      OneDifferencePerBand(x, y, rows, bands);
      assert false;
    }
    band :| band < bands && BandInside(x, rows, band) && Band(x, rows, band) == Band(y, rows, band);
  }

  // --------------------------------------------------------------------- index

  lemma HitsSnoc<D>(h: seq<Indexed>, e: Indexed, rows: nat, digest: seq<nat> -> D, band: nat, d: D)
    requires forall x | x in h :: (band + 1) * rows <= |x.sig|
    requires (band + 1) * rows <= |e.sig|
    ensures Hits(h + [e], rows, digest, band, d)
         == Hits(h, rows, digest, band, d) + if digest(Band(e.sig, rows, band)) == d then [e.id] else []
  {
  }

  /** What a linear scan over the history finds in one band, oldest first. */
  ghost function Hits<D>(h: seq<Indexed>, rows: nat, digest: seq<nat> -> D, band: nat, d: D): seq<UUID>
    requires forall e | e in h :: (band + 1) * rows <= |e.sig|
  {
    if h == [] then []
    else
      var e := h[|h| - 1];
      Hits(h[..|h| - 1], rows, digest, band, d)
        + if digest(Band(e.sig, rows, band)) == d then [e.id] else []
  }

  /** Signature k of the history is the first whose band digest equals d. */
  ghost predicate FirstHit<D>(h: seq<Indexed>, rows: nat, digest: seq<nat> -> D, band: nat, d: D, k: int)
    requires forall e | e in h :: (band + 1) * rows <= |e.sig|
  {
    && 0 <= k < |h|
    && digest(Band(h[k].sig, rows, band)) == d
    && forall j | 0 <= j < k :: digest(Band(h[j].sig, rows, band)) != d
  }

  /** The head of the hits is the earliest matching entry; no hits, no matching entry. */
  lemma {:induction false} HitsHead<D>(h: seq<Indexed>, rows: nat, digest: seq<nat> -> D, band: nat, d: D)
    requires forall e | e in h :: (band + 1) * rows <= |e.sig|
    ensures Hits(h, rows, digest, band, d) == [] ==>
              forall e | e in h :: digest(Band(e.sig, rows, band)) != d
    ensures Hits(h, rows, digest, band, d) != [] ==>
              exists k :: FirstHit(h, rows, digest, band, d, k)
                          && Hits(h, rows, digest, band, d)[0] == h[k].id
  {
    if h != [] {
      var n := |h| - 1;
      var rest := h[..n];
      HitsHead(rest, rows, digest, band, d);
      if Hits(rest, rows, digest, band, d) != [] {
        var k :| FirstHit(rest, rows, digest, band, d, k)
                 && Hits(rest, rows, digest, band, d)[0] == rest[k].id;
        assert FirstHit(h, rows, digest, band, d, k);
      } else if digest(Band(h[n].sig, rows, band)) == d {
        assert FirstHit(h, rows, digest, band, d, n) by {
          assert forall j | 0 <= j < n :: h[j] in rest;
        }
      } else {
        assert forall e | e in h :: e in rest || e == h[n];
      }
    }
  }

  /** The answer a linear scan gives: nothing when no indexed signature shares a band
      digest with the query, else the earliest entry on the smallest such band. */
  ghost predicate ScanAnswer<D>(
    h: seq<Indexed>, rows: nat, bands: nat, digest: seq<nat> -> D, sig: seq<nat>, answer: Option<UUID>)
    requires bands * rows <= |sig|
    requires forall e | e in h :: bands * rows <= |e.sig|
  {
    match answer
    case None => forall e, band: nat | e in h && band < bands :: !SameDigest(e.sig, sig, rows, digest, band)
    case Some(id) =>
      exists band: nat, k: nat ::
        && band < bands && k < |h| && h[k].id == id
        && SameDigest(h[k].sig, sig, rows, digest, band)
        && (forall j | 0 <= j < k :: !SameDigest(h[j].sig, sig, rows, digest, band))
        && (forall e, b: nat | e in h && b < band :: !SameDigest(e.sig, sig, rows, digest, b))
  }

  ghost predicate SameDigest<D>(x: seq<nat>, y: seq<nat>, rows: nat, digest: seq<nat> -> D, band: nat) {
    && (band + 1) * rows <= |x|
    && (band + 1) * rows <= |y|
    && digest(Band(x, rows, band)) == digest(Band(y, rows, band))
  }

  /** Completeness, for any digest: an indexed signature that differs from the query in
      fewer rows than there are bands is always reported. */
  lemma RecallGuarantee<D>(
    h: seq<Indexed>, rows: nat, bands: nat, digest: seq<nat> -> D, sig: seq<nat>, answer: Option<UUID>, e: Indexed)
    requires bands * rows <= |sig|
    requires forall x | x in h :: bands * rows <= |x.sig|
    requires ScanAnswer(h, rows, bands, digest, sig, answer)
    requires e in h && |e.sig| == |sig| && Differences(e.sig, sig, |sig|) < bands
    ensures answer.Some?
  {
    var band := SomeBandAgrees(e.sig, sig, rows, bands);
    assert SameDigest(e.sig, sig, rows, digest, band);
  }

  /** Soundness, for a digest without collisions: a report means a shared band. */
  lemma ReportIsSound<D>(
    h: seq<Indexed>, rows: nat, bands: nat, digest: seq<nat> -> D, sig: seq<nat>, answer: Option<UUID>)
    requires bands * rows <= |sig|
    requires forall x | x in h :: bands * rows <= |x.sig|
    requires forall p, q | digest(p) == digest(q) :: p == q
    requires ScanAnswer(h, rows, bands, digest, sig, answer)
    ensures answer.Some? <==>
              exists e, band: nat :: e in h && band < bands && (band + 1) * rows <= |sig|
                                     && (band + 1) * rows <= |e.sig|
                                     && Band(e.sig, rows, band) == Band(sig, rows, band)
  {
    if answer.Some? {
      var band: nat, k: nat :| band < bands && k < |h| && h[k].id == answer.value
                               && SameDigest(h[k].sig, sig, rows, digest, band);
      assert h[k] in h;
    } else {
      forall e, band: nat | e in h && band < bands && (band + 1) * rows <= |sig| && (band + 1) * rows <= |e.sig|
        ensures Band(e.sig, rows, band) != Band(sig, rows, band)
      {
        assert !SameDigest(e.sig, sig, rows, digest, band);
      }
    }
  }

  /** In this band the two signatures differ in the first row and nowhere else. */
  ghost predicate DiffersInFirstRow(x: seq<nat>, y: seq<nat>, rows: nat, band: nat) {
    && (band + 1) * rows <= |x| == |y|
    && forall r | 0 <= r < rows :: Band(x, rows, band)[r] != Band(y, rows, band)[r] <==> r == 0
  }

  /** The recall bound is exact: with as many differing rows as bands, one in each, the
      only indexed signature is not reported. */
  lemma RecallBoundIsTight<D>(
    x: Indexed, rows: nat, bands: nat, digest: seq<nat> -> D, sig: seq<nat>, answer: Option<UUID>)
    requires rows >= 1 && bands * rows == |sig| == |x.sig|
    requires forall p, q | digest(p) == digest(q) :: p == q
    requires forall band: nat | band < bands :: DiffersInFirstRow(x.sig, sig, rows, band)
    requires ScanAnswer([x], rows, bands, digest, sig, answer)
    ensures answer == None
    ensures Differences(x.sig, sig, |sig|) == bands
  {
    forall band: nat | band < bands ensures !SameDigest(x.sig, sig, rows, digest, band) {
      assert DiffersInFirstRow(x.sig, sig, rows, band);
      assert Band(x.sig, rows, band)[0] != Band(sig, rows, band)[0];
    }
    assert [x][0] == x;
    OneDifferenceInEachBand(x.sig, sig, rows, bands);
  }

  lemma {:induction false} OneDifferenceInEachBand(x: seq<nat>, y: seq<nat>, rows: nat, k: nat)
    requires rows >= 1 && k * rows <= |x| == |y|
    requires forall band: nat | band < k :: DiffersInFirstRow(x, y, rows, band)
    ensures Differences(x, y, k * rows) == k
  {
    if k > 0 {
      BandStart(k - 1, rows);
      OneDifferenceInEachBand(x, y, rows, k - 1);
      assert DiffersInFirstRow(x, y, rows, k - 1);
      OneDifferenceInBand(x, y, rows, k - 1, rows);
    }
  }

  lemma {:induction false} OneDifferenceInBand(x: seq<nat>, y: seq<nat>, rows: nat, band: nat, r: nat)
    requires 1 <= r <= rows && DiffersInFirstRow(x, y, rows, band)
    requires band * rows + r <= |x|
    ensures Differences(x, y, band * rows + r) == Differences(x, y, band * rows) + 1
    decreases r
  {
    BandStart(band, rows);
    assert Band(x, rows, band)[r - 1] == x[band * rows + (r - 1)];
    assert Band(y, rows, band)[r - 1] == y[band * rows + (r - 1)];
    if r > 1 {
      OneDifferenceInBand(x, y, rows, band, r - 1);
    }
  }

  class MinHashLSH<D(==,!new)> {
    const numHashes: nat
    const numBands: nat
    const rowsPerBand: nat
    const aCoeffs: seq<nat>
    const bCoeffs: seq<nat>
    const hash: string -> nat
    const digest: seq<nat> -> D
    var buckets: map<BucketKey<D>, seq<UUID>>
    ghost var history: seq<Indexed>

    ghost predicate Valid()
      reads this
    {
      && numHashes > 0 && numBands > 0
      && numBands * rowsPerBand <= numHashes
      && |aCoeffs| == |bCoeffs| == numHashes
      && (forall e | e in history :: |e.sig| == numHashes)
      && (forall band: nat, d: D | band < numBands :: Agrees(buckets, history, band, d))
    }

    /** Bucket (band, d) lists exactly what a scan of h finds there, in order. */
    ghost predicate Agrees(m: map<BucketKey<D>, seq<UUID>>, h: seq<Indexed>, band: nat, d: D) {
      && (forall e | e in h :: (band + 1) * rowsPerBand <= |e.sig|)
      && Bucket(m, band, d) == Hits(h, rowsPerBand, digest, band, d)
    }

    static function Bucket(m: map<BucketKey<D>, seq<UUID>>, band: nat, d: D): seq<UUID> {
      if BucketKey(band, d) in m then m[BucketKey(band, d)] else []
    }

    /** Non-positive sizes fall back to 64 hashes and 16 bands; draw stands for the
        seeded generator. */
    constructor (hashes: int, bands: int, draw: nat -> nat, hash: string -> nat, digest: seq<nat> -> D)
      ensures Valid() && history == []
      ensures numHashes == (if hashes <= 0 then 64 else hashes)
      ensures numBands == (if bands <= 0 then 16 else bands)
      ensures rowsPerBand == numHashes / numBands
      ensures this.hash == hash && this.digest == digest
      ensures forall i | 0 <= i < numHashes :: 1 <= aCoeffs[i] < PRIME && 1 <= bCoeffs[i] < PRIME
    {
      var n := if hashes <= 0 then 64 else hashes;
      var m := if bands <= 0 then 16 else bands;
      var a, b := [], [];
      for i := 0 to n
        invariant |a| == |b| == i
        invariant forall k | 0 <= k < i :: 1 <= a[k] < PRIME && 1 <= b[k] < PRIME
      {
        a := a + [draw(2 * i) % (PRIME - 1) + 1];
        b := b + [draw(2 * i + 1) % (PRIME - 1) + 1];
      }
      numHashes, numBands, rowsPerBand := n, m, n / m;
      aCoeffs, bCoeffs := a, b;
      this.hash, this.digest := hash, digest;
      buckets, history := map[], [];
      new;
      QuotientFits(n, m);
    }

    /** words is the lower-cased text split on white space. */
    method ComputeSignature(text: string, words: seq<string>) returns (sig: seq<nat>)
      requires Valid()
      ensures |sig| == numHashes
      ensures IsSignature(sig, aCoeffs, bCoeffs, ShingleSet(text, words, hash))
    {
      var hashes: seq<nat> := [];
      if |words| < 3 {
        hashes := [hash(text)];
      } else {
        for i := 0 to |words| - 2
          invariant |hashes| == i
          invariant forall k: nat | k < i :: hashes[k] == hash(Shingle(words, k))
        {
          hashes := hashes + [hash(Shingle(words, i))];
        }
      }
      ghost var s := ShingleSet(text, words, hash);
      assert forall sh :: sh in s <==> sh in hashes by {
        if |words| >= 3 {
          forall sh | sh in s ensures sh in hashes {
            var k: nat :| k + 3 <= |words| && sh == hash(Shingle(words, k));
            assert hashes[k] == sh;
          }
        }
      }
      sig := [];
      for i := 0 to numHashes
        invariant |sig| == i
        invariant forall k | 0 <= k < i :: IsLeast(sig[k], aCoeffs[k], bCoeffs[k], s)
      {
        var least := TWO_64 - 1;
        for j := 0 to |hashes|
          invariant j == 0 ==> least == TWO_64 - 1
          invariant j > 0 ==> exists k | 0 <= k < j :: least == RowHash(aCoeffs[i], bCoeffs[i], hashes[k])
          invariant forall k | 0 <= k < j :: least <= RowHash(aCoeffs[i], bCoeffs[i], hashes[k])
        {
          var val := RowHash(aCoeffs[i], bCoeffs[i], hashes[j]);
          assert val < TWO_64 - 1;
          if val < least {
            least := val;
          }
        }
        sig := sig + [least];
      }
    }

    method FindNearDuplicate(sig: seq<nat>) returns (answer: Option<UUID>)
      requires Valid() && |sig| == numHashes
      ensures ScanAnswer(history, rowsPerBand, numBands, digest, sig, answer)
    {
      for band := 0 to numBands
        invariant forall e, b: nat | e in history && b < band :: !SameDigest(e.sig, sig, rowsPerBand, digest, b)
      {
        BandFits(band, numBands, rowsPerBand, numHashes);
        var d := digest(Band(sig, rowsPerBand, band));
        var candidates := Bucket(buckets, band, d);
        assert Agrees(buckets, history, band, d);
        HitsHead(history, rowsPerBand, digest, band, d);
        if |candidates| > 0 {
          answer := Some(candidates[0]);
          ghost var k :| FirstHit(history, rowsPerBand, digest, band, d, k) && candidates[0] == history[k].id;
          assert SameDigest(history[k].sig, sig, rowsPerBand, digest, band);
          return;
        }
      }
      answer := None;
    }

    method IndexSignature(sig: seq<nat>, vectorId: UUID)
      requires Valid() && |sig| == numHashes
      modifies this
      ensures Valid()
      ensures history == old(history) + [Indexed(sig, vectorId)]
    {
      ghost var h, entry := history, Indexed(sig, vectorId);
      history := h + [entry];
      for band := 0 to numBands
        invariant history == h + [entry]
        invariant forall b: nat, d: D | b < band :: Agrees(buckets, history, b, d)
        invariant forall b: nat, d: D | band <= b < numBands :: Agrees(buckets, h, b, d)
      {
        BandFits(band, numBands, rowsPerBand, numHashes);
        var key := BucketKey(band, digest(Band(sig, rowsPerBand, band)));
        ghost var before := buckets;
        buckets := buckets[key := Bucket(buckets, band, key.digest) + [vectorId]];
        forall d: D ensures Agrees(buckets, history, band, d) {
          assert Agrees(before, h, band, d);
          HitsSnoc(h, entry, rowsPerBand, digest, band, d);
        }
        forall b: nat, d: D | b < numBands && b != band
          ensures Bucket(buckets, b, d) == Bucket(before, b, d)
        {
        }
        assert forall b: nat, d: D | b < band :: Agrees(before, history, b, d) ==> Agrees(buckets, history, b, d);
        assert forall b: nat, d: D | band < b < numBands :: Agrees(before, h, b, d) ==> Agrees(buckets, h, b, d);
      }
    }
  }
}
