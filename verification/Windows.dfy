/** Sliding-window chunking (segmentExactTokens, segmentCharacterBased and calcStep in
    segmenter.go): the same loop over token ids or over runes. */
module Windows {
  import opened Domain

  datatype Window = Window(start: nat, end: nat)

  /** The stride between windows; half the budget when the overlap eats it all up. */
  function CalcStep(budget: nat, overlap: int): nat {
    if budget - overlap <= 0 then budget / 2 else budget - overlap
  }

  /** With a positive overlap the stride is positive and inside the window from budget 2 on;
      at budget 1 it is 0 for every overlap. */
  lemma StepBounds(budget: nat, overlap: int)
    requires overlap > 0
    ensures 0 < CalcStep(budget, overlap) <= budget <==> budget >= 2
    ensures budget == 1 ==> CalcStep(budget, overlap) == 0
    ensures budget >= 2 ==> CalcStep(budget, overlap) < budget
  {
  }

  /** Character mode scales both settings by four and so always makes progress. */
  lemma CharacterStepPositive(target: nat, overlap: nat)
    requires target > 0 && overlap > 0
    ensures 0 < CalcStep(target * 4, overlap * 4) < target * 4
  {
  }

  // ------------------------------------------------------------------ termination

  /** Where the loop variable stands after k iterations; None once the loop has ended. */
  function After(n: nat, width: nat, step: nat, k: nat): Option<nat> {
    if k == 0 then (if n > 0 then Some(0) else None)
    else
      match After(n, width, step, k - 1)
      case None => None
      case Some(i) =>
        if Min(i + width, n) == n then None
        else if i + step < n then Some(i + step) else None
  }

  lemma {:induction false} Stuck(n: nat, width: nat, k: nat)
    requires width < n
    ensures After(n, width, 0, k) == Some(0)
  {
    if k > 0 {
      Stuck(n, width, k - 1);
    }
  }

  lemma {:induction false} Moves(n: nat, width: nat, step: nat, k: nat)
    ensures After(n, width, step, k).Some? ==> After(n, width, step, k).value == k * step < n
    ensures After(n, width, step, k).Some? && k > 0 ==> (k - 1) * step + width < n
  {
    if k > 0 {
      Moves(n, width, step, k - 1);
      assert k * step == (k - 1) * step + step;
    }
  }

  /** The loop ends exactly when the stride is positive or the first window already reaches
      the end. */
  lemma TerminatesExactly(n: nat, width: nat, step: nat)
    ensures (exists k: nat :: After(n, width, step, k) == None) <==> step > 0 || n <= width
  {
    if step > 0 {
      Moves(n, width, step, n);
      Grows(n, step);
      assert After(n, width, step, n) == None;
    } else if n <= width {
      assert After(n, width, step, 1) == None;
    } else {
      forall k: nat ensures After(n, width, step, k) != None {
        Stuck(n, width, k);
      }
    }
  }

  lemma Grows(n: nat, step: nat)
    requires step > 0
    ensures n * step >= n
  {
  }

  /** Of the settings the constructor lets through (both positive), exact mode hangs on
      every text longer than one token at budget 1, and on no text at any other budget. */
  lemma ExactModeHangsOnlyAtBudgetOne(n: nat, target: nat, overlap: nat)
    requires target > 0 && overlap > 0
    ensures (exists k: nat :: After(n, target, CalcStep(target, overlap), k) == None) <==> target >= 2 || n <= 1
  {
    StepBounds(target, overlap);
    TerminatesExactly(n, target, CalcStep(target, overlap));
  }

  // ------------------------------------------------------------------- the windows

  /** Ceiling of a / b. */
  function CeilDiv(a: nat, b: nat): nat
    requires b > 0
  {
    (a + b - 1) / b
  }

  function WindowCount(n: nat, width: nat, step: nat): nat
    requires n > width ==> step > 0
  {
    if n == 0 then 0 else if n <= width then 1 else CeilDiv(n - width, step) + 1
  }

  /** Window k of the list is [k step, min(k step + width, n)). */
  ghost predicate IsWindow(w: Window, n: nat, width: nat, step: nat, k: nat) {
    w.start == k * step && w.end == Min(k * step + width, n)
  }

  /** All windows are in place, and only the last one reaches the end. */
  ghost predicate AreWindows(ws: seq<Window>, n: nat, width: nat, step: nat) {
    && (forall k | 0 <= k < |ws| :: IsWindow(ws[k], n, width, step, k))
    && (forall k | 0 <= k < |ws| :: ws[k].start < n)
    && (forall k | 0 <= k < |ws| - 1 :: ws[k].end < n)
    && (n == 0 <==> ws == [])
    && (ws != [] ==> ws[|ws| - 1].end == n)
  }

  /** The window loop, for inputs on which it ends. */
  method Cut(n: nat, width: nat, step: nat) returns (ws: seq<Window>)
    requires width > 0 && step <= width && (step > 0 || n <= width)
    ensures AreWindows(ws, n, width, step)
    ensures |ws| == WindowCount(n, width, step)
  {
    ws := [];
    var i := 0;
    while i < n
      invariant i == |ws| * step
      invariant forall k | 0 <= k < |ws| :: IsWindow(ws[k], n, width, step, k) && ws[k].end < n
      invariant |ws| > 0 ==> step > 0 && (|ws| - 1) * step + width < n
      invariant |ws| > 0 ==> i < n
      decreases n - i
    {
      var end := Min(i + width, n);
      ws := ws + [Window(i, end)];
      if end == n {
        CountWindows(|ws|, n, width, step);
        return;
      }
      NextStart(|ws|, step);
      i := i + step;
    }
  }

  lemma NextStart(k: nat, step: nat)
    requires k > 0
    ensures k * step == (k - 1) * step + step
  {
  }

  lemma Product(k: int, step: nat)
    ensures k >= 1 ==> (k - 1) * step >= 0
    ensures k == 0 ==> k * step == 0
  {
  }

  /** The least m whose last window reaches the end is the count. */
  lemma CountWindows(m: nat, n: nat, width: nat, step: nat)
    requires m > 0 && n > 0 && width > 0 && (step > 0 || n <= width)
    requires (m - 1) * step < n <= (m - 1) * step + width
    requires m > 1 ==> step > 0 && (m - 2) * step + width < n
    ensures m == WindowCount(n, width, step)
  {
    Product(m - 1, step);
    if n > width {
      assert m > 1;
      NextStart(m - 1, step);
      CeilDivExact(n - width, step, m - 1);
    }
  }

  lemma CeilDivExact(a: nat, b: nat, q: nat)
    requires b > 0 && q > 0 && (q - 1) * b < a <= q * b
    ensures CeilDiv(a, b) == q
  {
    var x := a + b - 1;
    assert q * b <= x < q * b + b by { NextStart(q, b); }
    QuotientExact(x, b, q);
  }

  lemma QuotientExact(x: nat, b: nat, q: nat)
    requires b > 0 && q * b <= x < q * b + b
    ensures x / b == q
  {
    var d := x / b;
    assert d * b <= x < d * b + b;
    if d < q {
      Monotone(d + 1, q, b);
    } else if q < d {
      Monotone(q + 1, d, b);
    }
  }

  lemma Monotone(x: nat, y: nat, b: nat)
    requires x <= y
    ensures x * b <= y * b
  {
  }

  /** The count in arithmetic terms: the last window starts before the end and reaches it,
      one window fewer would not. */
  lemma CountIsLeast(n: nat, width: nat, step: nat)
    requires n > width && step > 0
    ensures var m := WindowCount(n, width, step);
            m >= 2 && (m - 2) * step + width < n <= (m - 1) * step + width
  {
  }

  // ------------------------------------------------------------------ consequences

  /** Each window sticks out beyond its predecessor, and shares width - step elements with it. */
  lemma NoWindowInsidePredecessor(ws: seq<Window>, n: nat, width: nat, step: nat, k: nat)
    requires AreWindows(ws, n, width, step) && 0 < step <= width && 0 < k < |ws|
    ensures ws[k - 1].start < ws[k].start <= ws[k - 1].end < ws[k].end
    ensures ws[k - 1].end - ws[k].start == width - step
  {
  }

  /** The windows reach from the beginning to the end. */
  lemma FromEndToEnd(ws: seq<Window>, n: nat, width: nat, step: nat)
    requires AreWindows(ws, n, width, step)
    ensures ws == [] <==> n == 0
    ensures ws != [] ==> ws[0].start == 0 && ws[|ws| - 1].end == n
  {
    assert ws != [] ==> IsWindow(ws[0], n, width, step, 0);
  }

  /** What neighbours share: the configured overlap, or, when that leaves no stride, what is
      left of the window after half of it. */
  lemma SharedWithNext(ws: seq<Window>, n: nat, width: nat, overlap: nat, k: nat)
    requires AreWindows(ws, n, width, CalcStep(width, overlap)) && width > 0 && k + 1 < |ws|
    ensures ws[k].end - ws[k].start == width
    ensures ws[k].end - ws[k + 1].start == if overlap < width then overlap else width - width / 2
  {
    var step := CalcStep(width, overlap);
    assert IsWindow(ws[k], n, width, step, k) && IsWindow(ws[k + 1], n, width, step, k + 1);
    NextStart(k + 1, step);
  }

  /** The first stride of each of the first k windows, joined. */
  ghost function Strides<T>(s: seq<T>, ws: seq<Window>, step: nat, k: nat): seq<T>
    requires k <= |ws|
    requires forall j | 0 <= j < k :: ws[j].start + step <= |s|
    decreases k
  {
    if k == 0 then []
    else Strides(s, ws, step, k - 1) + s[ws[k - 1].start..ws[k - 1].start + step]
  }

  /** Reconstruction: the first stride of every window but the last, then the whole last
      window, is the input. */
  lemma Reconstruction<T>(s: seq<T>, ws: seq<Window>, width: nat, step: nat)
    requires AreWindows(ws, |s|, width, step) && step <= width && s != []
    ensures forall j | 0 <= j < |ws| - 1 :: ws[j].start + step <= ws[j].end <= |s|
    ensures ws[|ws| - 1].start <= ws[|ws| - 1].end == |s|
    ensures Strides(s, ws, step, |ws| - 1) + s[ws[|ws| - 1].start..ws[|ws| - 1].end] == s
  {
    var m := |ws| - 1;
    forall j | 0 <= j < m ensures ws[j].start + step <= ws[j].end <= |s| {
      assert IsWindow(ws[j], |s|, width, step, j);
    }
    StridesPrefix(s, ws, width, step, m);
    assert IsWindow(ws[m], |s|, width, step, m);
    var at := m * step;
    assert s[..at] + s[at..] == s;
  }

  lemma {:induction false} StridesPrefix<T>(s: seq<T>, ws: seq<Window>, width: nat, step: nat, k: nat)
    requires k < |ws| && AreWindows(ws, |s|, width, step)
    requires forall j | 0 <= j < |ws| - 1 :: ws[j].start + step <= |s|
    ensures k * step <= |s| && Strides(s, ws, step, k) == s[..k * step]
  {
    assert IsWindow(ws[k], |s|, width, step, k);
    if k > 0 {
      StridesPrefix(s, ws, width, step, k - 1);
      NextStart(k, step);
      assert IsWindow(ws[k - 1], |s|, width, step, k - 1);
    }
  }

  /** Input and settings determine the windows. */
  lemma WindowsUnique(v: seq<Window>, w: seq<Window>, n: nat, width: nat, step: nat)
    requires AreWindows(v, n, width, step) && AreWindows(w, n, width, step)
    ensures v == w
  {
    forall k | 0 <= k < |v| && k < |w| ensures v[k] == w[k] {
      assert IsWindow(v[k], n, width, step, k) && IsWindow(w[k], n, width, step, k);
    }
  }
}
