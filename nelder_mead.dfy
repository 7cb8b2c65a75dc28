/**
 * The Nelder-Mead simplex minimizer `nelmin`, a C port of Applied Statistics
 * Algorithm AS 47 (O'Neill 1971), modelled on the C text as written.
 *
 * The simplex is the matrix p[i, j] (coordinate i of vertex j) with the
 * values y[j]. The C routine declares p[VARS][VARS + 1] and uses n + 2 of its
 * columns: the start vertex goes into column n + 1, the perturbed vertices
 * into columns 0 .. n - 1, and every scan covers columns 0 .. n. Column n is
 * therefore never written by the simplex construction: it holds whatever the
 * stack held, which the model takes as the inputs `colN` and `yN`. The scans
 * seed the lowest value with y[0] but the lowest index with 1 (and likewise
 * for the highest), so an index and its value can disagree.
 *
 * The behaviour is first written as functions on values (Build, Step,
 * PassLoop, Factorial, Round, Restarts, Minimize over a `Simplex`); the
 * methods then do the same work in place on the arrays p, y, start and xmin,
 * as the C code does, and are proved to compute exactly those functions.
 * The properties of the search are lemmas about the functions.
 */
module NelderMead {
  import opened Common

  /** Capacity of the C work arrays: p[VARS][VARS + 1], y[VARS + 1]. */
  const VARS: nat := 20
  /** Reflection, expansion and contraction coefficients. */
  const RCOEFF: real := 1.0
  const ECOEFF: real := 2.0
  const CCOEFF: real := 0.5
  /** Relative size of the local-minimum probes and of a restarted simplex. */
  const EPS: real := 0.001

  /** What `nelmin` returns: the point, its value and the indicators. */
  datatype Optimum = Optimum(xmin: seq<real>, ynewlo: real, icount: nat, numres: nat, ifault: nat)

  /** The parameter checks: reqmin > 0, 1 <= n <= VARS and konvge >= 1. */
  predicate ValidInput(reqmin: real, n: nat, konvge: int)
  {
    reqmin > 0.0 && 1 <= n && n <= VARS && konvge >= 1
  }

  /** n zeros: the point reported on a parameter fault. */
  function Zeros(n: nat): (z: seq<real>)
    ensures |z| == n && forall i :: 0 <= i < n ==> z[i] == 0.0
  {
    seq(n, _ => 0.0)
  }

  // ---------------------------------------------------------------------------
  // Vectors and sums
  // ---------------------------------------------------------------------------

  /** Vertex j of the simplex: column j of p. */
  function Column(p: array2<real>, j: nat): (c: seq<real>)
    requires j < p.Length1
    reads p
    ensures |c| == p.Length0 && forall i :: 0 <= i < p.Length0 ==> c[i] == p[i, j]
  {
    seq(p.Length0, i requires 0 <= i < p.Length0 reads p => p[i, j])
  }

  /** The point x with coordinate j moved by d. */
  function Nudge(x: seq<real>, j: nat, d: real): (r: seq<real>)
    requires j < |x|
    ensures |r| == |x| && r[j] - x[j] == d
    ensures forall i :: 0 <= i < |x| && i != j ==> r[i] == x[i]
  {
    x[j := x[j] + d]
  }

  /** Vertex j of a fresh simplex: x with coordinate j moved by step[j] * del. */
  function Vertex(x: seq<real>, step: seq<real>, del: real, j: nat): (v: seq<real>)
    requires j < |x| == |step|
    ensures |v| == |x|
  {
    Nudge(x, j, step[j] * del)
  }

  /** Sum of a sequence, accumulated left to right. */
  function Sum(s: seq<real>): real
  {
    if |s| == 0 then 0.0 else Sum(s[..|s| - 1]) + s[|s| - 1]
  }

  /** Sum of squared deviations from m, accumulated left to right. */
  function SumSq(s: seq<real>, m: real): real
  {
    if |s| == 0 then 0.0 else SumSq(s[..|s| - 1], m) + (s[|s| - 1] - m) * (s[|s| - 1] - m)
  }

  /** The mean of a non-empty sequence. */
  function Mean(s: seq<real>): real
    requires |s| > 0
  {
    Sum(s) / (|s| as real)
  }

  /** The number of values strictly above v. */
  function Above(s: seq<real>, v: real): (l: nat)
    ensures l <= |s|
  {
    if |s| == 0 then 0
    else Above(s[..|s| - 1], v) + (if v < s[|s| - 1] then 1 else 0)
  }

  /** The midpoint of a and b, coordinate by coordinate. */
  function Midpoint(a: seq<real>, b: seq<real>): (r: seq<real>)
    requires |a| == |b|
    ensures |r| == |a| && forall i :: 0 <= i < |r| ==> r[i] - a[i] == b[i] - r[i]
  {
    seq(|a|, i requires 0 <= i < |a| => (a[i] + b[i]) * 0.5)
  }

  /** The reflection of q through pbar: pbar + RCOEFF (pbar - q). */
  function Reflect(pbar: seq<real>, q: seq<real>): (r: seq<real>)
    requires |pbar| == |q|
    ensures |r| == |pbar| && forall i :: 0 <= i < |r| ==> r[i] - pbar[i] == pbar[i] - q[i]
  {
    seq(|pbar|, i requires 0 <= i < |pbar| => pbar[i] + RCOEFF * (pbar[i] - q[i]))
  }

  /**
   * The point pbar + c (q - pbar) on the line from pbar through q. With the
   * expansion coefficient it lies as far beyond q as q lies beyond pbar;
   * with the contraction coefficient it is halfway between pbar and q.
   */
  function Toward(pbar: seq<real>, q: seq<real>, c: real): (r: seq<real>)
    requires |pbar| == |q|
    ensures |r| == |pbar|
    ensures c == ECOEFF ==> forall i :: 0 <= i < |r| ==> r[i] - q[i] == q[i] - pbar[i]
    ensures c == CCOEFF ==> forall i :: 0 <= i < |r| ==> r[i] - pbar[i] == q[i] - r[i]
  {
    seq(|pbar|, i requires 0 <= i < |pbar| => pbar[i] + c * (q[i] - pbar[i]))
  }

  // ---------------------------------------------------------------------------
  // The scans for the lowest and the highest vertex
  // ---------------------------------------------------------------------------

  /**
   * The scan for the lowest value over ys[0 .. k-1] as the C code writes it:
   * seeded with the value ys[0] but the index 1, and moving only on a
   * strictly smaller value.
   */
  function LowScan(ys: seq<real>, k: nat): (r: (real, nat))
    requires 1 <= k <= |ys|
    ensures 1 <= r.1 && (r.1 == 1 || r.1 < k)
    decreases k
  {
    if k == 1 then (ys[0], 1)
    else
      var prev := LowScan(ys, k - 1);
      if ys[k - 1] < prev.0 then (ys[k - 1], k - 1) else prev
  }

  /** The scan for the highest value, seeded the same way. */
  function HighScan(ys: seq<real>, k: nat): (r: (real, nat))
    requires 1 <= k <= |ys|
    ensures 1 <= r.1 && (r.1 == 1 || r.1 < k)
    decreases k
  {
    if k == 1 then (ys[0], 1)
    else
      var prev := HighScan(ys, k - 1);
      if prev.0 < ys[k - 1] then (ys[k - 1], k - 1) else prev
  }

  /**
   * The low scan finds the minimum value; its index is the first index
   * holding that value, except that a minimum at index 0 reports index 1.
   */
  lemma {:induction false} LowScanFindsMinimum(ys: seq<real>, k: nat)
    requires 2 <= k <= |ys|
    ensures var r := LowScan(ys, k);
      && 1 <= r.1 < k
      && (forall j :: 0 <= j < k ==> r.0 <= ys[j])
      && ((r.0 == ys[0] && r.1 == 1)
          || (r.0 < ys[0] && r.0 == ys[r.1] && forall j :: 0 <= j < r.1 ==> r.0 < ys[j]))
    decreases k
  {
    if k > 2 {
      LowScanFindsMinimum(ys, k - 1);
    }
  }

  /**
   * The high scan finds the maximum value; its index is the first index
   * holding that value, except that a maximum at index 0 reports index 1.
   */
  lemma {:induction false} HighScanFindsMaximum(ys: seq<real>, k: nat)
    requires 2 <= k <= |ys|
    ensures var r := HighScan(ys, k);
      && 1 <= r.1 < k
      && (forall j :: 0 <= j < k ==> ys[j] <= r.0)
      && ((r.0 == ys[0] && r.1 == 1)
          || (ys[0] < r.0 && r.0 == ys[r.1] && forall j :: 0 <= j < r.1 ==> ys[j] < r.0))
    decreases k
  {
    if k > 2 {
      HighScanFindsMaximum(ys, k - 1);
    }
  }

  /** With the lowest value at index 0, the reported index holds another value. */
  lemma LowIndexMayMissValue()
    ensures var ys := [0.0, 1.0, 2.0];
      LowScan(ys, 3) == (0.0, 1) && ys[LowScan(ys, 3).1] != LowScan(ys, 3).0
  {
  }

  /** With the highest value at index 0, the reported index holds another value. */
  lemma HighIndexMayMissValue()
    ensures var ys := [2.0, 1.0, 0.0];
      HighScan(ys, 3) == (2.0, 1) && ys[HighScan(ys, 3).1] != HighScan(ys, 3).0
  {
  }

  // ---------------------------------------------------------------------------
  // One pass: reflection, expansion, contraction or shrink
  // ---------------------------------------------------------------------------

  /** What a pass does with the highest vertex. */
  datatype Move =
    | Replace(vertex: seq<real>, value: real, evals: nat)   // column ihi := vertex
    | ShrinkAll(evals: nat)                                 // shrink toward p[ilo]

  /**
   * The decision of one pass, given the centroid pbar, the vertex phi and
   * value yhi of column ihi, the running low value ylo and the values ys of
   * the scanned columns.
   */
  function Choose(f: Objective, pbar: seq<real>, phi: seq<real>, yhi: real, ylo: real, ys: seq<real>): (m: Move)
    requires |pbar| == |phi|
    ensures m.Replace? ==> |m.vertex| == |pbar|
    ensures 1 <= m.evals <= 2
  {
    var pstar := Reflect(pbar, phi);
    var ystar := f(pstar);
    if ystar < ylo then
      var p2star := Toward(pbar, pstar, ECOEFF);
      var y2star := f(p2star);
      if ystar < y2star then Replace(pstar, ystar, 2) else Replace(p2star, y2star, 2)
    else
      var l := Above(ys, ystar);
      if 1 < l then Replace(pstar, ystar, 1)
      else if l == 0 then
        var p2star := Toward(pbar, phi, CCOEFF);
        var y2star := f(p2star);
        if yhi < y2star then ShrinkAll(2) else Replace(p2star, y2star, 2)
      else
        var p2star := Toward(pbar, pstar, CCOEFF);
        var y2star := f(p2star);
        if y2star <= ystar then Replace(p2star, y2star, 2) else Replace(pstar, ystar, 2)
  }

  /**
   * The rules of a pass. The new vertex carries its own value. A reflection
   * below ylo always ends in a replacement below ylo, after an expansion.
   * The replacement is never worse than the reflected point, except after a
   * contraction toward phi, which is never worse than phi. The whole simplex
   * shrinks exactly when the reflection beats no scanned value and the
   * contraction toward phi is worse than phi. A pass costs 1 evaluation when
   * the reflection beats at least two scanned values without beating ylo,
   * and 2 otherwise.
   */
  lemma ChooseRules(f: Objective, pbar: seq<real>, phi: seq<real>, yhi: real, ylo: real, ys: seq<real>)
    requires |pbar| == |phi|
    ensures var m := Choose(f, pbar, phi, yhi, ylo, ys);
      var ystar := f(Reflect(pbar, phi));
      && (m.Replace? ==> |m.vertex| == |pbar| && m.value == f(m.vertex))
      && (ystar < ylo ==> m.Replace? && m.value < ylo)
      && (m.Replace? ==> m.value <= ystar || (Above(ys, ystar) == 0 && m.value <= yhi))
      && (m.ShrinkAll? <==> ylo <= ystar && Above(ys, ystar) == 0 && yhi < f(Toward(pbar, phi, CCOEFF)))
      && m.evals == (if ylo <= ystar && 1 < Above(ys, ystar) then 1 else 2)
  {
  }

  // ---------------------------------------------------------------------------
  // Properties of the sums
  // ---------------------------------------------------------------------------

  /** Removing entry k from a sum subtracts it. */
  lemma {:induction false} SumWithout(s: seq<real>, k: nat)
    requires k < |s|
    ensures Sum(s) - s[k] == Sum(s[..k] + s[k + 1..])
    decreases |s|
  {
    if k < |s| - 1 {
      var t := s[..|s| - 1];
      SumWithout(t, k);
      var u := s[..k] + s[k + 1..];
      assert u[..|u| - 1] == t[..k] + t[k + 1..];
      assert u[|u| - 1] == s[|s| - 1];
    } else {
      assert s[..k] + s[k + 1..] == s[..|s| - 1];
    }
  }

  /** A sum of n copies of c is n c. */
  lemma {:induction false} SumConstant(s: seq<real>, c: real)
    requires forall i :: 0 <= i < |s| ==> s[i] == c
    ensures Sum(s) == (|s| as real) * c
    decreases |s|
  {
    if |s| > 0 {
      SumConstant(s[..|s| - 1], c);
    }
  }

  /** A sum of squared deviations is never negative. */
  lemma {:induction false} SumSqNonnegative(s: seq<real>, m: real)
    ensures SumSq(s, m) >= 0.0
    decreases |s|
  {
    if |s| > 0 {
      SumSqNonnegative(s[..|s| - 1], m);
      var d := s[|s| - 1] - m;
      if d < 0.0 {
        assert d * d == (-d) * (-d);
      }
      assert d * d >= 0.0;
    }
  }

  /** Squared deviations from the common value of a flat sequence sum to 0. */
  lemma {:induction false} SumSqFlat(s: seq<real>, c: real)
    requires forall i :: 0 <= i < |s| ==> s[i] == c
    ensures SumSq(s, c) == 0.0
    decreases |s|
  {
    if |s| > 0 {
      SumSqFlat(s[..|s| - 1], c);
    }
  }

  /**
   * The convergence test of a flat simplex: when all scanned values are
   * equal their mean is that value and the spread is 0, which never exceeds
   * reqmin * n, so the pass loop stops.
   */
  lemma FlatValuesConverge(s: seq<real>, c: real)
    requires |s| > 0
    requires forall i :: 0 <= i < |s| ==> s[i] == c
    ensures Mean(s) == c && SumSq(s, Mean(s)) == 0.0
  {
    SumConstant(s, c);
    SumSqFlat(s, c);
  }

  /** Above counts nothing exactly when no value exceeds v. */
  lemma {:induction false} AboveNone(s: seq<real>, v: real)
    ensures Above(s, v) == 0 <==> forall j :: 0 <= j < |s| ==> s[j] <= v
    decreases |s|
  {
    if |s| > 0 {
      AboveNone(s[..|s| - 1], v);
      assert forall j :: 0 <= j < |s| - 1 ==> s[..|s| - 1][j] == s[j];
    }
  }


  // ---------------------------------------------------------------------------
  // The simplex as a value
  // ---------------------------------------------------------------------------

  /** The simplex as values: cols[j] is vertex j (column j of p), ys[j] its stored value. */
  datatype Simplex = Simplex(cols: seq<seq<real>>, ys: seq<real>)

  /** n + 2 columns of n coordinates each. */
  predicate Tall(cols: seq<seq<real>>, n: nat)
  {
    |cols| == n + 2 && forall j :: 0 <= j < n + 2 ==> |cols[j]| == n
  }

  /** The shape of the work arrays p[n][n + 2] and y[n + 2]. */
  predicate Fits(s: Simplex, n: nat)
  {
    Tall(s.cols, n) && |s.ys| == n + 2
  }

  /** Columns 0 .. n - 1 hold vertices with their values. */
  ghost predicate Valued(f: Objective, s: Simplex, n: nat)
    requires Fits(s, n)
  {
    forall j :: 0 <= j < n ==> s.ys[j] == f(s.cols[j])
  }

  /**
   * Column n holds a vertex with its value, or still holds the contents it
   * had before the first construction (colN, yN), which nothing evaluated.
   */
  ghost predicate StaleOrValued(f: Objective, s: Simplex, n: nat, colN: seq<real>, yN: real)
    requires Fits(s, n)
  {
    s.ys[n] == f(s.cols[n]) || (s.cols[n] == colN && s.ys[n] == yN)
  }

  /** The work arrays before the first construction: only column n is ever read before it is written. */
  function Unbuilt(n: nat, colN: seq<real>, yN: real): (s: Simplex)
    requires |colN| == n
    ensures Fits(s, n) && s.cols[n] == colN && s.ys[n] == yN
  {
    Simplex(seq(n + 2, j => Zeros(n))[n := colN], seq(n + 2, j => 0.0)[n := yN])
  }

  /** Column j := v with value y[j] := value. */
  function Put(s: Simplex, j: nat, v: seq<real>, value: real): Simplex
    requires j < |s.cols| && j < |s.ys|
  {
    Simplex(s.cols[j := v], s.ys[j := value])
  }

  /**
   * The simplex construction (label L1000) around start: column n + 1 is
   * start and column j < n is start moved by step[j] * del in coordinate j,
   * each with its value; column n keeps what it held.
   */
  function Build(f: Objective, s: Simplex, start: seq<real>, step: seq<real>, del: real): (r: Simplex)
    requires Fits(s, |start|) && |step| == |start|
    ensures Fits(r, |start|) && Valued(f, r, |start|)
    ensures forall j :: 0 <= j < |start| ==> r.cols[j] == Nudge(start, j, step[j] * del)
    ensures r.cols[|start| + 1] == start && r.ys[|start| + 1] == f(start)
    ensures r.cols[|start|] == s.cols[|start|] && r.ys[|start|] == s.ys[|start|]
  {
    var n := |start|;
    Simplex(
      seq(n + 2, j requires 0 <= j < n + 2 =>
        if j < n then Vertex(start, step, del, j) else if j == n then s.cols[n] else start),
      seq(n + 2, j requires 0 <= j < n + 2 =>
        if j < n then f(Vertex(start, step, del, j)) else if j == n then s.ys[n] else f(start)))
  }

  /** The first k entries of row i: coordinate i of vertices 0 .. k - 1. */
  function RowOf(cols: seq<seq<real>>, i: nat, k: nat): (r: seq<real>)
    requires k <= |cols| && forall j :: 0 <= j < k ==> i < |cols[j]|
    ensures |r| == k && forall j :: 0 <= j < k ==> r[j] == cols[j][i]
  {
    seq(k, j requires 0 <= j < k => cols[j][i])
  }

  /** Coordinate i of the centroid as the C code computes it: the row sum over 0 .. n, less column ihi, over n. */
  function CentreAt(cols: seq<seq<real>>, n: nat, ihi: nat, i: nat): real
    requires 1 <= n && Tall(cols, n) && ihi <= n && i < n
  {
    (Sum(RowOf(cols, i, n + 1)) - cols[ihi][i]) / (n as real)
  }

  /** The centroid of the scanned columns other than ihi, coordinate by coordinate. */
  function Centre(cols: seq<seq<real>>, n: nat, ihi: nat): (pbar: seq<real>)
    requires 1 <= n && Tall(cols, n) && ihi <= n
    ensures |pbar| == n && forall i :: 0 <= i < n ==> pbar[i] == CentreAt(cols, n, ihi, i)
  {
    seq(n, i requires 0 <= i < n => CentreAt(cols, n, ihi, i))
  }

  /** Each coordinate of the centroid is the mean of that row over the scanned columns other than ihi. */
  lemma CentreIsMean(cols: seq<seq<real>>, n: nat, ihi: nat, i: nat)
    requires 1 <= n && Tall(cols, n) && ihi <= n && i < n
    ensures var row := RowOf(cols, i, n + 1);
      Centre(cols, n, ihi)[i] == Sum(row[..ihi] + row[ihi + 1..]) / (n as real)
  {
    SumWithout(RowOf(cols, i, n + 1), ihi);
  }

  /**
   * The shrink of the whole simplex toward column ilo: every scanned column
   * becomes the midpoint of itself and column ilo, with its value.
   */
  function Halve(f: Objective, s: Simplex, n: nat, ilo: nat): (r: Simplex)
    requires Fits(s, n) && ilo <= n
    ensures Fits(r, n)
    ensures forall j :: 0 <= j <= n ==> r.ys[j] == f(r.cols[j])
    ensures r.cols[ilo] == s.cols[ilo]
    ensures r.cols[n + 1] == s.cols[n + 1] && r.ys[n + 1] == s.ys[n + 1]
  {
    var low := s.cols[ilo];
    assert Midpoint(low, low) == low;
    Simplex(
      seq(n + 2, j requires 0 <= j < n + 2 => if j <= n then Midpoint(s.cols[j], low) else s.cols[j]),
      seq(n + 2, j requires 0 <= j < n + 2 => if j <= n then f(Midpoint(s.cols[j], low)) else s.ys[j]))
  }

  /** The convergence measure: the sum of squared deviations of y[0 .. n] from their mean. */
  function Dispersion(ys: seq<real>, n: nat): (z: real)
    requires n < |ys|
    ensures z >= 0.0
  {
    SumSqNonnegative(ys[..n + 1], Mean(ys[..n + 1]));
    SumSq(ys[..n + 1], Mean(ys[..n + 1]))
  }

  // ---------------------------------------------------------------------------
  // The passes (label L2000 on), as values
  // ---------------------------------------------------------------------------

  /** The state of the pass loop: the simplex, the low value and index, and the counters. */
  datatype Passing = Passing(s: Simplex, ylo: real, ilo: nat, jcount: nat, icount: nat)

  /**
   * The end of a pass that shrinks the simplex (st.icount already counts
   * the move): n + 1 more evaluations; with the budget kcount spent the
   * passes end, otherwise the low scan runs again over the shrunk simplex.
   */
  function ShrinkEnd(f: Objective, n: nat, st: Passing, kcount: nat): (r: (Passing, bool))
    requires 1 <= n && Fits(st.s, n) && 1 <= st.ilo <= n
    ensures Fits(r.0.s, n) && 1 <= r.0.ilo <= n && r.0.jcount == st.jcount && r.0.icount == st.icount + n + 1
    ensures r.1 <==> r.0.icount <= kcount
  {
    var s2 := Halve(f, st.s, n, st.ilo);
    var icount := st.icount + (n + 1);
    if kcount < icount then (st.(s := s2, icount := icount), false)
    else
      var lo := LowScan(s2.ys, n + 1);
      (Passing(s2, lo.0, lo.1, st.jcount, icount), true)
  }

  /**
   * The end of a pass that replaced vertex ihi (st.s already holds it):
   * ylo and ilo follow the new value when it is lower, jcount counts down,
   * and when it reaches 0 with the budget left it is reset to konvge and
   * the passes go on only while the dispersion of the values exceeds rq.
   */
  function ReplaceEnd(n: nat, st: Passing, ihi: nat, konvge: nat, kcount: nat, rq: real): (r: (Passing, bool))
    requires 1 <= n && Fits(st.s, n) && 1 <= st.ilo <= n && 1 <= ihi <= n && 1 <= st.jcount && 1 <= konvge
    ensures Fits(r.0.s, n) && 1 <= r.0.ilo <= n && r.0.s == st.s && r.0.icount == st.icount
    ensures r.0.ylo == (if st.s.ys[ihi] < st.ylo then st.s.ys[ihi] else st.ylo)
    ensures r.0.ilo == (if st.s.ys[ihi] < st.ylo then ihi else st.ilo)
    ensures 1 < st.jcount ==> r.1 && r.0.jcount == st.jcount - 1
    ensures st.jcount == 1 && st.icount <= kcount ==> r.0.jcount == konvge && (r.1 <==> rq < Dispersion(st.s.ys, n))
    ensures st.jcount == 1 && kcount < st.icount ==> !r.1
    ensures r.1 ==> 1 <= r.0.jcount && (r.0.icount <= kcount || r.0.jcount < st.jcount)
    ensures !r.1 && r.0.icount <= kcount ==> r.0.jcount == konvge && Dispersion(st.s.ys, n) <= rq
  {
    var ylo := if st.s.ys[ihi] < st.ylo then st.s.ys[ihi] else st.ylo;
    var ilo := if st.s.ys[ihi] < st.ylo then ihi else st.ilo;
    var jcount := st.jcount - 1;
    if jcount != 0 then (Passing(st.s, ylo, ilo, jcount, st.icount), true)
    else if st.icount <= kcount then (Passing(st.s, ylo, ilo, konvge, st.icount), rq < Dispersion(st.s.ys, n))
    else (Passing(st.s, ylo, ilo, 0, st.icount), false)
  }

  /**
   * The move of a pass from label L2000: the high scan picks column ihi,
   * the centroid of the others is taken, and Choose decides.
   */
  function Trial(f: Objective, n: nat, s: Simplex, ylo: real): (r: (nat, Move))
    requires 1 <= n && Fits(s, n)
    ensures 1 <= r.0 <= n && (r.1.Replace? ==> |r.1.vertex| == n) && 1 <= r.1.evals <= 2
  {
    var ihi := HighScan(s.ys, n + 1).1;
    (ihi, Choose(f, Centre(s.cols, n, ihi), s.cols[ihi], s.ys[ihi], ylo, s.ys[..n + 1]))
  }

  /**
   * One pass from label L2000: the move Trial picks, then the end
   * ShrinkEnd or ReplaceEnd says. The boolean says whether another pass
   * follows.
   */
  function Step(f: Objective, n: nat, st: Passing, konvge: nat, kcount: nat, rq: real): (r: (Passing, bool))
    requires 1 <= n && Fits(st.s, n) && 1 <= st.ilo <= n && 1 <= st.jcount && 1 <= konvge
    ensures Fits(r.0.s, n) && 1 <= r.0.ilo <= n && r.0.icount > st.icount
    ensures r.1 ==> 1 <= r.0.jcount && (r.0.icount <= kcount || r.0.jcount < st.jcount)
    ensures !r.1 && r.0.icount <= kcount ==> r.0.jcount == konvge && Dispersion(r.0.s.ys, n) <= rq
  {
    var (ihi, m) := Trial(f, n, st.s, st.ylo);
    var icount := st.icount + m.evals;
    if m.ShrinkAll? then ShrinkEnd(f, n, st.(icount := icount), kcount)
    else ReplaceEnd(n, Passing(Put(st.s, ihi, m.vertex, m.value), st.ylo, st.ilo, st.jcount, icount), ihi, konvge, kcount, rq)
  }

  /**
   * The pass loop: passes until one stops it. It stops with the budget
   * spent, or within the budget with jcount back at konvge and the
   * dispersion of the values at most rq.
   */
  function PassLoop(f: Objective, n: nat, st: Passing, konvge: nat, kcount: nat, rq: real): (r: Passing)
    requires 1 <= n && Fits(st.s, n) && 1 <= st.ilo <= n && 1 <= st.jcount && 1 <= konvge
    ensures Fits(r.s, n) && 1 <= r.ilo <= n && r.icount > st.icount
    ensures r.icount <= kcount ==> r.jcount == konvge && Dispersion(r.s.ys, n) <= rq
    decreases if st.icount <= kcount then kcount + 1 - st.icount else 0, st.jcount
  {
    var t := Step(f, n, st, konvge, kcount, rq);
    if t.1 then PassLoop(f, n, t.0, konvge, kcount, rq) else t.0
  }

  /** What the pass loop keeps: the vertices carry their values, column n possibly still unbuilt. */
  ghost predicate Sound(f: Objective, s: Simplex, n: nat, colN: seq<real>, yN: real)
    requires Fits(s, n)
  {
    Valued(f, s, n) && StaleOrValued(f, s, n, colN, yN)
  }

  /** One pass keeps the vertices valued: a replaced vertex and every halved one carry their new values. */
  lemma StepKeeps(f: Objective, n: nat, st: Passing, konvge: nat, kcount: nat, rq: real, colN: seq<real>, yN: real)
    requires 1 <= n && Fits(st.s, n) && 1 <= st.ilo <= n && 1 <= st.jcount && 1 <= konvge
    requires Sound(f, st.s, n, colN, yN)
    ensures Sound(f, Step(f, n, st, konvge, kcount, rq).0.s, n, colN, yN)
  {
    var ihi := HighScan(st.s.ys, n + 1).1;
    var pbar := Centre(st.s.cols, n, ihi);
    var m := Choose(f, pbar, st.s.cols[ihi], st.s.ys[ihi], st.ylo, st.s.ys[..n + 1]);
    if m.Replace? {
      ChooseRules(f, pbar, st.s.cols[ihi], st.s.ys[ihi], st.ylo, st.s.ys[..n + 1]);
      assert Step(f, n, st, konvge, kcount, rq).0.s == Put(st.s, ihi, m.vertex, m.value);
    } else {
      assert Step(f, n, st, konvge, kcount, rq).0.s == Halve(f, st.s, n, st.ilo);
    }
  }

  /** The whole pass loop keeps the vertices valued. */
  lemma {:induction false} PassLoopKeeps(f: Objective, n: nat, st: Passing, konvge: nat, kcount: nat, rq: real,
                                         colN: seq<real>, yN: real)
    requires 1 <= n && Fits(st.s, n) && 1 <= st.ilo <= n && 1 <= st.jcount && 1 <= konvge
    requires Sound(f, st.s, n, colN, yN)
    ensures Sound(f, PassLoop(f, n, st, konvge, kcount, rq).s, n, colN, yN)
    decreases if st.icount <= kcount then kcount + 1 - st.icount else 0, st.jcount
  {
    StepKeeps(f, n, st, konvge, kcount, rq, colN, yN);
    var t := Step(f, n, st, konvge, kcount, rq);
    if t.1 {
      PassLoopKeeps(f, n, t.0, konvge, kcount, rq, colN, yN);
    }
  }

  /** ylo is at or below every scanned value y[0 .. n]. */
  predicate LowBound(st: Passing, n: nat)
    requires Fits(st.s, n)
  {
    forall j :: 0 <= j <= n ==> st.ylo <= st.s.ys[j]
  }

  /**
   * One pass keeps ylo a lower bound of the scanned values: a replaced
   * vertex lowers ylo when it is lower, and a shrink scans again. Only the
   * shrink that overspends the budget, after which no pass follows, may
   * leave ylo stale.
   */
  lemma StepLow(f: Objective, n: nat, st: Passing, konvge: nat, kcount: nat, rq: real)
    requires 1 <= n && Fits(st.s, n) && 1 <= st.ilo <= n && 1 <= st.jcount && 1 <= konvge
    requires LowBound(st, n)
    ensures var t := Step(f, n, st, konvge, kcount, rq);
      LowBound(t.0, n) || (!t.1 && kcount < t.0.icount)
  {
    var (ihi, m) := Trial(f, n, st.s, st.ylo);
    var icount := st.icount + m.evals;
    if m.ShrinkAll? {
      var h := Halve(f, st.s, n, st.ilo);
      LowScanFindsMinimum(h.ys, n + 1);
      assert Step(f, n, st, konvge, kcount, rq) == ShrinkEnd(f, n, st.(icount := icount), kcount);
    } else {
      var put := Passing(Put(st.s, ihi, m.vertex, m.value), st.ylo, st.ilo, st.jcount, icount);
      assert Step(f, n, st, konvge, kcount, rq) == ReplaceEnd(n, put, ihi, konvge, kcount, rq);
      assert forall j :: 0 <= j <= n && j != ihi ==> put.s.ys[j] == st.s.ys[j];
    }
  }

  /** The pass loop keeps ylo a lower bound of the scanned values, unless it ends by overspending the budget. */
  lemma {:induction false} PassLoopLow(f: Objective, n: nat, st: Passing, konvge: nat, kcount: nat, rq: real)
    requires 1 <= n && Fits(st.s, n) && 1 <= st.ilo <= n && 1 <= st.jcount && 1 <= konvge
    requires LowBound(st, n)
    ensures var r := PassLoop(f, n, st, konvge, kcount, rq);
      LowBound(r, n) || kcount < r.icount
    decreases if st.icount <= kcount then kcount + 1 - st.icount else 0, st.jcount
  {
    StepLow(f, n, st, konvge, kcount, rq);
    var t := Step(f, n, st, konvge, kcount, rq);
    if t.1 {
      PassLoopLow(f, n, t.0, konvge, kcount, rq);
    }
  }

  // ---------------------------------------------------------------------------
  // The factorial test (label L3000), as values
  // ---------------------------------------------------------------------------

  /** Both probes along axis i, at xmin[i] +- step[i] * EPS, are no lower than ynewlo. */
  ghost predicate AxisHolds(f: Objective, xmin: seq<real>, step: seq<real>, ynewlo: real, i: nat)
    requires i < |xmin| == |step|
  {
    f(Nudge(xmin, i, step[i] * EPS)) >= ynewlo && f(Nudge(xmin, i, -(step[i] * EPS))) >= ynewlo
  }

  /** The factorial test: no axis probe around xmin falls below ynewlo. */
  ghost predicate LocalMinimum(f: Objective, xmin: seq<real>, step: seq<real>, ynewlo: real)
    requires |xmin| == |step|
  {
    forall i :: 0 <= i < |xmin| ==> AxisHolds(f, xmin, step, ynewlo, i)
  }

  /** x is one of the two probe points of axis i around c. */
  ghost predicate AxisProbe(x: seq<real>, c: seq<real>, step: seq<real>, i: nat)
    requires i < |c| == |step|
  {
    x == Nudge(c, i, step[i] * EPS) || x == Nudge(c, i, -(step[i] * EPS))
  }

  /** The outcome of the probes: whether one fell below ynewlo, where xmin is left, the evaluation count after them. */
  datatype Probed = Probed(improved: bool, x: seq<real>, icount: nat)

  /**
   * The probes around x from axis i on, each axis up and then down,
   * stopping at the first probe below ynewlo; icount counts each probe.
   */
  function Probes(f: Objective, x: seq<real>, step: seq<real>, ynewlo: real, i: nat, icount: nat): (r: Probed)
    requires |x| == |step| && i <= |x|
    ensures |r.x| == |x| && icount <= r.icount <= icount + 2 * (|x| - i)
    decreases |x| - i
  {
    if i == |x| then Probed(false, x, icount)
    else
      var up := Nudge(x, i, step[i] * EPS);
      if f(up) < ynewlo then Probed(true, up, icount + 1)
      else
        var down := Nudge(x, i, -(step[i] * EPS));
        if f(down) < ynewlo then Probed(true, down, icount + 2)
        else Probes(f, x, step, ynewlo, i + 1, icount + 2)
  }

  /**
   * The probe that ends the test on axis k, the count going from before to
   * after over axes i .. k: two for each axis before k, then one for the up
   * probe when it is below ynewlo, or two for the down probe when only that
   * one is.
   */
  ghost predicate FirstBelow(f: Objective, x: seq<real>, step: seq<real>, ynewlo: real, i: nat, k: nat,
                             found: seq<real>, before: int, after: int)
    requires i <= k < |x| == |step|
  {
    var up := Nudge(x, k, step[k] * EPS);
    var down := Nudge(x, k, -(step[k] * EPS));
    || (f(up) < ynewlo && found == up && after == before + 2 * (k - i) + 1)
    || (ynewlo <= f(up) && f(down) < ynewlo && found == down && after == before + 2 * (k - i) + 2)
  }

  /**
   * The probes either all hold, leaving x in place after two evaluations per
   * axis, or stop at the first probe below ynewlo in axis order, up before
   * down, every earlier axis holding.
   */
  lemma {:induction false} ProbesFind(f: Objective, x: seq<real>, step: seq<real>, ynewlo: real, i: nat, icount: nat)
    requires |x| == |step| && i <= |x|
    ensures var r := Probes(f, x, step, ynewlo, i, icount);
      && (!r.improved ==>
            r.x == x && r.icount == icount + 2 * (|x| - i) && forall k :: i <= k < |x| ==> AxisHolds(f, x, step, ynewlo, k))
      && (r.improved ==>
            exists k :: i <= k < |x| && (forall j :: i <= j < k ==> AxisHolds(f, x, step, ynewlo, j))
                        && FirstBelow(f, x, step, ynewlo, i, k, r.x, icount, r.icount))
    decreases |x| - i
  {
    if i < |x| {
      var up := Nudge(x, i, step[i] * EPS);
      var down := Nudge(x, i, -(step[i] * EPS));
      if f(up) < ynewlo {
        assert FirstBelow(f, x, step, ynewlo, i, i, up, icount, icount + 1);
      } else if f(down) < ynewlo {
        assert FirstBelow(f, x, step, ynewlo, i, i, down, icount, icount + 2);
      } else {
        ProbesFind(f, x, step, ynewlo, i + 1, icount + 2);
        var rest := Probes(f, x, step, ynewlo, i + 1, icount + 2);
        assert Probes(f, x, step, ynewlo, i, icount) == rest;
        assert AxisHolds(f, x, step, ynewlo, i);
        if rest.improved {
          var k :| i + 1 <= k < |x| && (forall j :: i + 1 <= j < k ==> AxisHolds(f, x, step, ynewlo, j))
                   && FirstBelow(f, x, step, ynewlo, i + 1, k, rest.x, icount + 2, rest.icount);
          assert FirstBelow(f, x, step, ynewlo, i, k, rest.x, icount, rest.icount);
        }
      }
    }
  }

  /** How a round ends: the reported point and value, whether the search is over, the fault, the count. */
  datatype Ending = Ending(xmin: seq<real>, ynewlo: real, done: bool, ifault: nat, icount: nat)

  /**
   * Label L3000: xmin is column ilo and ynewlo its stored value. With the
   * budget spent the search ends with fault 2; otherwise the probes decide
   * between the end with fault 0 and a restart from the probe point.
   */
  function Factorial(f: Objective, n: nat, s: Simplex, ilo: nat, icount: nat, step: seq<real>, kcount: nat): (e: Ending)
    requires Fits(s, n) && ilo <= n && |step| == n
    ensures |e.xmin| == n && e.ynewlo == s.ys[ilo] && e.icount >= icount
    ensures !e.done ==> icount <= kcount && e.icount <= icount + 2 * n
  {
    var xmin := s.cols[ilo];
    var ynewlo := s.ys[ilo];
    if kcount < icount then Ending(xmin, ynewlo, true, 2, icount)
    else
      var r := Probes(f, xmin, step, ynewlo, 0, icount);
      Ending(r.x, ynewlo, !r.improved, if r.improved then 2 else 0, r.icount)
  }

  /**
   * The factorial test ends the search with column ilo, fault 2 exactly when
   * the budget was already spent, and fault 0 at a local minimum after 2 n
   * probes; or it hands on the first probe point below the value of column
   * ilo, with every earlier axis holding.
   */
  lemma FactorialFacts(f: Objective, n: nat, s: Simplex, ilo: nat, icount: nat, step: seq<real>, kcount: nat)
    requires Fits(s, n) && ilo <= n && |step| == n
    ensures var e := Factorial(f, n, s, ilo, icount, step, kcount);
      && (e.done ==> (e.ifault == 0 || e.ifault == 2) && e.xmin == s.cols[ilo])
      && (e.done && e.ifault == 2 <==> kcount < icount)
      && (e.done && e.ifault == 0 ==> e.icount == icount + 2 * n && LocalMinimum(f, e.xmin, step, e.ynewlo))
      && (!e.done ==>
            exists k :: 0 <= k < n && (forall j :: 0 <= j < k ==> AxisHolds(f, s.cols[ilo], step, e.ynewlo, j))
                        && FirstBelow(f, s.cols[ilo], step, e.ynewlo, 0, k, e.xmin, icount, e.icount))
  {
    ProbesFind(f, s.cols[ilo], step, s.ys[ilo], 0, icount);
  }

  // ---------------------------------------------------------------------------
  // Rounds and restarts, as values
  // ---------------------------------------------------------------------------

  /** What a round leaves: the simplex, the reported low index, jcount, and how it ended. */
  datatype Rounded = Rounded(s: Simplex, ilo: nat, jcount: nat, e: Ending)

  /**
   * The start of a round from label L1000: the simplex built around start,
   * with the low scan over it and the n + 1 evaluations of the
   * construction counted.
   */
  function Opening(f: Objective, n: nat, start: seq<real>, step: seq<real>, del: real, s: Simplex,
                   jcount: nat, icount: nat): (st: Passing)
    requires 1 <= n && |start| == n == |step| && Fits(s, n)
    ensures Fits(st.s, n) && 1 <= st.ilo <= n && st.jcount == jcount && st.icount == icount + n + 1
    ensures LowBound(st, n)
  {
    var b := Build(f, s, start, step, del);
    var lo := LowScan(b.ys, n + 1);
    LowScanFindsMinimum(b.ys, n + 1);
    Passing(b, lo.0, lo.1, jcount, icount + (n + 1))
  }

  /** One round: the opening, the passes, then the factorial test. */
  function Round(f: Objective, n: nat, start: seq<real>, step: seq<real>, del: real, rq: real,
                 konvge: nat, kcount: nat, s: Simplex, jcount: nat, icount: nat): (r: Rounded)
    requires 1 <= n && |start| == n == |step| && Fits(s, n) && 1 <= jcount && 1 <= konvge
    ensures Fits(r.s, n) && 1 <= r.ilo <= n && |r.e.xmin| == n && r.e.icount > icount + n
    ensures !r.e.done ==> r.e.icount <= kcount + 2 * n && 1 <= r.jcount
  {
    var t := PassLoop(f, n, Opening(f, n, start, step, del, s, jcount, icount), konvge, kcount, rq);
    Rounded(t.s, t.ilo, t.jcount, Factorial(f, n, t.s, t.ilo, t.icount, step, kcount))
  }

  /**
   * The end of a round, from a simplex whose vertices carry their values:
   * the reported point is a vertex with its value (or the unbuilt column
   * n); fault 2 means the budget was overspent, fault 0 a local minimum
   * within kcount + 2 n evaluations; a test that does not end the search
   * hands on an axis probe of column ilo, below that column's value.
   */
  lemma FactorialEnds(f: Objective, n: nat, s: Simplex, ilo: nat, icount: nat, step: seq<real>, kcount: nat,
                      colN: seq<real>, yN: real)
    requires Fits(s, n) && 1 <= ilo <= n && |step| == n
    requires Sound(f, s, n, colN, yN)
    ensures var e := Factorial(f, n, s, ilo, icount, step, kcount);
      && (e.done ==> (e.ifault == 0 || e.ifault == 2) && (e.ynewlo == f(e.xmin) || (e.xmin == colN && e.ynewlo == yN)))
      && (e.done && e.ifault == 2 ==> kcount < e.icount)
      && (e.done && e.ifault == 0 ==> e.icount <= kcount + 2 * n && LocalMinimum(f, e.xmin, step, e.ynewlo))
      && (!e.done ==> e.ynewlo == s.ys[ilo] && f(e.xmin) < e.ynewlo
                      && exists k :: 0 <= k < n && AxisProbe(e.xmin, s.cols[ilo], step, k))
  {
    FactorialFacts(f, n, s, ilo, icount, step, kcount);
    var e := Factorial(f, n, s, ilo, icount, step, kcount);
    if !e.done {
      var k :| 0 <= k < n && (forall j :: 0 <= j < k ==> AxisHolds(f, s.cols[ilo], step, e.ynewlo, j))
               && FirstBelow(f, s.cols[ilo], step, e.ynewlo, 0, k, e.xmin, icount, e.icount);
      assert AxisProbe(e.xmin, s.cols[ilo], step, k);
    }
  }

  /** A round keeps the vertices valued and ends as FactorialEnds says, at the simplex the passes leave. */
  lemma RoundFacts(f: Objective, n: nat, start: seq<real>, step: seq<real>, del: real, rq: real,
                   konvge: nat, kcount: nat, s: Simplex, jcount: nat, icount: nat, colN: seq<real>, yN: real)
    requires 1 <= n && |start| == n == |step| && Fits(s, n) && 1 <= jcount && 1 <= konvge
    requires StaleOrValued(f, s, n, colN, yN)
    ensures var r := Round(f, n, start, step, del, rq, konvge, kcount, s, jcount, icount);
      var e := r.e;
      && StaleOrValued(f, r.s, n, colN, yN)
      && (e.done ==> (e.ifault == 0 || e.ifault == 2) && (e.ynewlo == f(e.xmin) || (e.xmin == colN && e.ynewlo == yN)))
      && (e.done && e.ifault == 2 ==> kcount < e.icount)
      && (e.done && e.ifault == 0 ==> e.icount <= kcount + 2 * n && LocalMinimum(f, e.xmin, step, e.ynewlo))
      && (!e.done ==> e.ynewlo == r.s.ys[r.ilo] && f(e.xmin) < e.ynewlo
                      && exists k :: 0 <= k < n && AxisProbe(e.xmin, r.s.cols[r.ilo], step, k))
  {
    var st := Opening(f, n, start, step, del, s, jcount, icount);
    PassLoopKeeps(f, n, st, konvge, kcount, rq, colN, yN);
    var t := PassLoop(f, n, st, konvge, kcount, rq);
    FactorialEnds(f, n, t.s, t.ilo, t.icount, step, kcount, colN, yN);
    assert Round(f, n, start, step, del, rq, konvge, kcount, s, jcount, icount)
        == Rounded(t.s, t.ilo, t.jcount, Factorial(f, n, t.s, t.ilo, t.icount, step, kcount));
  }

  /**
   * The restart loop: rounds run until one ends the search; a round that
   * does not end makes its probe point the new start, del becomes EPS and
   * numres counts the restart. The result is the Optimum and the final
   * contents of start.
   */
  function Restarts(f: Objective, n: nat, start: seq<real>, step: seq<real>, rq: real, konvge: nat, kcount: nat,
                    s: Simplex, del: real, jcount: nat, icount: nat, numres: nat): (r: (Optimum, seq<real>))
    requires 1 <= n && |start| == n == |step| && Fits(s, n) && 1 <= jcount && 1 <= konvge
    requires icount <= kcount + 2 * n
    decreases kcount + 2 * n + 1 - icount
  {
    var rd := Round(f, n, start, step, del, rq, konvge, kcount, s, jcount, icount);
    if rd.e.done then (Optimum(rd.e.xmin, rd.e.ynewlo, rd.e.icount, numres, rd.e.ifault), start)
    else Restarts(f, n, rd.e.xmin, step, rq, konvge, kcount, rd.s, EPS, rd.jcount, rd.e.icount, numres + 1)
  }

  /**
   * The result of the restart loop: fault 0 or 2, n coordinates, more than
   * n evaluations, a vertex with its value (or the unbuilt column n), fault
   * 2 only with the budget overspent, fault 0 only at a local minimum within
   * kcount + 2 n evaluations. numres counts the restarts; without one start
   * is untouched, and after one it holds an axis probe of a reported vertex.
   */
  lemma {:induction false} RestartsFacts(f: Objective, n: nat, start: seq<real>, step: seq<real>, rq: real,
                                         konvge: nat, kcount: nat, s: Simplex, del: real, jcount: nat,
                                         icount: nat, numres: nat, colN: seq<real>, yN: real)
    requires 1 <= n && |start| == n == |step| && Fits(s, n) && 1 <= jcount && 1 <= konvge
    requires icount <= kcount + 2 * n
    requires StaleOrValued(f, s, n, colN, yN)
    ensures var r := Restarts(f, n, start, step, rq, konvge, kcount, s, del, jcount, icount, numres);
      var opt := r.0;
      && (opt.ifault == 0 || opt.ifault == 2)
      && |opt.xmin| == n && opt.icount > icount + n
      && (opt.ynewlo == f(opt.xmin) || (opt.xmin == colN && opt.ynewlo == yN))
      && (opt.ifault == 2 ==> kcount < opt.icount)
      && (opt.ifault == 0 ==> opt.icount <= kcount + 2 * n && LocalMinimum(f, opt.xmin, step, opt.ynewlo))
      && opt.numres >= numres
      && (opt.numres == numres ==> r.1 == start)
      && (opt.numres > numres ==> exists c, k :: |c| == n && 0 <= k < n && AxisProbe(r.1, c, step, k))
    decreases kcount + 2 * n + 1 - icount
  {
    RoundFacts(f, n, start, step, del, rq, konvge, kcount, s, jcount, icount, colN, yN);
    var rd := Round(f, n, start, step, del, rq, konvge, kcount, s, jcount, icount);
    if !rd.e.done {
      RestartsFacts(f, n, rd.e.xmin, step, rq, konvge, kcount, rd.s, EPS, rd.jcount, rd.e.icount, numres + 1, colN, yN);
      var r := Restarts(f, n, rd.e.xmin, step, rq, konvge, kcount, rd.s, EPS, rd.jcount, rd.e.icount, numres + 1);
      if r.0.numres == numres + 1 {
        var k :| 0 <= k < n && AxisProbe(rd.e.xmin, rd.s.cols[rd.ilo], step, k);
        assert AxisProbe(r.1, rd.s.cols[rd.ilo], step, k);
      }
    }
  }

  /**
   * nelmin as a value: invalid parameters give fault 1 and zeros; otherwise
   * the restart loop runs from the first simplex, with rq = reqmin * n,
   * del = 1 and jcount = konvge. Also returns the final contents of start.
   */
  function Minimize(f: Objective, n: nat, start: seq<real>, reqmin: real, step: seq<real>, konvge: int,
                    kcount: nat, colN: seq<real>, yN: real): (r: (Optimum, seq<real>))
    requires |start| == n == |step| && |colN| == n
  {
    if !ValidInput(reqmin, n, konvge) then (Optimum(Zeros(n), 0.0, 0, 0, 1), start)
    else Restarts(f, n, start, step, reqmin * (n as real), konvge as nat, kcount, Unbuilt(n, colN, yN),
                  1.0, konvge as nat, 0, 0)
  }

  /** The promises of nelmin, about its value model. */
  lemma MinimizeFacts(f: Objective, n: nat, start: seq<real>, reqmin: real, step: seq<real>, konvge: int,
                      kcount: nat, colN: seq<real>, yN: real)
    requires |start| == n == |step| && |colN| == n
    ensures var r := Minimize(f, n, start, reqmin, step, konvge, kcount, colN, yN);
      var opt := r.0;
      && (opt.ifault == 0 || opt.ifault == 1 || opt.ifault == 2)
      && (opt.ifault == 1 <==> !ValidInput(reqmin, n, konvge))
      && (opt.ifault == 1 ==> opt == Optimum(Zeros(n), 0.0, 0, 0, 1) && r.1 == start)
      && (opt.ifault != 1 ==>
            && |opt.xmin| == n && opt.icount > n
            && (opt.ynewlo == f(opt.xmin) || (opt.xmin == colN && opt.ynewlo == yN)))
      && (opt.ifault == 2 ==> kcount < opt.icount)
      && (opt.ifault == 0 ==> opt.icount <= kcount + 2 * n && LocalMinimum(f, opt.xmin, step, opt.ynewlo))
      && (opt.numres == 0 ==> r.1 == start)
      && (opt.numres > 0 ==> exists c, k :: |c| == n && 0 <= k < n && AxisProbe(r.1, c, step, k))
  {
    if ValidInput(reqmin, n, konvge) {
      RestartsFacts(f, n, start, step, reqmin * (n as real), konvge as nat, kcount, Unbuilt(n, colN, yN),
                    1.0, konvge as nat, 0, 0, colN, yN);
    }
  }
  // ---------------------------------------------------------------------------
  // The steps of nelmin, in place on p and y
  // ---------------------------------------------------------------------------

  /** The columns of p, as values. */
  ghost function Cols(p: array2<real>): (c: seq<seq<real>>)
    reads p
    ensures |c| == p.Length1 && forall j :: 0 <= j < p.Length1 ==> c[j] == Column(p, j)
  {
    seq(p.Length1, j requires 0 <= j < p.Length1 reads p => Column(p, j))
  }

  /** The work arrays p and y as a Simplex. */
  ghost function Snap(p: array2<real>, y: array<real>): (s: Simplex)
    reads p, y
    ensures p.Length1 == p.Length0 + 2 == y.Length ==> Fits(s, p.Length0)
  {
    Simplex(Cols(p), y[..])
  }

  /** Copies v into column j of p, leaving every other column as it was. */
  method StoreColumn(p: array2<real>, j: nat, v: seq<real>)
    requires j < p.Length1 && |v| == p.Length0
    modifies p
    ensures Column(p, j) == v
    ensures forall i, k :: 0 <= i < p.Length0 && 0 <= k < p.Length1 && k != j ==> p[i, k] == old(p[i, k])
    ensures forall k :: 0 <= k < p.Length1 && k != j ==> Column(p, k) == old(Column(p, k))
    ensures Cols(p) == old(Cols(p))[j := v]
  {
    ghost var cols := seq(p.Length1, k requires 0 <= k < p.Length1 reads p => Column(p, k));
    for i := 0 to p.Length0
      invariant forall r :: 0 <= r < i ==> p[r, j] == v[r]
      invariant forall r, k :: 0 <= r < p.Length0 && 0 <= k < p.Length1 && k != j ==> p[r, k] == old(p[r, k])
    {
      p[i, j] := v[i];
    }
    forall k | 0 <= k < p.Length1 && k != j
      ensures Column(p, k) == cols[k]
    {
      assert forall r :: 0 <= r < p.Length0 ==> Column(p, k)[r] == cols[k][r];
    }
  }

  /**
   * One vertex of the simplex construction: start[j] is moved by
   * step[j] * del, copied into column j and evaluated into y[j], then
   * restored. No other column or value changes.
   */
  method PlaceVertex(f: Objective, p: array2<real>, y: array<real>, start: array<real>, step: array<real>,
                     del: real, j: nat)
    requires p.Length0 == start.Length == step.Length && j < start.Length
    requires p.Length1 == start.Length + 2 == y.Length
    requires start != step && y != start && y != step
    modifies p, y, start
    ensures start[..] == old(start[..])
    ensures Column(p, j) == Vertex(start[..], step[..], del, j) && y[j] == f(Column(p, j))
    ensures forall k :: 0 <= k < p.Length1 && k != j ==> Column(p, k) == old(Column(p, k)) && y[k] == old(y[k])
  {
    ghost var s0 := start[..];
    ghost var moved := Vertex(s0, step[..], del, j);
    var x := start[j];
    start[j] := x + step[j] * del;
    assert start[j] == moved[j];
    assert forall r :: 0 <= r < start.Length && r != j ==> start[r] == moved[r];
    assert start[..] == moved;
    StoreColumn(p, j, start[..]);
    y[j] := f(start[..]);
    start[j] := x;
    assert start[..] == s0;
  }

  /**
   * The simplex construction (label L1000): start is perturbed in place
   * one coordinate at a time and restored; the arrays end as Build says.
   * Costs n + 1 evaluations.
   */
  method BuildSimplex(f: Objective, p: array2<real>, y: array<real>, start: array<real>, step: array<real>, del: real)
    returns (evals: nat)
    requires p.Length0 == start.Length == step.Length
    requires p.Length1 == start.Length + 2 == y.Length
    requires start != step && y != start && y != step
    modifies p, y, start
    ensures start[..] == old(start[..]) && evals == start.Length + 1
    ensures Snap(p, y) == Build(f, old(Snap(p, y)), start[..], step[..], del)
  {
    var n := start.Length;
    ghost var s0 := start[..];
    ghost var colN := Column(p, n);
    ghost var old0 := Snap(p, y);
    StoreColumn(p, n + 1, start[..]);
    y[n + 1] := f(start[..]);
    for j := 0 to n
      invariant start[..] == s0
      invariant Column(p, n + 1) == s0 && y[n + 1] == f(s0)
      invariant Column(p, n) == colN && y[n] == old(y[n])
      invariant forall k :: 0 <= k < j ==> Column(p, k) == Vertex(s0, step[..], del, k) && y[k] == f(Column(p, k))
    {
      PlaceVertex(f, p, y, start, step, del, j);
    }
    evals := n + 1;
    ghost var b := Build(f, old0, s0, step[..], del);
    assert forall j :: 0 <= j < n + 2 ==> Cols(p)[j] == b.cols[j] && y[..][j] == b.ys[j];
  }

  /**
   * The scan for the lowest vertex over columns 0 .. n, as written: the
   * minimum value and the index LowScan reports.
   */
  method ScanLow(y: array<real>, n: nat) returns (ylo: real, ilo: nat)
    requires 1 <= n < y.Length
    ensures (ylo, ilo) == LowScan(y[..], n + 1)
    ensures 1 <= ilo <= n && forall j :: 0 <= j <= n ==> ylo <= y[j]
  {
    ylo := y[0];
    ilo := 1;
    for i := 1 to n + 1
      invariant (ylo, ilo) == LowScan(y[..], i)
    {
      if y[i] < ylo {
        ylo := y[i];
        ilo := i;
      }
    }
    LowScanFindsMinimum(y[..], n + 1);
  }

  /**
   * The scan for the highest vertex over columns 0 .. n, as written: the
   * maximum value and the index HighScan reports.
   */
  method ScanHigh(y: array<real>, n: nat) returns (ynewlo: real, ihi: nat)
    requires 1 <= n < y.Length
    ensures (ynewlo, ihi) == HighScan(y[..], n + 1)
    ensures 1 <= ihi <= n && forall j :: 0 <= j <= n ==> y[j] <= ynewlo
  {
    ynewlo := y[0];
    ihi := 1;
    for i := 1 to n + 1
      invariant (ynewlo, ihi) == HighScan(y[..], i)
    {
      if ynewlo < y[i] {
        ynewlo := y[i];
        ihi := i;
      }
    }
    HighScanFindsMaximum(y[..], n + 1);
  }

  /** The sum of row i over the first k columns. */
  method RowSum(p: array2<real>, i: nat, k: nat) returns (z: real)
    requires i < p.Length0 && k <= p.Length1
    ensures z == Sum(RowOf(Cols(p), i, k))
  {
    ghost var cols := Cols(p);
    z := 0.0;
    for j := 0 to k
      invariant z == Sum(RowOf(cols, i, j))
    {
      assert RowOf(cols, i, j + 1)[..j] == RowOf(cols, i, j);
      z := z + p[i, j];
    }
  }

  /** The centroid pbar of the scanned columns other than ihi, as Centre computes it. */
  method Centroid(p: array2<real>, n: nat, ihi: nat) returns (pbar: seq<real>)
    requires 1 <= n && p.Length0 == n && p.Length1 == n + 2 && ihi <= n
    ensures pbar == Centre(Cols(p), n, ihi)
  {
    ghost var cols := Cols(p);
    var dn := n as real;
    pbar := [];
    for i := 0 to n
      invariant |pbar| == i && forall k :: 0 <= k < i ==> pbar[k] == CentreAt(cols, n, ihi, k)
    {
      var z := RowSum(p, i, n + 1);
      z := z - p[i, ihi];
      pbar := pbar + [z / dn];
    }
  }

  /** The number of scanned values y[0 .. n] above ystar. */
  method CountAbove(y: array<real>, n: nat, ystar: real) returns (l: nat)
    requires n < y.Length
    ensures l == Above(y[..n + 1], ystar)
  {
    l := 0;
    for i := 0 to n + 1
      invariant l == Above(y[..i], ystar)
    {
      assert y[..i + 1][..i] == y[..i];
      if ystar < y[i] {
        l := l + 1;
      }
    }
  }

  /** Column j := v and y[j] := value: the simplex with vertex j put in place. */
  method SetVertex(p: array2<real>, y: array<real>, j: nat, v: seq<real>, value: real)
    requires j < p.Length1 == y.Length && |v| == p.Length0
    modifies p, y
    ensures Snap(p, y) == Put(old(Snap(p, y)), j, v, value)
  {
    StoreColumn(p, j, v);
    y[j] := value;
  }

  /**
   * One pass of reflection, expansion and contraction on column ihi, as
   * Choose decides it: on a replacement column ihi and y[ihi] take the new
   * vertex and its value; on a shrink nothing changes yet.
   */
  method Pass(f: Objective, p: array2<real>, y: array<real>, n: nat, ihi: nat, ylo: real, pbar: seq<real>)
    returns (shrink: bool, evals: nat)
    requires p.Length0 == n == |pbar| && p.Length1 == n + 2 == y.Length && ihi <= n
    modifies p, y
    ensures var m := Choose(f, pbar, old(Column(p, ihi)), old(y[ihi]), ylo, old(y[..n + 1]));
      && (shrink <==> m.ShrinkAll?) && evals == m.evals
      && Snap(p, y) == if m.ShrinkAll? then old(Snap(p, y)) else Put(old(Snap(p, y)), ihi, m.vertex, m.value)
  {
    var phi := Column(p, ihi);
    var pstar := Reflect(pbar, phi);
    var ystar := f(pstar);
    shrink := false;
    if ystar < ylo {
      var p2star := Toward(pbar, pstar, ECOEFF);
      var y2star := f(p2star);
      evals := 2;
      if ystar < y2star {
        SetVertex(p, y, ihi, pstar, ystar);
      } else {
        SetVertex(p, y, ihi, p2star, y2star);
      }
    } else {
      var l := CountAbove(y, n, ystar);
      if 1 < l {
        evals := 1;
        SetVertex(p, y, ihi, pstar, ystar);
      } else if l == 0 {
        var p2star := Toward(pbar, phi, CCOEFF);
        var y2star := f(p2star);
        evals := 2;
        if y[ihi] < y2star {
          shrink := true;
        } else {
          SetVertex(p, y, ihi, p2star, y2star);
        }
      } else {
        var p2star := Toward(pbar, pstar, CCOEFF);
        var y2star := f(p2star);
        evals := 2;
        if y2star <= ystar {
          SetVertex(p, y, ihi, p2star, y2star);
        } else {
          SetVertex(p, y, ihi, pstar, ystar);
        }
      }
    }
  }

  /**
   * One column of the shrink: column j moves halfway toward column ilo, a
   * row at a time, and xmin receives the new column. No other column
   * changes.
   */
  method HalveColumn(p: array2<real>, j: nat, ilo: nat, xmin: array<real>)
    requires j < p.Length1 && ilo < p.Length1 && xmin.Length == p.Length0
    modifies p, xmin
    ensures Column(p, j) == Midpoint(old(Column(p, j)), old(Column(p, ilo))) && xmin[..] == Column(p, j)
    ensures forall k :: 0 <= k < p.Length1 && k != j ==> Column(p, k) == old(Column(p, k))
  {
    ghost var cj := Column(p, j);
    ghost var cl := Column(p, ilo);
    ghost var mid := Midpoint(cj, cl);
    ghost var cols := seq(p.Length1, k requires 0 <= k < p.Length1 reads p => Column(p, k));
    for i := 0 to p.Length0
      invariant forall r :: 0 <= r < i ==> p[r, j] == mid[r] && xmin[r] == mid[r]
      invariant forall r, k :: 0 <= r < p.Length0 && 0 <= k < p.Length1 && (k != j || i <= r) ==> p[r, k] == cols[k][r]
    {
      p[i, j] := (p[i, j] + p[i, ilo]) * 0.5;
      xmin[i] := p[i, j];
    }
    assert Column(p, j) == mid;
    forall k | 0 <= k < p.Length1 && k != j
      ensures Column(p, k) == cols[k]
    {
      assert forall r :: 0 <= r < p.Length0 ==> Column(p, k)[r] == cols[k][r];
    }
  }

  /**
   * The shrink of the whole simplex toward column ilo, column by column
   * (column ilo itself stays put, so updating it first changes nothing):
   * the arrays end as Halve says. Costs n + 1 evaluations.
   */
  method ShrinkSimplex(f: Objective, p: array2<real>, y: array<real>, n: nat, ilo: nat) returns (evals: nat)
    requires p.Length0 == n && p.Length1 == n + 2 == y.Length && ilo <= n
    modifies p, y
    ensures Snap(p, y) == Halve(f, old(Snap(p, y)), n, ilo) && evals == n + 1
  {
    ghost var s0 := Snap(p, y);
    ghost var h := Halve(f, s0, n, ilo);
    ghost var low := s0.cols[ilo];
    var xmin := new real[n];
    for j := 0 to n + 1
      invariant forall k :: 0 <= k < j ==> Column(p, k) == h.cols[k] && y[k] == h.ys[k]
      invariant forall k :: j <= k < n + 2 ==> Column(p, k) == s0.cols[k]
      invariant y[n + 1] == h.ys[n + 1]
    {
      assert Column(p, ilo) == low;
      HalveColumn(p, j, ilo, xmin);
      assert Column(p, j) == h.cols[j] == xmin[..];
      y[j] := f(xmin[..]);
    }
    evals := n + 1;
    assert Cols(p) == h.cols;
    assert y[..] == h.ys;
  }

  /** The convergence measure of the scanned values, as Dispersion defines it. */
  method Spread(y: array<real>, n: nat) returns (z: real)
    requires n < y.Length
    ensures z == Dispersion(y[..], n)
  {
    var total := ValueSum(y, n + 1);
    var x := total / ((n + 1) as real);
    z := Deviations(y, n + 1, x);
    assert y[..][..n + 1] == y[..n + 1];
  }

  /** The first loop of the variance test: the sum of y[0 .. k - 1]. */
  method ValueSum(y: array<real>, k: nat) returns (z: real)
    requires k <= y.Length
    ensures z == Sum(y[..k])
  {
    z := 0.0;
    for i := 0 to k
      invariant z == Sum(y[..i])
    {
      assert y[..i + 1][..i] == y[..i];
      z := z + y[i];
    }
  }

  /** The second loop of the variance test: the squared deviations of y[0 .. k - 1] from x, summed. */
  method Deviations(y: array<real>, k: nat, x: real) returns (z: real)
    requires k <= y.Length
    ensures z == SumSq(y[..k], x)
  {
    z := 0.0;
    for i := 0 to k
      invariant z == SumSq(y[..i], x)
    {
      assert y[..i + 1][..i] == y[..i];
      z := z + (y[i] - x) * (y[i] - x);
    }
  }

  /**
   * The probes of axis i around xmin, in place, each counted in icount:
   * up by step[i] * EPS, then down by the same. A probe below ynewlo stops
   * them with xmin left there, as Probes from axis i says; otherwise xmin
   * is restored and Probes goes on to axis i + 1.
   */
  method ProbeAxis(f: Objective, xmin: array<real>, step: array<real>, ynewlo: real, i: nat, icount: nat)
    returns (improved: bool, icount': nat)
    requires xmin.Length == step.Length && xmin != step && i < xmin.Length
    modifies xmin
    ensures improved ==> Probed(true, xmin[..], icount') == Probes(f, old(xmin[..]), step[..], ynewlo, i, icount)
    ensures !improved ==>
      && xmin[..] == old(xmin[..]) && icount' == icount + 2
      && Probes(f, xmin[..], step[..], ynewlo, i, icount) == Probes(f, xmin[..], step[..], ynewlo, i + 1, icount')
  {
    ghost var x0 := xmin[..];
    var del := step[i] * EPS;
    xmin[i] := xmin[i] + del;
    assert xmin[..] == Nudge(x0, i, del);
    var z := f(xmin[..]);
    if z < ynewlo {
      return true, icount + 1;
    }
    xmin[i] := xmin[i] - del * 2.0;
    assert xmin[..] == Nudge(x0, i, -del);
    z := f(xmin[..]);
    if z < ynewlo {
      return true, icount + 2;
    }
    xmin[i] := xmin[i] + del;
    assert xmin[..] == x0;
    improved, icount' := false, icount + 2;
  }

  /**
   * The factorial test around xmin, axis by axis, counting each probe in
   * icount: the outcome, the point left in xmin and the count are those of
   * Probes.
   */
  method AxisProbes(f: Objective, xmin: array<real>, step: array<real>, ynewlo: real, icount: nat)
    returns (improved: bool, icount': nat)
    requires xmin.Length == step.Length && xmin != step
    modifies xmin
    ensures Probed(improved, xmin[..], icount') == Probes(f, old(xmin[..]), step[..], ynewlo, 0, icount)
  {
    ghost var x0 := xmin[..];
    icount' := icount;
    improved := false;
    var i := 0;
    while i < xmin.Length
      invariant 0 <= i <= xmin.Length && xmin[..] == x0
      invariant Probes(f, x0, step[..], ynewlo, i, icount') == Probes(f, x0, step[..], ynewlo, 0, icount)
    {
      improved, icount' := ProbeAxis(f, xmin, step, ynewlo, i, icount');
      if improved {
        return;
      }
      i := i + 1;
    }
  }

  /**
   * The shrink branch of a pass on the arrays (lines of label L2000 after
   * a failed contraction): the whole simplex is halved toward column ilo,
   * the budget is checked and the low scan runs again, as ShrinkEnd says.
   */
  method ShrinkStep(f: Objective, p: array2<real>, y: array<real>, n: nat, ylo: real, ilo: nat,
                    jcount: nat, icount: nat, kcount: nat)
    returns (ylo': real, ilo': nat, icount': nat, more: bool)
    requires 1 <= n && p.Length0 == n && p.Length1 == n + 2 == y.Length && 1 <= ilo <= n
    modifies p, y
    ensures (Passing(Snap(p, y), ylo', ilo', jcount, icount'), more)
         == ShrinkEnd(f, n, Passing(old(Snap(p, y)), ylo, ilo, jcount, icount), kcount)
  {
    var e := ShrinkSimplex(f, p, y, n, ilo);
    icount' := icount + e;
    if kcount < icount' {
      return ylo, ilo, icount', false;
    }
    ylo', ilo' := ScanLow(y, n);
    more := true;
  }

  /**
   * The end of a pass that replaced vertex ihi, on the arrays: the update
   * of ylo and ilo, the countdown of jcount and the variance test, as
   * ReplaceEnd says. Nothing is written.
   */
  method Converge(p: array2<real>, y: array<real>, n: nat, ylo: real, ilo: nat, ihi: nat,
                  jcount: nat, icount: nat, konvge: nat, kcount: nat, rq: real)
    returns (ylo': real, ilo': nat, jcount': nat, more: bool)
    requires 1 <= n && p.Length0 == n && p.Length1 == n + 2 == y.Length
    requires 1 <= ilo <= n && 1 <= ihi <= n && 1 <= jcount && 1 <= konvge
    ensures (Passing(Snap(p, y), ylo', ilo', jcount', icount), more)
         == ReplaceEnd(n, Passing(Snap(p, y), ylo, ilo, jcount, icount), ihi, konvge, kcount, rq)
  {
    ylo', ilo' := ylo, ilo;
    if y[ihi] < ylo {
      ylo' := y[ihi];
      ilo' := ihi;
    }
    jcount' := jcount - 1;
    if jcount' != 0 {
      return ylo', ilo', jcount', true;
    }
    more := false;
    if icount <= kcount {
      jcount' := konvge;
      var z := Spread(y, n);
      more := rq < z;
    }
  }

  /**
   * The move of a pass on the arrays: the high scan, the centroid and the
   * reflection, expansion or contraction Pass makes, as Trial says.
   */
  method MoveInPlace(f: Objective, p: array2<real>, y: array<real>, n: nat, ylo: real)
    returns (ihi: nat, shrink: bool, evals: nat)
    requires 1 <= n && p.Length0 == n && p.Length1 == n + 2 == y.Length
    modifies p, y
    ensures var t := Trial(f, n, old(Snap(p, y)), ylo);
      && ihi == t.0 && (shrink <==> t.1.ShrinkAll?) && evals == t.1.evals
      && Snap(p, y) == if t.1.ShrinkAll? then old(Snap(p, y)) else Put(old(Snap(p, y)), ihi, t.1.vertex, t.1.value)
  {
    var ynewlo;
    ynewlo, ihi := ScanHigh(y, n);
    var pbar := Centroid(p, n, ihi);
    shrink, evals := Pass(f, p, y, n, ihi, ylo, pbar);
  }

  /**
   * One pass from label L2000 on the arrays: MoveInPlace, then ShrinkStep
   * or Converge. The arrays and the counters end as Step says; more is
   * whether another pass follows.
   */
  method StepInPlace(f: Objective, p: array2<real>, y: array<real>, n: nat, ylo: real, ilo: nat,
                     jcount: nat, icount: nat, konvge: nat, kcount: nat, rq: real)
    returns (ylo': real, ilo': nat, jcount': nat, icount': nat, more: bool)
    requires 1 <= n && p.Length0 == n && p.Length1 == n + 2 == y.Length
    requires 1 <= ilo <= n && 1 <= jcount && 1 <= konvge
    modifies p, y
    ensures (Passing(Snap(p, y), ylo', ilo', jcount', icount'), more)
         == Step(f, n, Passing(old(Snap(p, y)), ylo, ilo, jcount, icount), konvge, kcount, rq)
  {
    ghost var st := Passing(Snap(p, y), ylo, ilo, jcount, icount);
    ghost var t := Trial(f, n, st.s, ylo);
    var ihi, shrink, e := MoveInPlace(f, p, y, n, ylo);
    icount' := icount + e;
    jcount' := jcount;
    ghost var next := Passing(Snap(p, y), ylo, ilo, jcount, icount');
    if shrink {
      assert Step(f, n, st, konvge, kcount, rq) == ShrinkEnd(f, n, next, kcount);
      ylo', ilo', icount', more := ShrinkStep(f, p, y, n, ylo, ilo, jcount, icount', kcount);
    } else {
      assert Step(f, n, st, konvge, kcount, rq) == ReplaceEnd(n, next, ihi, konvge, kcount, rq);
      ylo', ilo', jcount', more := Converge(p, y, n, ylo, ilo, ihi, jcount, icount', konvge, kcount, rq);
    }
  }

  /** The passes from label L2000 until one stops them: the arrays and counters end as PassLoop says. */
  method Passes(f: Objective, p: array2<real>, y: array<real>, n: nat, ylo: real, ilo: nat,
                jcount: nat, icount: nat, konvge: nat, kcount: nat, rq: real)
    returns (ylo': real, ilo': nat, jcount': nat, icount': nat)
    requires 1 <= n && p.Length0 == n && p.Length1 == n + 2 == y.Length
    requires 1 <= ilo <= n && 1 <= jcount && 1 <= konvge
    modifies p, y
    ensures Passing(Snap(p, y), ylo', ilo', jcount', icount')
         == PassLoop(f, n, Passing(old(Snap(p, y)), ylo, ilo, jcount, icount), konvge, kcount, rq)
  {
    ghost var target := PassLoop(f, n, Passing(Snap(p, y), ylo, ilo, jcount, icount), konvge, kcount, rq);
    ylo', ilo', jcount', icount' := ylo, ilo, jcount, icount;
    while true
      invariant 1 <= ilo' <= n && 1 <= jcount'
      invariant PassLoop(f, n, Passing(Snap(p, y), ylo', ilo', jcount', icount'), konvge, kcount, rq) == target
      decreases if icount' <= kcount then kcount + 1 - icount' else 0, jcount'
    {
      var more;
      ylo', ilo', jcount', icount', more := StepInPlace(f, p, y, n, ylo', ilo', jcount', icount', konvge, kcount, rq);
      if !more {
        return;
      }
    }
  }

  /**
   * Label L3000 on the arrays: column ilo is copied into xmin, then the
   * budget check and the axis probes run as Factorial says.
   */
  method FactorialTest(f: Objective, p: array2<real>, y: array<real>, n: nat, ilo: nat, step: array<real>,
                       xmin: array<real>, kcount: nat, icount: nat)
    returns (ynewlo: real, done: bool, ifault: nat, icount': nat)
    requires 1 <= ilo <= n && p.Length0 == n && p.Length1 == n + 2 == y.Length
    requires xmin.Length == n == step.Length && xmin != step && xmin != y
    modifies xmin
    ensures Ending(xmin[..], ynewlo, done, ifault, icount') == Factorial(f, n, Snap(p, y), ilo, icount, step[..], kcount)
  {
    for i := 0 to n
      invariant forall r :: 0 <= r < i ==> xmin[r] == p[r, ilo]
    {
      xmin[i] := p[i, ilo];
    }
    assert xmin[..] == Column(p, ilo);
    ynewlo := y[ilo];
    if kcount < icount {
      return ynewlo, true, 2, icount;
    }
    var improved;
    improved, icount' := AxisProbes(f, xmin, step, ynewlo, icount);
    done := !improved;
    ifault := if improved then 2 else 0;
  }

  /**
   * The opening of a round on the arrays: the construction around start
   * (left as it was) and the low scan, as Opening says.
   */
  method OpenRound(f: Objective, n: nat, start: array<real>, step: array<real>, p: array2<real>, y: array<real>,
                   del: real, jcount: nat, icount: nat)
    returns (ylo: real, ilo: nat, icount': nat)
    requires 1 <= n && start.Length == n == step.Length
    requires p.Length0 == n && p.Length1 == n + 2 == y.Length
    requires start != step && y != start && y != step
    modifies start, p, y
    ensures start[..] == old(start[..])
    ensures Passing(Snap(p, y), ylo, ilo, jcount, icount')
         == Opening(f, n, start[..], step[..], del, old(Snap(p, y)), jcount, icount)
  {
    var e := BuildSimplex(f, p, y, start, step, del);
    ylo, ilo := ScanLow(y, n);
    icount' := icount + e;
  }

  /**
   * One round from label L1000 on the arrays: the opening, the passes and
   * the factorial test, ending as Round says; start is left as it was and
   * xmin holds the reported point.
   */
  method RoundInPlace(f: Objective, n: nat, start: array<real>, step: array<real>, rq: real, konvge: nat, kcount: nat,
                      p: array2<real>, y: array<real>, xmin: array<real>, del: real, jcount: nat, icount: nat)
    returns (ynewlo: real, done: bool, ifault: nat, jcount': nat, icount': nat)
    requires 1 <= n && start.Length == n == step.Length == xmin.Length && 1 <= konvge && 1 <= jcount
    requires p.Length0 == n && p.Length1 == n + 2 == y.Length
    requires start != step && xmin != step && xmin != start && y != start && y != step && y != xmin
    modifies start, p, y, xmin
    ensures start[..] == old(start[..])
    ensures var r := Round(f, n, start[..], step[..], del, rq, konvge, kcount, old(Snap(p, y)), jcount, icount);
      Snap(p, y) == r.s && jcount' == r.jcount && Ending(xmin[..], ynewlo, done, ifault, icount') == r.e
  {
    ghost var st := Opening(f, n, start[..], step[..], del, Snap(p, y), jcount, icount);
    var ylo, ilo;
    ylo, ilo, icount' := OpenRound(f, n, start, step, p, y, del, jcount, icount);
    ghost var t := PassLoop(f, n, st, konvge, kcount, rq);
    ylo, ilo, jcount', icount' := Passes(f, p, y, n, ylo, ilo, jcount, icount', konvge, kcount, rq);
    ynewlo, done, ifault, icount' := FactorialTest(f, p, y, n, ilo, step, xmin, kcount, icount');
  }

  /**
   * The restart loop of nelmin: rounds run until one ends the search; the
   * probe point of a round that does not becomes the new start, del becomes
   * EPS and numres counts the restart. The result and the final start are
   * those of Restarts from the first construction.
   */
  method RestartLoop(f: Objective, n: nat, start: array<real>, step: array<real>, rq: real, konvge: nat, kcount: nat,
                     p: array2<real>, y: array<real>, xmin: array<real>)
    returns (opt: Optimum)
    requires 1 <= n && start.Length == n == step.Length == xmin.Length && 1 <= konvge
    requires p.Length0 == n && p.Length1 == n + 2 == y.Length
    requires start != step && xmin != step && xmin != start && y != start && y != step && y != xmin
    modifies start, p, y, xmin
    ensures (opt, start[..]) == Restarts(f, n, old(start[..]), step[..], rq, konvge, kcount, old(Snap(p, y)),
                                         1.0, konvge, 0, 0)
  {
    ghost var target := Restarts(f, n, start[..], step[..], rq, konvge, kcount, Snap(p, y), 1.0, konvge, 0, 0);
    var jcount: nat := konvge;
    var del := 1.0;
    var icount: nat := 0;
    var numres: nat := 0;
    while true
      invariant icount <= kcount + 2 * n && 1 <= jcount
      invariant Restarts(f, n, start[..], step[..], rq, konvge, kcount, Snap(p, y), del, jcount, icount, numres) == target
      decreases kcount + 2 * n + 1 - icount
    {
      ghost var rd := Round(f, n, start[..], step[..], del, rq, konvge, kcount, Snap(p, y), jcount, icount);
      var ynewlo, done, ifault;
      ynewlo, done, ifault, jcount, icount := RoundInPlace(f, n, start, step, rq, konvge, kcount, p, y, xmin,
                                                           del, jcount, icount);
      assert Ending(xmin[..], ynewlo, done, ifault, icount) == rd.e && Snap(p, y) == rd.s && jcount == rd.jcount;
      if done {
        return Optimum(xmin[..], ynewlo, icount, numres, ifault);
      }
      ghost var s1 := Snap(p, y);
      Restart(start, xmin);
      assert start[..] == rd.e.xmin && Snap(p, y) == s1;
      del := EPS;
      numres := numres + 1;
    }
  }

  /** The restart: the probe point in xmin becomes the new start. */
  method Restart(start: array<real>, xmin: array<real>)
    requires start.Length == xmin.Length && start != xmin
    modifies start
    ensures start[..] == xmin[..]
  {
    for i := 0 to start.Length
      invariant forall r :: 0 <= r < i ==> start[r] == xmin[r]
    {
      start[i] := xmin[i];
    }
  }

  /**
   * nelmin: minimizes f from start with initial steps step, as Minimize
   * says, and so with every property MinimizeFacts proves. Invalid
   * parameters give fault 1 and zeros. The work arrays are allocated here;
   * colN and yN are the contents of the never-built column n of p and of
   * y[n].
   */
  method Nelmin(f: Objective, n: nat, start: array<real>, reqmin: real, step: array<real>, konvge: int, kcount: nat,
                colN: seq<real>, yN: real)
    returns (opt: Optimum)
    requires start.Length == n == step.Length && |colN| == n && start != step
    requires n != VARS
    modifies start
    ensures (opt, start[..]) == Minimize(f, n, old(start[..]), reqmin, step[..], konvge, kcount, colN, yN)
    ensures opt.ifault == 0 || opt.ifault == 1 || opt.ifault == 2
    ensures opt.ifault == 1 <==> !ValidInput(reqmin, n, konvge)
    ensures opt.ifault == 1 ==> opt == Optimum(Zeros(n), 0.0, 0, 0, 1) && start[..] == old(start[..])
    ensures opt.ifault != 1 ==>
      && |opt.xmin| == n && opt.icount > n
      && (opt.ynewlo == f(opt.xmin) || (opt.xmin == colN && opt.ynewlo == yN))
    ensures opt.ifault == 2 ==> kcount < opt.icount
    ensures opt.ifault == 0 ==> opt.icount <= kcount + 2 * n && LocalMinimum(f, opt.xmin, step[..], opt.ynewlo)
    ensures opt.numres == 0 ==> start[..] == old(start[..])
    ensures opt.numres > 0 ==> exists c, k :: |c| == n && 0 <= k < n && AxisProbe(start[..], c, step[..], k)
  {
    ghost var s0 := start[..];
    if reqmin <= 0.0 || n < 1 || VARS < n || konvge < 1 {
      opt := Optimum(Zeros(n), 0.0, 0, 0, 1);
    } else {
      opt := Search(f, n, start, reqmin, step, konvge as nat, kcount, colN, yN);
    }
    MinimizeFacts(f, n, s0, reqmin, step[..], konvge, kcount, colN, yN);
  }

  /**
   * nelmin past its parameter checks: the work arrays are allocated, rq is
   * reqmin * n, and the restart loop runs from del = 1 and jcount = konvge.
   */
  method Search(f: Objective, n: nat, start: array<real>, reqmin: real, step: array<real>, konvge: nat, kcount: nat,
                colN: seq<real>, yN: real)
    returns (opt: Optimum)
    requires 1 <= n && start.Length == n == step.Length && |colN| == n && start != step && 1 <= konvge
    modifies start
    ensures (opt, start[..]) == Restarts(f, n, old(start[..]), step[..], reqmin * (n as real), konvge, kcount,
                                         Unbuilt(n, colN, yN), 1.0, konvge, 0, 0)
  {
    var rq := reqmin * (n as real);
    var p, y := WorkArrays(n, colN, yN);
    var xmin := new real[n];
    ghost var s0 := Snap(p, y);
    assert s0 == Unbuilt(n, colN, yN);
    opt := RestartLoop(f, n, start, step, rq, konvge, kcount, p, y, xmin);
  }

  /**
   * The work arrays p[n][n + 2] and y[n + 2] as nelmin finds them: only
   * column n of p and y[n] are read before they are written, and they hold
   * colN and yN; the rest is shown as zeros.
   */
  method WorkArrays(n: nat, colN: seq<real>, yN: real) returns (p: array2<real>, y: array<real>)
    requires |colN| == n
    ensures fresh(p) && fresh(y) && p.Length0 == n && p.Length1 == n + 2 == y.Length
    ensures Snap(p, y) == Unbuilt(n, colN, yN)
  {
    p := new real[n, n + 2]((i, j) => 0.0);
    y := new real[n + 2](j => 0.0);
    StoreColumn(p, n, colN);
    y[n] := yN;
    ghost var u := Unbuilt(n, colN, yN);
    forall j | 0 <= j < n + 2
      ensures Cols(p)[j] == u.cols[j]
    {
      if j != n {
        assert forall i :: 0 <= i < n ==> Column(p, j)[i] == 0.0;
      }
    }
    assert y[..] == u.ys;
  }
}
