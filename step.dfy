/**
 * The split-operator stepper: the kinetic and potential elementary steps, which
 * overwrite the wavefunction array in place, their three fixed orderings, and
 * the dispatcher that fetches the propagators and advances the clock.
 */
module Step {
  import opened Results
  import opened Wavefunction
  import opened Propagators

  /** The three operator orderings, with values 1, 2 and 3. */
  datatype SplitOperatorType = PLAIN | TVT | VTV

  function Tag(op: SplitOperatorType): (t: int) {
    match op
    case PLAIN => 1
    case TVT => 2
    case VTV => 3
  }

  /**
   * Resolve the ordering passed to the stepper, given by its value; any other
   * value is rejected, as the final `else` of the dispatcher does.
   */
  function ParseSplitOperatorType(tag: int): (r: Result<SplitOperatorType>)
    ensures r.Success? <==> 1 <= tag <= 3
    ensures r.Success? ==> Tag(r.value) == tag
    ensures r.Failure? ==> r.error == UnknownSplitOperatorType(tag)
  {
    if tag == 1 then Success(PLAIN)
    else if tag == 2 then Success(TVT)
    else if tag == 3 then Success(VTV)
    else Failure(UnknownSplitOperatorType(tag))
  }

  /** Each ordering is recognised by its own value. */
  lemma ParseTag(op: SplitOperatorType)
    ensures ParseSplitOperatorType(Tag(op)) == Success(op)
  {
  }

  // ---------------------------------------------------------------------------
  // The elementary steps as functions on tables

  /** Row i multiplied by the scalar T[i] (the same factor for every state). */
  function ScaleRows(m: Table, g: nat, s: nat, T: seq<real>): (r: Table)
    requires Shaped(m, g, s) && |T| == g
    ensures Shaped(r, g, s)
    ensures forall i, j :: 0 <= i < g && 0 <= j < s ==> r[i][j] == T[i] * m[i][j]
  {
    seq(g, i requires 0 <= i < g => seq(s, j requires 0 <= j < s => T[i] * m[i][j]))
  }

  /** Kinetic step: to momentum space, scale row i by T[i], back to position space. */
  function KineticStep(m: Table, g: nat, s: nat, T: seq<real>, p: SpectralPair): (r: Table)
    requires Shaped(m, g, s) && |T| == g && InversePair(p, g)
    ensures Shaped(r, g, s)
    ensures ToMomentum(r, g, s, p) == ScaleRows(ToMomentum(m, g, s, p), g, s, T)
  {
    MomentumAfterPosition(ScaleRows(ToMomentum(m, g, s, p), g, s, T), g, s, p);
    ToPosition(ScaleRows(ToMomentum(m, g, s, p), g, s, T), g, s, p)
  }

  /** The sum over k < n of V[j][k][i] * row[k]: entry j of the matrix-vector product at grid point i. */
  function Dot(V: seq<seq<seq<real>>>, g: nat, row: seq<real>, i: nat, j: nat, n: nat): (sum: real)
    requires PotentialShaped(V, |row|, g) && i < g && j < |row| && n <= |row|
  {
    if n == 0 then 0.0 else Dot(V, g, row, i, j, n - 1) + V[j][n - 1][i] * row[n - 1]
  }

  /** Potential step: psi'[i][j] = sum over k of V[j][k][i] * psi[i][k], all from the old psi. */
  function PotentialStep(m: Table, g: nat, s: nat, V: seq<seq<seq<real>>>): (r: Table)
    requires Shaped(m, g, s) && PotentialShaped(V, s, g)
    ensures Shaped(r, g, s)
    ensures forall i, j :: 0 <= i < g && 0 <= j < s ==> r[i][j] == Dot(V, g, m[i], i, j, s)
  {
    seq(g, i requires 0 <= i < g => seq(s, j requires 0 <= j < s => Dot(V, g, m[i], i, j, s)))
  }

  /** PLAIN: kinetic(T), then potential(V). */
  function PlainStep(m: Table, g: nat, s: nat, T: seq<real>, V: seq<seq<seq<real>>>, p: SpectralPair): (r: Table)
    requires Shaped(m, g, s) && |T| == g && PotentialShaped(V, s, g) && InversePair(p, g)
    ensures Shaped(r, g, s)
    ensures r == PotentialStep(KineticStep(m, g, s, T, p), g, s, V)
  {
    PotentialStep(KineticStep(m, g, s, T, p), g, s, V)
  }

  /** TVT: kinetic(halfT), then potential(V), then kinetic(halfT). */
  function TVTStep(m: Table, g: nat, s: nat, halfT: seq<real>, V: seq<seq<seq<real>>>, p: SpectralPair): (r: Table)
    requires Shaped(m, g, s) && |halfT| == g && PotentialShaped(V, s, g) && InversePair(p, g)
    ensures Shaped(r, g, s)
    ensures r == KineticStep(PotentialStep(KineticStep(m, g, s, halfT, p), g, s, V), g, s, halfT, p)
  {
    KineticStep(PotentialStep(KineticStep(m, g, s, halfT, p), g, s, V), g, s, halfT, p)
  }

  /** VTV: potential(halfV), then kinetic(T), then potential(halfV). */
  function VTVStep(m: Table, g: nat, s: nat, T: seq<real>, halfV: seq<seq<seq<real>>>, p: SpectralPair): (r: Table)
    requires Shaped(m, g, s) && |T| == g && PotentialShaped(halfV, s, g) && InversePair(p, g)
    ensures Shaped(r, g, s)
    ensures r == PotentialStep(KineticStep(PotentialStep(m, g, s, halfV), g, s, T, p), g, s, halfV)
  {
    PotentialStep(KineticStep(PotentialStep(m, g, s, halfV), g, s, T, p), g, s, halfV)
  }

  // ---------------------------------------------------------------------------
  // Properties of the elementary steps

  /** The state-coupling matrix is the identity at every grid point. */
  ghost predicate IdentityPotential(V: seq<seq<seq<real>>>, s: nat, g: nat) {
    && PotentialShaped(V, s, g)
    && forall j, k, i :: 0 <= j < s && 0 <= k < s && 0 <= i < g ==> V[j][k][i] == if j == k then 1.0 else 0.0
  }

  /** Every kinetic factor is one. */
  ghost predicate UnitFactors(T: seq<real>) {
    forall i :: 0 <= i < |T| ==> T[i] == 1.0
  }

  /** The factorwise product of two kinetic propagators. */
  function Product(a: seq<real>, b: seq<real>): (r: seq<real>)
    requires |a| == |b|
    ensures |r| == |a|
  {
    seq(|a|, i requires 0 <= i < |a| => a[i] * b[i])
  }

  /** Scaling by all ones changes nothing. */
  lemma ScaleRowsByUnitFactors(m: Table, g: nat, s: nat, T: seq<real>)
    requires Shaped(m, g, s) && |T| == g && UnitFactors(T)
    ensures ScaleRows(m, g, s, T) == m
  {
    TableExtensionality(ScaleRows(m, g, s, T), m, g, s);
  }

  /** Scaling by a and then by b is scaling by their product. */
  lemma ScaleRowsTwice(m: Table, g: nat, s: nat, a: seq<real>, b: seq<real>)
    requires Shaped(m, g, s) && |a| == g && |b| == g
    ensures ScaleRows(ScaleRows(m, g, s, a), g, s, b) == ScaleRows(m, g, s, Product(a, b))
  {
    var lhs := ScaleRows(ScaleRows(m, g, s, a), g, s, b);
    var rhs := ScaleRows(m, g, s, Product(a, b));
    forall i, j | 0 <= i < g && 0 <= j < s ensures lhs[i][j] == rhs[i][j] {
      assert lhs[i][j] == b[i] * (a[i] * m[i][j]);
      assert rhs[i][j] == (a[i] * b[i]) * m[i][j];
    }
    TableExtensionality(lhs, rhs, g, s);
  }

  /** With every kinetic factor one, the kinetic step leaves psi unchanged. */
  lemma KineticWithUnitFactorsIsIdentity(m: Table, g: nat, s: nat, T: seq<real>, p: SpectralPair)
    requires Shaped(m, g, s) && |T| == g && InversePair(p, g) && UnitFactors(T)
    ensures KineticStep(m, g, s, T, p) == m
  {
    ScaleRowsByUnitFactors(ToMomentum(m, g, s, p), g, s, T);
    PositionAfterMomentum(m, g, s, p);
  }

  /**
   * Seen in momentum space, the kinetic step multiplies every entry of row i by
   * the same factor T[i], for every state j.
   */
  lemma KineticScalesInMomentumSpace(m: Table, g: nat, s: nat, T: seq<real>, p: SpectralPair)
    requires Shaped(m, g, s) && |T| == g && InversePair(p, g)
    ensures ToMomentum(KineticStep(m, g, s, T, p), g, s, p) == ScaleRows(ToMomentum(m, g, s, p), g, s, T)
    ensures forall i, j :: 0 <= i < g && 0 <= j < s ==>
      ToMomentum(KineticStep(m, g, s, T, p), g, s, p)[i][j] == T[i] * ToMomentum(m, g, s, p)[i][j]
  {
    MomentumAfterPosition(ScaleRows(ToMomentum(m, g, s, p), g, s, T), g, s, p);
  }

  /** Two kinetic steps are one kinetic step by the product of their factors. */
  lemma KineticStepsCompose(m: Table, g: nat, s: nat, a: seq<real>, b: seq<real>, p: SpectralPair)
    requires Shaped(m, g, s) && |a| == g && |b| == g && InversePair(p, g)
    ensures KineticStep(KineticStep(m, g, s, a, p), g, s, b, p) == KineticStep(m, g, s, Product(a, b), p)
  {
    var k := ScaleRows(ToMomentum(m, g, s, p), g, s, a);
    MomentumAfterPosition(k, g, s, p);
    ScaleRowsTwice(ToMomentum(m, g, s, p), g, s, a, b);
  }

  /** Against the identity matrix, the product picks out entry j of the row. */
  lemma {:induction false} DotWithIdentity(V: seq<seq<seq<real>>>, g: nat, row: seq<real>, i: nat, j: nat, n: nat)
    requires IdentityPotential(V, |row|, g) && i < g && j < |row| && n <= |row|
    ensures Dot(V, g, row, i, j, n) == if j < n then row[j] else 0.0
  {
    if n > 0 {
      DotWithIdentity(V, g, row, i, j, n - 1);
    }
  }

  /** With the identity at every grid point, the potential step leaves psi unchanged. */
  lemma PotentialWithIdentityIsIdentity(m: Table, g: nat, s: nat, V: seq<seq<seq<real>>>)
    requires Shaped(m, g, s) && IdentityPotential(V, s, g)
    ensures PotentialStep(m, g, s, V) == m
  {
    var r := PotentialStep(m, g, s, V);
    forall i, j | 0 <= i < g && 0 <= j < s ensures r[i][j] == m[i][j] {
      DotWithIdentity(V, g, m[i], i, j, s);
    }
    TableExtensionality(r, m, g, s);
  }

  /** The product at grid point i reads only row i and the matrices at point i. */
  lemma {:induction false} DotIsLocal(V1: seq<seq<seq<real>>>, V2: seq<seq<seq<real>>>, g: nat,
                                      row: seq<real>, i: nat, j: nat, n: nat)
    requires PotentialShaped(V1, |row|, g) && PotentialShaped(V2, |row|, g)
    requires i < g && j < |row| && n <= |row|
    requires forall k :: 0 <= k < |row| ==> V1[j][k][i] == V2[j][k][i]
    ensures Dot(V1, g, row, i, j, n) == Dot(V2, g, row, i, j, n)
  {
    if n > 0 {
      DotIsLocal(V1, V2, g, row, i, j, n - 1);
    }
  }

  /**
   * The potential step is local: row i of the result depends only on row i of
   * psi and on the matrix V[.][.][i] of that grid point.
   */
  lemma PotentialIsLocal(m1: Table, m2: Table, g: nat, s: nat, V1: seq<seq<seq<real>>>, V2: seq<seq<seq<real>>>, i: nat)
    requires Shaped(m1, g, s) && Shaped(m2, g, s) && PotentialShaped(V1, s, g) && PotentialShaped(V2, s, g)
    requires i < g && m1[i] == m2[i]
    requires forall j, k :: 0 <= j < s && 0 <= k < s ==> V1[j][k][i] == V2[j][k][i]
    ensures PotentialStep(m1, g, s, V1)[i] == PotentialStep(m2, g, s, V2)[i]
  {
    forall j | 0 <= j < s
      ensures PotentialStep(m1, g, s, V1)[i][j] == PotentialStep(m2, g, s, V2)[i][j]
    {
      DotIsLocal(V1, V2, g, m1[i], i, j, s);
    }
  }

  // ---------------------------------------------------------------------------
  // Properties of the orderings

  /** PLAIN with the identity potential is, in momentum space, only the row scaling by T. */
  lemma PlainFreeParticleInMomentumSpace(m: Table, g: nat, s: nat, T: seq<real>, V: seq<seq<seq<real>>>, p: SpectralPair)
    requires Shaped(m, g, s) && |T| == g && IdentityPotential(V, s, g) && InversePair(p, g)
    ensures ToMomentum(PlainStep(m, g, s, T, V, p), g, s, p) == ScaleRows(ToMomentum(m, g, s, p), g, s, T)
  {
    PotentialWithIdentityIsIdentity(KineticStep(m, g, s, T, p), g, s, V);
    KineticScalesInMomentumSpace(m, g, s, T, p);
  }

  /** TVT with the identity potential is one kinetic step by the square of the half-step factors. */
  lemma TVTWithIdentityPotential(m: Table, g: nat, s: nat, halfT: seq<real>, V: seq<seq<seq<real>>>, p: SpectralPair)
    requires Shaped(m, g, s) && |halfT| == g && IdentityPotential(V, s, g) && InversePair(p, g)
    ensures TVTStep(m, g, s, halfT, V, p) == KineticStep(m, g, s, Product(halfT, halfT), p)
  {
    PotentialWithIdentityIsIdentity(KineticStep(m, g, s, halfT, p), g, s, V);
    KineticStepsCompose(m, g, s, halfT, halfT, p);
  }

  /** VTV with unit kinetic factors is the half potential step applied twice. */
  lemma VTVWithUnitKinetic(m: Table, g: nat, s: nat, T: seq<real>, halfV: seq<seq<seq<real>>>, p: SpectralPair)
    requires Shaped(m, g, s) && |T| == g && UnitFactors(T) && PotentialShaped(halfV, s, g) && InversePair(p, g)
    ensures VTVStep(m, g, s, T, halfV, p) == PotentialStep(PotentialStep(m, g, s, halfV), g, s, halfV)
  {
    KineticWithUnitFactorsIsIdentity(PotentialStep(m, g, s, halfV), g, s, T, p);
  }

  // ---------------------------------------------------------------------------
  // The in-place steps

  /** Multiply row i of the array by c in place (one grid point, every state). */
  method ScaleRowInPlace(a: array2<real>, i: nat, c: real)
    requires i < a.Length0
    modifies a
    ensures forall x, y :: 0 <= x < a.Length0 && 0 <= y < a.Length1 ==>
      a[x, y] == if x == i then old(a[x, y]) * c else old(a[x, y])
  {
    var j := 0;
    while j < a.Length1
      invariant 0 <= j <= a.Length1
      invariant forall x, y :: 0 <= x < a.Length0 && 0 <= y < a.Length1 ==>
        a[x, y] == if x == i && y < j then old(a[x, y]) * c else old(a[x, y])
    {
      a[i, j] := a[i, j] * c;
      j := j + 1;
    }
  }

  /** The broadcast `psi *= T[:, newaxis]`: row i of the array multiplied by T[i], in place. */
  method ScaleRowsInPlace(a: array2<real>, T: seq<real>)
    requires |T| == a.Length0
    modifies a
    ensures Snapshot(a) == ScaleRows(old(Snapshot(a)), a.Length0, a.Length1, T)
  {
    ghost var k := Snapshot(a);
    var i := 0;
    while i < a.Length0
      invariant 0 <= i <= a.Length0
      invariant forall x, y :: 0 <= x < a.Length0 && 0 <= y < a.Length1 ==>
        a[x, y] == if x < i then k[x][y] * T[x] else k[x][y]
    {
      ScaleRowInPlace(a, i, T[i]);
      i := i + 1;
    }
    TableExtensionality(Snapshot(a), ScaleRows(k, a.Length0, a.Length1, T), a.Length0, a.Length1);
  }

  /**
   * Transform to k-space, scale row i by T[i] in place, transform back. The
   * same container (and array) is returned.
   */
  method KineticPropagate(data: WaveFunctionData, T: seq<real>) returns (result: WaveFunctionData)
    requires data.Valid() && |T| == data.Grid()
    modifies data.psi
    ensures result == data
    ensures data.Value() == KineticStep(old(data.Value()), data.Grid(), data.States(), T, data.transform)
  {
    data.RealSpaceToKSpace();
    ScaleRowsInPlace(data.psi, T);
    data.KSpaceToRealSpace();
    result := data;
  }

  /** Entry j of the coupling matrix at grid point i times the state vector of that point. */
  method CoupledAmplitude(a: array2<real>, V: seq<seq<seq<real>>>, i: nat, j: nat) returns (acc: real)
    requires PotentialShaped(V, a.Length1, a.Length0) && i < a.Length0 && j < a.Length1
    ensures acc == Dot(V, a.Length0, Snapshot(a)[i], i, j, a.Length1)
  {
    ghost var row := Snapshot(a)[i];
    acc := 0.0;
    var k := 0;
    while k < a.Length1
      invariant 0 <= k <= a.Length1
      invariant acc == Dot(V, a.Length0, row, i, j, k)
    {
      acc := acc + V[j][k][i] * a[i, k];
      k := k + 1;
    }
  }

  /** The einsum "jki,ik->ij" into a new array: output[i, j] = sum over k of V[j][k][i] * a[i, k]. */
  method CoupleStates(a: array2<real>, V: seq<seq<seq<real>>>) returns (output: array2<real>)
    requires PotentialShaped(V, a.Length1, a.Length0)
    ensures fresh(output) && output.Length0 == a.Length0 && output.Length1 == a.Length1
    ensures Snapshot(output) == PotentialStep(Snapshot(a), a.Length0, a.Length1, V)
  {
    var g, s := a.Length0, a.Length1;
    ghost var r := PotentialStep(Snapshot(a), g, s, V);
    output := new real[g, s];
    var i := 0;
    while i < g
      modifies output
      invariant 0 <= i <= g
      invariant forall x, y :: 0 <= x < i && 0 <= y < s ==> output[x, y] == r[x][y]
    {
      var j := 0;
      while j < s
        modifies output
        invariant 0 <= j <= s
        invariant forall x, y :: 0 <= x < g && 0 <= y < s && (x < i || (x == i && y < j)) ==> output[x, y] == r[x][y]
      {
        output[i, j] := CoupledAmplitude(a, V, i, j);
        j := j + 1;
      }
      i := i + 1;
    }
    TableExtensionality(Snapshot(output), r, g, s);
  }

  /** The slice assignment `dst[:] = src`: every element of dst overwritten, dst itself kept. */
  method Overwrite(dst: array2<real>, src: array2<real>)
    requires dst != src && dst.Length0 == src.Length0 && dst.Length1 == src.Length1
    modifies dst
    ensures Snapshot(dst) == Snapshot(src)
  {
    var i := 0;
    while i < dst.Length0
      invariant 0 <= i <= dst.Length0
      invariant forall x, y :: 0 <= x < i && 0 <= y < dst.Length1 ==> dst[x, y] == src[x, y]
    {
      var j := 0;
      while j < dst.Length1
        invariant 0 <= j <= dst.Length1
        invariant forall x, y :: 0 <= x < dst.Length0 && 0 <= y < dst.Length1 && (x < i || (x == i && y < j)) ==> dst[x, y] == src[x, y]
      {
        dst[i, j] := src[i, j];
        j := j + 1;
      }
      i := i + 1;
    }
    TableExtensionality(Snapshot(dst), Snapshot(src), dst.Length0, dst.Length1);
  }

  /**
   * At each grid point, the matrix-vector product of that point's coupling
   * matrix with the point's state vector, computed in full into a temporary
   * array and then copied over psi.
   */
  method PotentialPropagate(data: WaveFunctionData, V: seq<seq<seq<real>>>) returns (result: WaveFunctionData)
    requires PotentialShaped(V, data.States(), data.Grid())
    modifies data.psi
    ensures result == data
    ensures data.Value() == PotentialStep(old(data.Value()), data.Grid(), data.States(), V)
  {
    var output := CoupleStates(data.psi, V);
    Overwrite(data.psi, output);
    result := data;
  }

  method PlainPropagate(data: WaveFunctionData, T: seq<real>, V: seq<seq<seq<real>>>) returns (result: WaveFunctionData)
    requires data.Valid() && |T| == data.Grid() && PotentialShaped(V, data.States(), data.Grid())
    modifies data.psi
    ensures result == data
    ensures data.Value() == PlainStep(old(data.Value()), data.Grid(), data.States(), T, V, data.transform)
  {
    result := KineticPropagate(data, T);
    result := PotentialPropagate(result, V);
  }

  method TVTPropagate(data: WaveFunctionData, halfT: seq<real>, V: seq<seq<seq<real>>>) returns (result: WaveFunctionData)
    requires data.Valid() && |halfT| == data.Grid() && PotentialShaped(V, data.States(), data.Grid())
    modifies data.psi
    ensures result == data
    ensures data.Value() == TVTStep(old(data.Value()), data.Grid(), data.States(), halfT, V, data.transform)
  {
    result := KineticPropagate(data, halfT);
    result := PotentialPropagate(result, V);
    result := KineticPropagate(result, halfT);
  }

  method VTVPropagate(data: WaveFunctionData, T: seq<real>, halfV: seq<seq<seq<real>>>) returns (result: WaveFunctionData)
    requires data.Valid() && |T| == data.Grid() && PotentialShaped(halfV, data.States(), data.Grid())
    modifies data.psi
    ensures result == data
    ensures data.Value() == VTVStep(old(data.Value()), data.Grid(), data.States(), T, halfV, data.transform)
  {
    result := PotentialPropagate(data, halfV);
    result := KineticPropagate(result, T);
    result := PotentialPropagate(result, halfV);
  }

  /**
   * One timestep. The ordering is given by its value (PLAIN by default); the propagators are all
   * fetched at the input `time`, before it is advanced by `dt`; the wavefunction
   * is updated in place and returned with the new time. An unknown ordering
   * fails before anything is fetched or written.
   */
  method Propagate(time: real, data: WaveFunctionData, propagator: Propagator, splitOperatorType: int := 1)
    returns (r: Result<(real, WaveFunctionData)>)
    requires data.Valid() && propagator.Valid()
    requires propagator.ngrid == data.Grid() && propagator.nstates == data.States()
    modifies data.psi, propagator`fetched
    ensures r.Success? <==> 1 <= splitOperatorType <= 3
    ensures r.Success? ==> r.value == (time + propagator.dt, data)
    ensures r.Failure? ==> r.error == UnknownSplitOperatorType(splitOperatorType)
    ensures r.Failure? ==> unchanged(data.psi) && propagator.fetched == old(propagator.fetched)
    ensures splitOperatorType == 1 ==>
      && data.Value() == PlainStep(old(data.Value()), data.Grid(), data.States(),
                                   propagator.kineticAt(time), propagator.potentialAt(time), data.transform)
      && propagator.fetched == old(propagator.fetched) + [(KineticFull, time), (PotentialFull, time)]
    ensures splitOperatorType == 2 ==>
      && data.Value() == TVTStep(old(data.Value()), data.Grid(), data.States(),
                                 propagator.halfKineticAt(time), propagator.potentialAt(time), data.transform)
      && propagator.fetched == old(propagator.fetched) + [(KineticHalf, time), (PotentialFull, time)]
    ensures splitOperatorType == 3 ==>
      && data.Value() == VTVStep(old(data.Value()), data.Grid(), data.States(),
                                 propagator.kineticAt(time), propagator.halfPotentialAt(time), data.transform)
      && propagator.fetched == old(propagator.fetched) + [(KineticFull, time), (PotentialHalf, time)]
  {
    var op := ParseSplitOperatorType(splitOperatorType);
    if op == Success(PLAIN) {
      var T := propagator.GetTPropagator(time);
      var V := propagator.GetVPropagator(time);
      var newTime := time + propagator.dt;
      var out := PlainPropagate(data, T, V);
      r := Success((newTime, out));
    } else if op == Success(TVT) {
      var halfT := propagator.GetHalfTPropagator(time);
      var V := propagator.GetVPropagator(time);
      var newTime := time + propagator.dt;
      var out := TVTPropagate(data, halfT, V);
      r := Success((newTime, out));
    } else if op == Success(VTV) {
      var T := propagator.GetTPropagator(time);
      var halfV := propagator.GetHalfVPropagator(time);
      var newTime := time + propagator.dt;
      var out := VTVPropagate(data, T, halfV);
      r := Success((newTime, out));
    } else {
      r := Failure(UnknownSplitOperatorType(splitOperatorType));
    }
  }
}
