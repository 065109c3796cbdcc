/**
 * The wavefunction container: a grid-points x states amplitude array that is
 * overwritten in place and never replaced, and the spectral transform pair that
 * moves it between position space and momentum space along the grid axis.
 */
module Wavefunction {

  /** An amplitude table as a value: row i holds the amplitudes of grid point i. */
  type Table = seq<seq<real>>

  /** `m` has `g` rows (grid points) of `s` entries (states) each. */
  ghost predicate Shaped(m: Table, g: nat, s: nat) {
    |m| == g && forall i :: 0 <= i < g ==> |m[i]| == s
  }

  /** Column j of a table: the amplitudes of state j over the whole grid. */
  function Column(m: Table, g: nat, s: nat, j: nat): (c: seq<real>)
    requires Shaped(m, g, s) && j < s
    ensures |c| == g
    ensures forall i :: 0 <= i < g ==> c[i] == m[i][j]
  {
    seq(g, i requires 0 <= i < g => m[i][j])
  }

  /** Two tables of the same shape are equal when they agree entry by entry. */
  lemma TableExtensionality(m1: Table, m2: Table, g: nat, s: nat)
    requires Shaped(m1, g, s) && Shaped(m2, g, s)
    requires forall i, j :: 0 <= i < g && 0 <= j < s ==> m1[i][j] == m2[i][j]
    ensures m1 == m2
  {
    forall i | 0 <= i < g ensures m1[i] == m2[i] {
      assert |m1[i]| == |m2[i]| == s;
    }
  }

  /** A transform along the grid axis maps grid columns to grid columns. */
  ghost predicate PreservesLength(f: seq<real> -> seq<real>, g: nat) {
    forall x {:trigger f(x)} :: |x| == g ==> |f(x)| == g
  }

  /**
   * The FFT pair of the container, kept abstract: `forward` takes one column
   * from position space to momentum space, `backward` takes it back.
   */
  datatype SpectralPair = SpectralPair(forward: seq<real> -> seq<real>, backward: seq<real> -> seq<real>)

  /** The two transforms preserve the grid length and undo each other. */
  ghost predicate InversePair(p: SpectralPair, g: nat) {
    && PreservesLength(p.forward, g)
    && PreservesLength(p.backward, g)
    && (forall x {:trigger p.forward(x)} :: |x| == g ==> p.backward(p.forward(x)) == x)
    && (forall x {:trigger p.backward(x)} :: |x| == g ==> p.forward(p.backward(x)) == x)
  }

  /** Apply `f` to every state column independently (the transform acts along the grid axis only). */
  function MapColumns(m: Table, g: nat, s: nat, f: seq<real> -> seq<real>): (r: Table)
    requires Shaped(m, g, s) && PreservesLength(f, g)
    ensures Shaped(r, g, s)
    ensures forall j :: 0 <= j < s ==> Column(r, g, s, j) == f(Column(m, g, s, j))
  {
    seq(g, i requires 0 <= i < g => seq(s, j requires 0 <= j < s => f(Column(m, g, s, j))[i]))
  }

  /** The whole table in momentum space. */
  function ToMomentum(m: Table, g: nat, s: nat, p: SpectralPair): (r: Table)
    requires Shaped(m, g, s) && InversePair(p, g)
    ensures Shaped(r, g, s)
    ensures forall j :: 0 <= j < s ==> Column(r, g, s, j) == p.forward(Column(m, g, s, j))
  {
    MapColumns(m, g, s, p.forward)
  }

  /** The whole table back in position space. */
  function ToPosition(m: Table, g: nat, s: nat, p: SpectralPair): (r: Table)
    requires Shaped(m, g, s) && InversePair(p, g)
    ensures Shaped(r, g, s)
    ensures forall j :: 0 <= j < s ==> Column(r, g, s, j) == p.backward(Column(m, g, s, j))
  {
    MapColumns(m, g, s, p.backward)
  }

  /** Mapping the columns by f and then by an inverse h of f gives the table back. */
  lemma MapColumnsUndone(m: Table, g: nat, s: nat, f: seq<real> -> seq<real>, h: seq<real> -> seq<real>)
    requires Shaped(m, g, s) && PreservesLength(f, g) && PreservesLength(h, g)
    requires forall x {:trigger f(x)} :: |x| == g ==> h(f(x)) == x
    ensures MapColumns(MapColumns(m, g, s, f), g, s, h) == m
  {
    var k := MapColumns(m, g, s, f);
    var r := MapColumns(k, g, s, h);
    forall i, j | 0 <= i < g && 0 <= j < s ensures r[i][j] == m[i][j] {
      calc {
        r[i][j];
        Column(r, g, s, j)[i];
        h(Column(k, g, s, j))[i];
        h(f(Column(m, g, s, j)))[i];
        Column(m, g, s, j)[i];
      }
    }
    TableExtensionality(r, m, g, s);
  }

  /** Transform round trip: back to position space after momentum space is the identity. */
  lemma PositionAfterMomentum(m: Table, g: nat, s: nat, p: SpectralPair)
    requires Shaped(m, g, s) && InversePair(p, g)
    ensures ToPosition(ToMomentum(m, g, s, p), g, s, p) == m
  {
    MapColumnsUndone(m, g, s, p.forward, p.backward);
  }

  /** And the other way round. */
  lemma MomentumAfterPosition(m: Table, g: nat, s: nat, p: SpectralPair)
    requires Shaped(m, g, s) && InversePair(p, g)
    ensures ToMomentum(ToPosition(m, g, s, p), g, s, p) == m
  {
    MapColumnsUndone(m, g, s, p.backward, p.forward);
  }

  /** The current contents of a two-dimensional array, as a table. */
  ghost function Snapshot(a: array2<real>): (m: Table)
    reads a
    ensures Shaped(m, a.Length0, a.Length1)
    ensures forall i, j :: 0 <= i < a.Length0 && 0 <= j < a.Length1 ==> m[i][j] == a[i, j]
  {
    seq(a.Length0, i requires 0 <= i < a.Length0 reads a =>
      seq(a.Length1, j requires 0 <= j < a.Length1 reads a => a[i, j]))
  }

  /**
   * The wavefunction holder. Its array is a `const` field: like scatterxct's
   * frozen dataclass, the reference cannot be rebound, so every update writes
   * into the same storage.
   */
  class WaveFunctionData {
    const psi: array2<real>
    const transform: SpectralPair

    constructor (psi: array2<real>, transform: SpectralPair)
      requires InversePair(transform, psi.Length0)
      ensures this.psi == psi && this.transform == transform
      ensures Valid()
    {
      this.psi := psi;
      this.transform := transform;
    }

    /** Number of grid points. */
    function Grid(): nat { psi.Length0 }

    /** Number of electronic states. */
    function States(): nat { psi.Length1 }

    ghost predicate Valid() {
      InversePair(transform, psi.Length0)
    }

    /** The amplitudes currently stored. */
    ghost function Value(): (m: Table)
      reads psi
      ensures Shaped(m, Grid(), States())
    {
      Snapshot(psi)
    }

    /** Overwrite column j of the array with `col`, leaving the other columns alone. */
    method WriteColumn(j: nat, col: seq<real>)
      requires j < States() && |col| == Grid()
      modifies psi
      ensures forall a, b :: 0 <= a < Grid() && 0 <= b < States() ==>
        psi[a, b] == if b == j then col[a] else old(psi[a, b])
    {
      var i := 0;
      while i < psi.Length0
        invariant 0 <= i <= psi.Length0
        invariant forall a, b :: 0 <= a < Grid() && 0 <= b < States() ==>
          psi[a, b] == if b == j && a < i then col[a] else old(psi[a, b])
      {
        psi[i, j] := col[i];
        i := i + 1;
      }
    }

    /** Overwrite every state column c of the array with f(c). */
    method TransformColumns(f: seq<real> -> seq<real>)
      requires PreservesLength(f, Grid())
      modifies psi
      ensures Value() == MapColumns(old(Value()), Grid(), States(), f)
    {
      ghost var m := Value();
      var g, s := psi.Length0, psi.Length1;
      ghost var r := MapColumns(m, g, s, f);
      var j := 0;
      while j < s
        invariant 0 <= j <= s
        invariant forall a, b :: 0 <= a < g && 0 <= b < s ==> psi[a, b] == if b < j then r[a][b] else m[a][b]
      {
        var col := seq(g, a requires 0 <= a < g reads psi => psi[a, j]);
        assert col == Column(m, g, s, j);
        var k := f(col);
        assert Column(r, g, s, j) == k;
        WriteColumn(j, k);
        j := j + 1;
      }
      TableExtensionality(Value(), r, g, s);
    }

    /** In place: position space to momentum space. */
    method RealSpaceToKSpace()
      requires Valid()
      modifies psi
      ensures Value() == ToMomentum(old(Value()), Grid(), States(), transform)
    {
      TransformColumns(transform.forward);
    }

    /** In place: momentum space back to position space. */
    method KSpaceToRealSpace()
      requires Valid()
      modifies psi
      ensures Value() == ToPosition(old(Value()), Grid(), States(), transform)
    {
      TransformColumns(transform.backward);
    }
  }
}
