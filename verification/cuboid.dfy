/** `Physical::Cuboid`: weight and dimensions normalised at construction, and
    the volume derived from the dimensions.

    Two behaviours of the constructor and of `volume` are kept as written:
    entries added by padding keep the caller's dimension unit (they are not
    converted to centimetres), and `volume` multiplies the bare magnitudes,
    whatever unit each entry carries. */
module Cuboids {
  import opened Wrappers
  import opened Units

  /** A dimension list of a constructed cuboid: padding guarantees at least
      three entries (exactly three unless more were supplied). */
  type Dimensions = ds: seq<Length> | 3 <= |ds|
    witness [Length(0.0, Cm), Length(0.0, Cm), Length(0.0, Cm)]

  datatype Cuboid = Cuboid(dimensions: Dimensions, weight: Weight)

  /** Each supplied magnitude, read in `u` and converted to centimetres. */
  function ToCentimetres(mags: seq<real>, u: LenUnit): (r: seq<Length>)
    ensures |r| == |mags|
    ensures forall i :: 0 <= i < |r| ==> r[i].unit == Cm && SameLength(r[i], Length(mags[i], u))
  {
    seq(|mags|, i requires 0 <= i < |mags| => ConvertLength(Length(mags[i], u), Cm))
  }

  /** Array#fill(filler, length..2): writes `filler` at every index from the
      current length up to 2, so a list of three or more is left alone. */
  function Pad(ds: seq<Length>, filler: Length): (r: Dimensions)
    ensures |r| == if |ds| < 3 then 3 else |ds|
    ensures r[..|ds|] == ds
    ensures forall i :: |ds| <= i < |r| ==> r[i] == filler
    decreases 3 - |ds|
  {
    if 3 <= |ds| then ds else Pad(ds + [filler], filler)
  }

  /** `Cuboid.new(dimensions:, dimension_unit:, weight:, weight_unit:)`, where
      `defaultLength` is the subclass's `DEFAULT_LENGTH`. */
  function Make(dims: seq<real>, dimUnit: LenUnit, weight: real, weightUnit: WtUnit,
                defaultLength: real): (c: Cuboid)
    ensures c.weight.unit == G
    ensures Grams(c.weight) == weight * GramsPer(weightUnit)
    ensures |c.dimensions| == if |dims| < 3 then 3 else |dims|
    ensures forall i :: 0 <= i < |dims| ==>
              c.dimensions[i].unit == Cm && c.dimensions[i].magnitude == dims[i] * CmPer(dimUnit)
    ensures forall i :: |dims| <= i < |c.dimensions| ==>
              c.dimensions[i] == Length(defaultLength, dimUnit)
  {
    var supplied := ToCentimetres(dims, dimUnit);
    var padded := Pad(supplied, Length(defaultLength, dimUnit));
    assert forall i :: 0 <= i < |dims| ==> padded[i] == padded[..|dims|][i];
    Cuboid(padded, ConvertWeight(Weight(weight, weightUnit), G))
  }

  /** `new` of a subclass that defines `DEFAULT_LENGTH`, with every argument
      left at its default. */
  lemma DefaultCuboid(defaultLength: real)
    ensures Make([], Cm, 0.0, G, defaultLength)
         == Cuboid([Length(defaultLength, Cm), Length(defaultLength, Cm), Length(defaultLength, Cm)],
                   Weight(0.0, G))
  {
    var c := Make([], Cm, 0.0, G, defaultLength);
    assert c.weight.magnitude * 1.0 == 0.0;
  }

  /** The reference product of the magnitudes (1 for the empty list). */
  function Product(ds: seq<Length>): real {
    if |ds| == 0 then 1.0 else ds[0].magnitude * Product(ds[1..])
  }

  /** The left fold of `reduce(&:*)` over the magnitudes after the first. */
  function FoldTimes(acc: real, ds: seq<Length>): real
    decreases |ds|
  {
    if |ds| == 0 then acc else FoldTimes(acc * ds[0].magnitude, ds[1..])
  }

  /** `map(&:value).reduce(&:*)`: nil on an empty list. */
  function Reduce(ds: seq<Length>): (r: Option<real>)
    ensures r.None? <==> |ds| == 0
  {
    if |ds| == 0 then None else Some(FoldTimes(ds[0].magnitude, ds[1..]))
  }

  lemma {:induction false} FoldTimesIsProduct(acc: real, ds: seq<Length>)
    ensures FoldTimes(acc, ds) == acc * Product(ds)
    decreases |ds|
  {
    if |ds| > 0 {
      FoldTimesIsProduct(acc * ds[0].magnitude, ds[1..]);
    }
  }

  /** `volume` applied to a dimension list: the product of the magnitudes,
      labelled millilitres. */
  function ProductVolume(ds: Dimensions): (v: Volume)
    ensures v.millilitres == Product(ds)
    ensures |ds| == 3 ==> v.millilitres == ds[0].magnitude * ds[1].magnitude * ds[2].magnitude
  {
    FoldTimesIsProduct(ds[0].magnitude, ds[1..]);
    assert |ds| == 3 ==> Product(ds[2..]) == ds[2].magnitude by {
      if |ds| == 3 {
        assert ds[2..][1..] == [];
      }
    }
    assert Product(ds) == ds[0].magnitude * (ds[1].magnitude * Product(ds[2..])) by {
      assert ds[1..][1..] == ds[2..];
    }
    Volume(Reduce(ds).value)
  }

  /** `Cuboid#volume`. */
  function VolumeOf(c: Cuboid): (v: Volume)
    ensures v.millilitres == Product(c.dimensions)
    ensures |c.dimensions| == 3 ==>
              v.millilitres == c.dimensions[0].magnitude * c.dimensions[1].magnitude * c.dimensions[2].magnitude
  {
    ProductVolume(c.dimensions)
  }

  /* ---------- properties of the product ---------- */

  lemma {:induction false} ProductConcat(a: seq<Length>, b: seq<Length>)
    ensures Product(a + b) == Product(a) * Product(b)
    decreases |a|
  {
    if |a| == 0 {
      assert a + b == b;
    } else {
      assert (a + b)[1..] == a[1..] + b;
      ProductConcat(a[1..], b);
      calc {
        Product(a + b);
        a[0].magnitude * Product(a[1..] + b);
        a[0].magnitude * (Product(a[1..]) * Product(b));
        (a[0].magnitude * Product(a[1..])) * Product(b);
      }
    }
  }

  /** Taking entry `k` out of the list divides it out of the product. */
  lemma {:induction false} ProductRemoveAt(b: seq<Length>, k: nat)
    requires k < |b|
    ensures Product(b) == b[k].magnitude * Product(b[..k] + b[k + 1..])
  {
    var x, front, back := b[k], b[..k], b[k + 1..];
    assert b == front + ([x] + back);
    ProductConcat(front, [x] + back);
    assert ([x] + back)[1..] == back;
    assert Product([x] + back) == x.magnitude * Product(back);
    ProductConcat(front, back);
    var p, q, m := Product(front), Product(back), x.magnitude;
    assert p * (m * q) == m * (p * q);
  }

  /** Dropping the head of `a` and a matching entry of `b` keeps the two
      lists permutations of each other. */
  lemma RemoveMatching<T>(a: seq<T>, b: seq<T>, k: nat)
    requires |a| > 0 && k < |b| && b[k] == a[0]
    requires multiset(a) == multiset(b)
    ensures multiset(a[1..]) == multiset(b[..k] + b[k + 1..])
  {
    var x := a[0];
    var rest := b[..k] + b[k + 1..];
    assert a == [x] + a[1..];
    assert b == b[..k] + [x] + b[k + 1..];
    assert multiset(a) == multiset(a[1..]) + multiset{x};
    assert multiset(b) == multiset(rest) + multiset{x};
    assert multiset(a[1..]) == multiset(a[1..]) + multiset{x} - multiset{x};
    assert multiset(rest) == multiset(rest) + multiset{x} - multiset{x};
  }

  /** The product does not depend on the order of the entries. */
  lemma {:induction false} ProductPermutation(a: seq<Length>, b: seq<Length>)
    requires multiset(a) == multiset(b)
    ensures Product(a) == Product(b)
    decreases |a|
  {
    if |a| == 0 {
      assert |b| == |multiset(b)| == 0;
    } else {
      assert a[0] in multiset(b);
      var k :| 0 <= k < |b| && b[k] == a[0];
      var rest := b[..k] + b[k + 1..];
      RemoveMatching(a, b, k);
      ProductPermutation(a[1..], rest);
      ProductRemoveAt(b, k);
    }
  }

  /** The product only reads magnitudes: the units play no part. */
  lemma {:induction false} ProductIgnoresUnits(a: seq<Length>, b: seq<Length>)
    requires |a| == |b|
    requires forall i :: 0 <= i < |a| ==> a[i].magnitude == b[i].magnitude
    ensures Product(a) == Product(b)
    decreases |a|
  {
    if |a| > 0 {
      ProductIgnoresUnits(a[1..], b[1..]);
    }
  }

  /* ---------- properties of `volume` ---------- */

  /** Reordering the dimensions leaves the volume unchanged. */
  lemma VolumePermutation(c: Cuboid, d: Cuboid)
    requires multiset(c.dimensions) == multiset(d.dimensions)
    ensures VolumeOf(c) == VolumeOf(d)
  {
    ProductPermutation(c.dimensions, d.dimensions);
  }

  /** The volume ignores each entry's unit: two cuboids whose entries have the
      same magnitudes have the same volume, whatever the units. */
  lemma VolumeIgnoresUnits(c: Cuboid, d: Cuboid)
    requires |c.dimensions| == |d.dimensions|
    requires forall i :: 0 <= i < |c.dimensions| ==>
               c.dimensions[i].magnitude == d.dimensions[i].magnitude
    ensures VolumeOf(c) == VolumeOf(d)
  {
    ProductIgnoresUnits(c.dimensions, d.dimensions);
  }

  /** Every entry converted to centimetres. */
  function InCentimetres(ds: seq<Length>): seq<Length> {
    seq(|ds|, i requires 0 <= i < |ds| => Length(Centimetres(ds[i]), Cm))
  }

  /** The physical volume, in cubic centimetres: every entry converted first. */
  function CubicCentimetres(ds: seq<Length>): real {
    Product(InCentimetres(ds))
  }

  /** When every entry is already in centimetres, `volume` is the physical
      volume. */
  lemma VolumeIsPhysicalInCentimetres(ds: seq<Length>)
    requires forall i :: 0 <= i < |ds| ==> ds[i].unit == Cm
    ensures Product(ds) == CubicCentimetres(ds)
  {
    ProductIgnoresUnits(ds, InCentimetres(ds));
  }

  /** A constructed cuboid holds only centimetre entries, so its volume is the
      physical one, when no padding happened or the caller's unit was already
      centimetres. */
  lemma MadeVolumeIsPhysical(dims: seq<real>, dimUnit: LenUnit, weight: real,
                             weightUnit: WtUnit, defaultLength: real)
    requires 3 <= |dims| || dimUnit == Cm
    ensures VolumeOf(Make(dims, dimUnit, weight, weightUnit, defaultLength)).millilitres
         == CubicCentimetres(Make(dims, dimUnit, weight, weightUnit, defaultLength).dimensions)
  {
    VolumeIsPhysicalInCentimetres(Make(dims, dimUnit, weight, weightUnit, defaultLength).dimensions);
  }

  /** Padding keeps the caller's unit and `volume` drops it: a cuboid built in
      inches with nothing supplied and a default length of 1 reports 1 ml,
      while the 1-inch cube it describes holds 16.387064 ml. */
  lemma PaddedInchesVolume()
    ensures VolumeOf(Make([], In, 0.0, G, 1.0)).millilitres == 1.0
    ensures CubicCentimetres(Make([], In, 0.0, G, 1.0).dimensions) == 16.387064
  {
    var ds := Make([], In, 0.0, G, 1.0).dimensions;
    assert ds == [Length(1.0, In), Length(1.0, In), Length(1.0, In)];
    assert ds[1..][1..][1..] == [];
  }

  /** The product of a list with a given head. */
  lemma ProductCons(x: Length, r: seq<Length>)
    ensures Product([x] + r) == x.magnitude * Product(r)
  {
    assert ([x] + r)[1..] == r;
  }

  /** The product of a three-entry list, spelled out. */
  lemma ThreeProduct(x: Length, y: Length, z: Length)
    ensures Product([x, y, z]) == x.magnitude * (y.magnitude * z.magnitude)
  {
    var s1, s2 := [y, z], [z];
    assert [x, y, z] == [x] + s1 && s1 == [y] + s2 && s2 == [z] + [];
    ProductCons(z, []);
    ProductCons(y, s2);
    ProductCons(x, s1);
    assert Product(s2) == z.magnitude * 1.0;
  }

  /** The factor of a unit other than the centimetre, and its square and cube,
      are not one. */
  lemma FactorIsNotOne(u: LenUnit)
    requires u != Cm
    ensures CmPer(u) != 1.0 && CmPer(u) * CmPer(u) != 1.0 && CmPer(u) * (CmPer(u) * CmPer(u)) != 1.0
  {
  }

  /** A product of non-zero reals is not zero. */
  lemma NonZeroTimes(x: real, y: real)
    requires x != 0.0 && y != 0.0
    ensures x * y != 0.0
  {
  }

  /** Scaling a non-zero real by a factor other than one changes it. */
  lemma NotFixed(v: real, k: real)
    requires v != 0.0 && k != 1.0
    ensures v * k != v
  {
    assert v * k - v == v * (k - 1.0);
  }

  /** The physical volume of a three-entry list, spelled out. */
  lemma CubicThree(x: Length, y: Length, z: Length)
    ensures CubicCentimetres([x, y, z]) == Centimetres(x) * (Centimetres(y) * Centimetres(z))
  {
    var x', y', z' := Length(Centimetres(x), Cm), Length(Centimetres(y), Cm), Length(Centimetres(z), Cm);
    assert InCentimetres([x, y, z]) == [x', y', z'];
    ThreeProduct(x', y', z');
  }

  /** Three entries: the physical volume is the product of the magnitudes
      times the product of their units' factors. */
  lemma ScaledThree(x: Length, y: Length, z: Length)
    ensures CubicCentimetres([x, y, z])
         == Product([x, y, z]) * (CmPer(x.unit) * (CmPer(y.unit) * CmPer(z.unit)))
  {
    ThreeProduct(x, y, z);
    CubicThree(x, y, z);
    Arrange(CubicCentimetres([x, y, z]), Product([x, y, z]), Centimetres(x), Centimetres(y), Centimetres(z),
            x.magnitude, y.magnitude, z.magnitude, CmPer(x.unit), CmPer(y.unit), CmPer(z.unit));
  }

  /** Three entries, each a magnitude times a factor: their product is the
      product of the magnitudes times the product of the factors. */
  lemma Arrange(cc: real, v: real, cx: real, cy: real, cz: real, x: real, y: real, z: real,
                fx: real, fy: real, fz: real)
    requires cc == cx * (cy * cz) && v == x * (y * z)
    requires cx == x * fx && cy == y * fy && cz == z * fz
    ensures cc == v * (fx * (fy * fz))
  {
  }

  /** The dimension list `new` builds from no magnitudes. */
  lemma MadeShapeNone(dims: seq<real>, dimUnit: LenUnit, weight: real,
                      weightUnit: WtUnit, defaultLength: real)
    requires |dims| == 0
    ensures Make(dims, dimUnit, weight, weightUnit, defaultLength).dimensions
         == [Length(defaultLength, dimUnit), Length(defaultLength, dimUnit), Length(defaultLength, dimUnit)]
  {
  }

  /** The dimension list `new` builds from one magnitude. */
  lemma MadeShapeOne(dims: seq<real>, dimUnit: LenUnit, weight: real,
                     weightUnit: WtUnit, defaultLength: real)
    requires |dims| == 1
    ensures Make(dims, dimUnit, weight, weightUnit, defaultLength).dimensions
         == [Length(dims[0] * CmPer(dimUnit), Cm), Length(defaultLength, dimUnit),
             Length(defaultLength, dimUnit)]
  {
  }

  /** The dimension list `new` builds from two magnitudes. */
  lemma MadeShapeTwo(dims: seq<real>, dimUnit: LenUnit, weight: real,
                     weightUnit: WtUnit, defaultLength: real)
    requires |dims| == 2
    ensures Make(dims, dimUnit, weight, weightUnit, defaultLength).dimensions
         == [Length(dims[0] * CmPer(dimUnit), Cm), Length(dims[1] * CmPer(dimUnit), Cm),
             Length(defaultLength, dimUnit)]
  {
  }

  /** With no magnitude zero, the reported volume of a constructed cuboid is
      not zero. */
  lemma MadeVolumeNonZero(dims: seq<real>, dimUnit: LenUnit, weight: real,
                          weightUnit: WtUnit, defaultLength: real)
    requires defaultLength != 0.0 && forall i :: 0 <= i < |dims| ==> dims[i] != 0.0
    ensures VolumeOf(Make(dims, dimUnit, weight, weightUnit, defaultLength)).millilitres != 0.0
  {
    var ds := Make(dims, dimUnit, weight, weightUnit, defaultLength).dimensions;
    forall i | 0 <= i < |ds|
      ensures ds[i].magnitude != 0.0
    {
      if i < |dims| {
        NonZeroTimes(dims[i], CmPer(dimUnit));
      }
    }
    ProductNonZero(ds);
  }

  /** The product of non-zero magnitudes is not zero. */
  lemma {:induction false} ProductNonZero(ds: seq<Length>)
    requires forall i :: 0 <= i < |ds| ==> ds[i].magnitude != 0.0
    ensures Product(ds) != 0.0
    decreases |ds|
  {
    if |ds| > 0 {
      var x, r := ds[0], ds[1..];
      assert ds == [x] + r;
      ProductNonZero(r);
      ProductCons(x, r);
      NonZeroTimes(x.magnitude, Product(r));
    }
  }

  /** With fewer than three dimensions supplied, each padded entry is off by one
      factor of the caller's unit: the physical volume is the reported volume
      times `CmPer(dimUnit)` once per padded entry. */
  lemma PaddedVolumeScales(dims: seq<real>, dimUnit: LenUnit, weight: real,
                           weightUnit: WtUnit, defaultLength: real)
    requires |dims| < 3
    ensures |dims| == 0 ==>
              CubicCentimetres(Make(dims, dimUnit, weight, weightUnit, defaultLength).dimensions)
              == VolumeOf(Make(dims, dimUnit, weight, weightUnit, defaultLength)).millilitres
                 * (CmPer(dimUnit) * (CmPer(dimUnit) * CmPer(dimUnit)))
    ensures |dims| == 1 ==>
              CubicCentimetres(Make(dims, dimUnit, weight, weightUnit, defaultLength).dimensions)
              == VolumeOf(Make(dims, dimUnit, weight, weightUnit, defaultLength)).millilitres
                 * (CmPer(dimUnit) * CmPer(dimUnit))
    ensures |dims| == 2 ==>
              CubicCentimetres(Make(dims, dimUnit, weight, weightUnit, defaultLength).dimensions)
              == VolumeOf(Make(dims, dimUnit, weight, weightUnit, defaultLength)).millilitres
                 * CmPer(dimUnit)
  {
    if |dims| == 0 {
      ScalesThrice(dims, dimUnit, weight, weightUnit, defaultLength);
    } else if |dims| == 1 {
      ScalesTwice(dims, dimUnit, weight, weightUnit, defaultLength);
    } else {
      ScalesOnce(dims, dimUnit, weight, weightUnit, defaultLength);
    }
  }

  /** No dimension supplied: three padded entries, three factors. */
  lemma ScalesThrice(dims: seq<real>, dimUnit: LenUnit, weight: real,
                     weightUnit: WtUnit, defaultLength: real)
    requires |dims| == 0
    ensures CubicCentimetres(Make(dims, dimUnit, weight, weightUnit, defaultLength).dimensions)
         == VolumeOf(Make(dims, dimUnit, weight, weightUnit, defaultLength)).millilitres
            * (CmPer(dimUnit) * (CmPer(dimUnit) * CmPer(dimUnit)))
  {
    var c := Make(dims, dimUnit, weight, weightUnit, defaultLength);
    MadeShapeNone(dims, dimUnit, weight, weightUnit, defaultLength);
    ScaledThree(c.dimensions[0], c.dimensions[1], c.dimensions[2]);
    assert c.dimensions == [c.dimensions[0], c.dimensions[1], c.dimensions[2]];
  }

  /** One dimension supplied: two padded entries, two factors. */
  lemma ScalesTwice(dims: seq<real>, dimUnit: LenUnit, weight: real,
                    weightUnit: WtUnit, defaultLength: real)
    requires |dims| == 1
    ensures CubicCentimetres(Make(dims, dimUnit, weight, weightUnit, defaultLength).dimensions)
         == VolumeOf(Make(dims, dimUnit, weight, weightUnit, defaultLength)).millilitres
            * (CmPer(dimUnit) * CmPer(dimUnit))
  {
    var c := Make(dims, dimUnit, weight, weightUnit, defaultLength);
    MadeShapeOne(dims, dimUnit, weight, weightUnit, defaultLength);
    ScaledThree(c.dimensions[0], c.dimensions[1], c.dimensions[2]);
    assert c.dimensions == [c.dimensions[0], c.dimensions[1], c.dimensions[2]];
  }

  /** Two dimensions supplied: one padded entry, one factor. */
  lemma ScalesOnce(dims: seq<real>, dimUnit: LenUnit, weight: real,
                   weightUnit: WtUnit, defaultLength: real)
    requires |dims| == 2
    ensures CubicCentimetres(Make(dims, dimUnit, weight, weightUnit, defaultLength).dimensions)
         == VolumeOf(Make(dims, dimUnit, weight, weightUnit, defaultLength)).millilitres * CmPer(dimUnit)
  {
    var c := Make(dims, dimUnit, weight, weightUnit, defaultLength);
    MadeShapeTwo(dims, dimUnit, weight, weightUnit, defaultLength);
    ScaledThree(c.dimensions[0], c.dimensions[1], c.dimensions[2]);
    assert c.dimensions == [c.dimensions[0], c.dimensions[1], c.dimensions[2]];
  }

  /** So when the unit is not the centimetre and no magnitude is zero, the
      reported volume of a padded cuboid is not its physical volume. */
  lemma PaddedVolumeDiffers(dims: seq<real>, dimUnit: LenUnit, weight: real,
                            weightUnit: WtUnit, defaultLength: real)
    requires |dims| < 3
    ensures dimUnit != Cm && defaultLength != 0.0 && (forall i :: 0 <= i < |dims| ==> dims[i] != 0.0) ==>
              CubicCentimetres(Make(dims, dimUnit, weight, weightUnit, defaultLength).dimensions)
              != VolumeOf(Make(dims, dimUnit, weight, weightUnit, defaultLength)).millilitres
  {
    if dimUnit != Cm && defaultLength != 0.0 && (forall i :: 0 <= i < |dims| ==> dims[i] != 0.0) {
      var v := VolumeOf(Make(dims, dimUnit, weight, weightUnit, defaultLength)).millilitres;
      var f := CmPer(dimUnit);
      PaddedVolumeScales(dims, dimUnit, weight, weightUnit, defaultLength);
      MadeVolumeNonZero(dims, dimUnit, weight, weightUnit, defaultLength);
      FactorIsNotOne(dimUnit);
      if |dims| == 0 {
        NotFixed(v, f * (f * f));
      } else if |dims| == 1 {
        NotFixed(v, f * f);
      } else {
        NotFixed(v, f);
      }
    }
  }

  /** The same physical dimensions supplied in two units build the same
      dimension list, hence the same volume, once all three are supplied. */
  lemma {:induction false} MakeUnitIndependent(ds: seq<real>, u: LenUnit, es: seq<real>, v: LenUnit,
                                               weight: real, weightUnit: WtUnit,
                                               defaultU: real, defaultV: real)
    requires 3 <= |ds| && |ds| == |es|
    requires forall i :: 0 <= i < |ds| ==> ds[i] * CmPer(u) == es[i] * CmPer(v)
    ensures Make(ds, u, weight, weightUnit, defaultU) == Make(es, v, weight, weightUnit, defaultV)
  {
    var c := Make(ds, u, weight, weightUnit, defaultU);
    var d := Make(es, v, weight, weightUnit, defaultV);
    assert c.dimensions == d.dimensions by {
      assert forall i :: 0 <= i < |ds| ==> c.dimensions[i] == d.dimensions[i];
    }
    assert c.weight.magnitude == d.weight.magnitude by {
      assert c.weight.magnitude * 1.0 == d.weight.magnitude * 1.0;
    }
  }
}
