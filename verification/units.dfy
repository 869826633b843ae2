/** Quantities with a magnitude and a unit, as the unit-of-measure library
    provides them: lengths, weights and volumes. Magnitudes are exact rationals,
    and every unit carries an exact factor to the canonical unit of its kind
    (centimetres, grams, millilitres). */
module Units {

  /** Length units. */
  datatype LenUnit = Mm | Cm | M | In | Ft | Yd

  /** Weight units. */
  datatype WtUnit = Mg | G | Kg | Oz | Lb

  /** Centimetres in one `u`; the inch, foot and yard are those of the
      international yard and pound agreement of 1959 (1 yd = 0.9144 m). */
  function CmPer(u: LenUnit): (f: real)
    ensures f > 0.0
  {
    match u
    case Mm => 0.1
    case Cm => 1.0
    case M => 100.0
    case In => 2.54
    case Ft => 30.48
    case Yd => 91.44
  }

  /** Grams in one `u`; 1 lb = 0.45359237 kg exactly (1959 agreement),
      1 oz = 1/16 lb. */
  function GramsPer(u: WtUnit): (f: real)
    ensures f > 0.0
  {
    match u
    case Mg => 0.001
    case G => 1.0
    case Kg => 1000.0
    case Oz => 28.349523125
    case Lb => 453.59237
  }

  datatype Length = Length(magnitude: real, unit: LenUnit)

  datatype Weight = Weight(magnitude: real, unit: WtUnit)

  /** Every volume the core produces is labelled millilitres. */
  datatype Volume = Volume(millilitres: real)

  /** The physical size of a length, in centimetres. */
  function Centimetres(l: Length): real {
    l.magnitude * CmPer(l.unit)
  }

  /** The physical mass of a weight, in grams. */
  function Grams(w: Weight): real {
    w.magnitude * GramsPer(w.unit)
  }

  /** The library's `==` on lengths: equal once both are converted. */
  predicate SameLength(a: Length, b: Length) {
    Centimetres(a) == Centimetres(b)
  }

  /** The library's `==` on weights: equal once both are converted. */
  predicate SameWeight(a: Weight, b: Weight) {
    Grams(a) == Grams(b)
  }

  /** `convert_to` on a length: the same physical length, in `target`. */
  function ConvertLength(l: Length, target: LenUnit): (r: Length)
    ensures r.unit == target
    ensures SameLength(r, l)
  {
    var cm := l.magnitude * CmPer(l.unit);
    var r := Length(cm / CmPer(target), target);
    assert r.magnitude * CmPer(target) == cm;
    r
  }

  /** `convert_to` on a weight: the same physical weight, in `target`. */
  function ConvertWeight(w: Weight, target: WtUnit): (r: Weight)
    ensures r.unit == target
    ensures SameWeight(r, w)
  {
    var g := w.magnitude * GramsPer(w.unit);
    var r := Weight(g / GramsPer(target), target);
    assert r.magnitude * GramsPer(target) == g;
    r
  }

  /** Converting a length and converting it back returns it unchanged. */
  lemma LengthRoundTrip(l: Length, via: LenUnit)
    ensures ConvertLength(ConvertLength(l, via), l.unit) == l
  {
    var r := ConvertLength(ConvertLength(l, via), l.unit);
    assert r.magnitude * CmPer(l.unit) == l.magnitude * CmPer(l.unit);
  }

  /** Converting a weight and converting it back returns it unchanged. */
  lemma WeightRoundTrip(w: Weight, via: WtUnit)
    ensures ConvertWeight(ConvertWeight(w, via), w.unit) == w
  {
    var r := ConvertWeight(ConvertWeight(w, via), w.unit);
    assert r.magnitude * GramsPer(w.unit) == w.magnitude * GramsPer(w.unit);
  }

  /** The library's `+` on weights: the right operand is converted to the
      left operand's unit, and the sum keeps that unit. */
  function Plus(a: Weight, b: Weight): (r: Weight)
    ensures r.unit == a.unit
    ensures Grams(r) == Grams(a) + Grams(b)
  {
    var b' := ConvertWeight(b, a.unit);
    Weight(a.magnitude + b'.magnitude, a.unit)
  }
}
