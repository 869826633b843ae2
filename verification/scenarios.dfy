/** The concrete examples the package specification file checks, stated over
    the model. `boxDefault` and `itemDefault` stand for the `DEFAULT_LENGTH`
    of boxes and items, whose values the examples never depend on;
    `generatedId` stands for the external identifier generator's output. */
module Scenarios {
  import opened Wrappers
  import opened Units
  import opened Cuboids
  import opened Packages

  /** An item of 2 x 2 x 2 cm and no weight. */
  function SmallItem(itemDefault: real): Item {
    Item(1, Make([2.0, 2.0, 2.0], Cm, 0.0, G, itemDefault))
  }

  /** `Package.new` with no arguments holds no items and uses the unbounded
      container. */
  lemma NoArguments(generatedId: string)
    ensures NewPackage(None, generatedId, None, [], None).items == []
    ensures NewPackage(None, generatedId, None, [], None).container == Unbounded
  {
  }

  /** `<<` on an empty package leaves exactly that item. When the package was
      built holding the item, both the outer and the inner `before` hook append
      it, and one occurrence remains. */
  lemma AddOnce(generatedId: string, itemDefault: real)
    ensures Add(NewPackage(None, generatedId, None, [], None), SmallItem(itemDefault)).items
         == [SmallItem(itemDefault)]
    ensures Add(NewPackage(None, generatedId, None, [SmallItem(itemDefault)], None),
                SmallItem(itemDefault)).items
         == [SmallItem(itemDefault)]
    ensures Add(Add(NewPackage(None, generatedId, None, [SmallItem(itemDefault)], None),
                    SmallItem(itemDefault)), SmallItem(itemDefault)).items
         == [SmallItem(itemDefault)]
  {
    var x := SmallItem(itemDefault);
    var p := NewPackage(None, generatedId, None, [x], None);
    assert p.items == [x] by {
      assert Distinct([x]);
    }
  }

  /** `>>` of the only item leaves the package empty. */
  lemma RemoveOnly(generatedId: string, itemDefault: real)
    ensures Remove(NewPackage(None, generatedId, None, [SmallItem(itemDefault)], None),
                   SmallItem(itemDefault)).items
         == []
  {
    var x := SmallItem(itemDefault);
    assert Distinct([x]);
    assert Delete([x], x) == Delete([x][1..], x);
    assert [x][1..] == [];
  }

  /** A 0.8 lb box holding items of 0.2 lb and 1 lb weighs 2 lb; holding
      nothing, it weighs 0.8 lb. */
  lemma WeightInPounds(generatedId: string, boxDefault: real, itemDefault: real)
    ensures SameWeight(
              TotalWeight(NewPackage(None, generatedId, Some(Box(Make([], Cm, 0.8, Lb, boxDefault), None)),
                                     [Item(1, Make([], Cm, 0.2, Lb, itemDefault)),
                                      Item(2, Make([], Cm, 1.0, Lb, itemDefault))],
                                     None)),
              Weight(2.0, Lb))
    ensures SameWeight(
              TotalWeight(NewPackage(None, generatedId, Some(Box(Make([], Cm, 0.8, Lb, boxDefault), None)),
                                     [], None)),
              Weight(0.8, Lb))
  {
    var a := Item(1, Make([], Cm, 0.2, Lb, itemDefault));
    var b := Item(2, Make([], Cm, 1.0, Lb, itemDefault));
    var items := [a, b];
    assert a != b;
    assert Distinct(items);
    var p := NewPackage(None, generatedId, Some(Box(Make([], Cm, 0.8, Lb, boxDefault), None)), items, None);
    assert p.items == items;
    assert items[1..] == [b] && items[1..][1..] == [];
    assert Total(items[1..], Mass) == Grams(b.body.weight) + Total(items[1..][1..], Mass);
    assert Total(items, Mass) == Grams(a.body.weight) + Grams(b.body.weight);
    assert Grams(ContainerWeight(p.container)) == 0.8 * 453.59237;
    assert Grams(a.body.weight) == 0.2 * 453.59237;
    assert Grams(b.body.weight) == 1.0 * 453.59237;
  }

  /** A 1 x 2 x 3 cm box without inner dimensions holding a 1 cm cube has
      5 ml left. */
  lemma RemainingVolumeFromOuterDimensions(generatedId: string, boxDefault: real, itemDefault: real)
    ensures RemainingVolume(NewPackage(None, generatedId,
                                       Some(Box(Make([1.0, 2.0, 3.0], Cm, 0.0, G, boxDefault), None)),
                                       [Item(1, Make([1.0, 1.0, 1.0], Cm, 0.0, G, itemDefault))],
                                       None))
         == Finite(Volume(5.0))
  {
    var box := Box(Make([1.0, 2.0, 3.0], Cm, 0.0, G, boxDefault), None);
    var x := Item(1, Make([1.0, 1.0, 1.0], Cm, 0.0, G, itemDefault));
    assert Distinct([x]);
    assert [x][1..] == [];
    assert Total([x], Space) == 1.0 by {
      assert VolumeOf(x.body).millilitres == 1.0;
    }
    assert Capacity(box).millilitres == 6.0;
  }

  /** A 2 x 2 x 2 cm box with a 1 x 1 x 1 cm interior and a void-fill density
      of 7 mg needs 0.007 g of filler: the inner volume counts, not the
      outer. */
  lemma VoidFillFromInnerDimensions(generatedId: string, boxDefault: real)
    ensures var box := Box(Make([2.0, 2.0, 2.0], Cm, 0.0, G, boxDefault),
                           Some(Make([1.0, 1.0, 1.0], Cm, 0.0, G, boxDefault).dimensions));
            var fill := VoidFillWeight(NewPackage(None, generatedId, Some(box), [], Some(Weight(7.0, Mg))));
            fill.Some? && fill.value.unit == Mg && ConvertWeight(fill.value, G).magnitude == 0.007
  {
  }

  /** The package factory sets only a void-fill density of 0.01 g: no
      container and no items, so the model gives it a weight of 0 g. */
  lemma FactoryPackage(generatedId: string)
    ensures Grams(TotalWeight(NewPackage(None, generatedId, None, [], Some(Weight(0.01, G))))) == 0.0
  {
  }

  /** An identifier given to `Package.new` is the package's identifier. */
  lemma GivenId(generatedId: string)
    ensures NewPackage(Some("12345"), generatedId, None, [], None).id == "12345"
  {
  }
}
