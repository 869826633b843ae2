# physical: cuboids and packages

A Dafny model of the value arithmetic at the heart of the `physical` Ruby gem.

- **Cuboid construction.** `new` of a cuboid subclass that defines `DEFAULT_LENGTH`, such as `Physical::Box` or `Physical::Item`, converts the weight to grams and each supplied dimension to centimetres. It then right-pads the dimension list up to index 2 with the class's `DEFAULT_LENGTH`, expressed in the caller's dimension unit.
- **Volume.** `Cuboid#volume` multiplies the magnitudes of the dimension entries and labels the product millilitres.
- **Package aggregation.** A `Physical::Package` holds a container box, a set of items, a void-fill density and an identifier. It derives its aggregate weight, its remaining volume and its void-fill weight. `<<` adds an item and `>>` removes one.

Magnitudes are exact rationals (`real`). Every unit has an exact factor to its canonical unit:

- lengths: centimetres. 1 in = 2.54 cm, 1 ft = 30.48 cm, 1 yd = 91.44 cm.
- weights: grams. 1 lb = 453.59237 g, 1 oz = 28.349523125 g, 1 mg = 0.001 g.

The inch, foot, yard, pound and ounce are those of the international yard and pound agreement of 1959. The unit library's `==` is modelled as equality after conversion (`SameLength`, `SameWeight`). Its `+` converts the right operand to the left operand's unit (`Plus`).

The cuboid code is modelled as written, including two behaviours that a reader might not expect:

- Padding entries are built in the caller's `dimension_unit`. They are not converted to centimetres.
- `volume` multiplies the bare magnitudes and ignores each entry's unit.

So when fewer than three dimensions are supplied, the physical volume is the reported volume times the unit's centimetre factor once per padded entry (`PaddedVolumeScales`). In a unit other than centimetres it therefore differs whenever the default and every supplied magnitude are non-zero (`PaddedVolumeDiffers`); `PaddedInchesVolume` gives a concrete case. Where all entries are in centimetres, the reported volume is the physical one (`MadeVolumeIsPhysical`).

The constructor's `fill` only writes indices from the current length up to 2 (`lib/physical/cuboid.rb:11`). So a list of three or more entries is left as supplied, and the list length is max(n, 3).

The package specification file requires that adding an item that is already present leaves exactly one copy (`spec/physical/package_spec.rb:41-48`). So items form a duplicate-free sequence in insertion order, and each `Item` carries an identity (`ident`) that stands for Ruby object identity.

The package specification file passes unit-carrying quantities to the constructors, for example `weight: Measured::Weight(0.8, :lb)` and `dimensions: [...].map { |d| Measured::Length(d, :cm) }`. The shown `Cuboid#initialize` instead takes bare magnitudes plus `dimension_unit:` and `weight_unit:` (`lib/physical/cuboid.rb:8-10`), so the specification file targets a constructor that accepts quantities. The scenarios map each quantity to its (magnitude, unit) pair and pass those to `Cuboids.Make`: `Weight(0.8, :lb)` becomes weight 0.8 with unit `Lb`, and lengths in `:cm` become magnitudes with unit `Cm`. A bare item given as `items:` (`spec/physical/package_spec.rb:110`) is modelled as a one-element list.

`box.rb` and `package.rb` are not part of this model. The package side is built only from the package specification file. `Box` is a cuboid plus optional inner dimensions, and its usable capacity is the inner volume when inner dimensions are given and the outer volume otherwise. The default container is the sentinel `Unbounded`, which weighs nothing and offers unlimited room.

Files:

- `wrappers.dfy`: `Option`.
- `units.dfy`: units, quantities, conversion and addition.
- `cuboid.dfy`: `Cuboid#initialize` and `Cuboid#volume`, with the properties of the product.
- `package.dfy`: the item collection, `weight`, `remaining_volume` and `void_fill_weight`.
- `scenarios.dfy`: the concrete examples of the package specification file.

## Model

| member | source | states |
|---|---|---|
| Units.ConvertLength | lib/physical/cuboid.rb:10 | `convert_to` gives a length in the target unit that is physically equal to the input |
| Units.ConvertWeight | lib/physical/cuboid.rb:9 | `convert_to` gives a weight in the target unit that is physically equal to the input |
| Units.LengthRoundTrip | lib/physical/cuboid.rb:10 | converting a length to any unit and back returns it unchanged |
| Units.WeightRoundTrip | lib/physical/cuboid.rb:9 | converting a weight to any unit and back returns it unchanged |
| Units.Plus | spec/physical/package_spec.rb:78-80 | adding weights keeps the left operand's unit, and the grams of the sum are the sum of the grams |
| Cuboids.Pad | lib/physical/cuboid.rb:11 | `fill(filler, length..2)` has length max(n, 3), leaves the first n entries unchanged and puts the filler at every index from n on |
| Cuboids.Make | lib/physical/cuboid.rb:8-11 | the stored weight is in grams and equals the input magnitude times the unit's factor; the list has length max(n, 3); entry i < n is the i-th input converted to cm; every padded entry is `DEFAULT_LENGTH` in the caller's unit, not converted |
| Cuboids.DefaultCuboid | lib/physical/cuboid.rb:8-11 | `new` of a subclass that defines `DEFAULT_LENGTH`, with no arguments: the weight is 0 g and the dimensions are three copies of `DEFAULT_LENGTH` in cm |
| Cuboids.Reduce | lib/physical/cuboid.rb:16 | `reduce(&:*)` yields nil exactly on an empty list |
| Cuboids.FoldTimesIsProduct | lib/physical/cuboid.rb:16 | the left fold of `reduce` equals the accumulator times the product of the magnitudes |
| Cuboids.ProductVolume | lib/physical/cuboid.rb:14-19 | the volume of a dimension list (always at least three entries, so never reduced empty) is the product of the magnitudes in ml, and d0·d1·d2 for three entries |
| Cuboids.VolumeOf | lib/physical/cuboid.rb:14-19 | `volume` is the product of the entries' magnitudes, labelled ml, whatever each entry's unit |
| Cuboids.ProductPermutation | lib/physical/cuboid.rb:16 | the product of magnitudes is the same for any permutation of the list |
| Cuboids.VolumePermutation | lib/physical/cuboid.rb:16 | two cuboids whose dimension lists are permutations of each other have the same volume |
| Cuboids.VolumeIgnoresUnits | lib/physical/cuboid.rb:16 | two cuboids whose entries have equal magnitudes have equal volumes, whatever the units |
| Cuboids.MadeVolumeIsPhysical | lib/physical/cuboid.rb:10-16 | when at least three dimensions are given or the unit is cm, the volume equals the physical volume in cubic centimetres |
| Cuboids.PaddedInchesVolume | lib/physical/cuboid.rb:11-16 | a cuboid built in inches with no dimensions and default 1 reports 1 ml, while its physical volume is 16.387064 cm³ |
| Cuboids.PaddedVolumeScales | lib/physical/cuboid.rb:11-16 | with n < 3 dimensions given, the physical volume in cm³ is the reported volume times the unit's cm factor raised to 3 − n |
| Cuboids.PaddedVolumeDiffers | lib/physical/cuboid.rb:11-16 | with n < 3 dimensions given in a unit other than cm, and the default and every given magnitude non-zero, the reported volume is not the physical volume |
| Cuboids.MakeUnitIndependent | lib/physical/cuboid.rb:10-11 | three or more dimensions given in two units that agree physically build the same dimension list, hence the same volume |
| Packages.Insert | spec/physical/package_spec.rb:41-48 | set insertion: the members are the old members plus x, and no duplicate appears |
| Packages.Delete | spec/physical/package_spec.rb:52-62 | set deletion: the members are the old members minus x; no duplicate appears; an absent x changes nothing |
| Packages.FromList | spec/physical/package_spec.rb:41-48 | the initial collection holds each given item once, and a duplicate-free list is kept as is |
| Packages.DeleteKeepsOrder | spec/physical/package_spec.rb:52-62 | deleting an item of a duplicate-free list removes exactly its position and keeps the rest in order |
| Packages.NewPackage | spec/physical/package_spec.rb:6-18 | a given id is kept, otherwise the generated one; no container means the unbounded one; items are deduplicated with the same members; no items means an empty collection; the density defaults to zero |
| Packages.Add | spec/physical/package_spec.rb:29-50 | `<<` only changes the items; the members gain x; a new item goes to the tail; adding a present item changes nothing |
| Packages.Remove | spec/physical/package_spec.rb:52-63 | `>>` only changes the items; the members lose x; a present item shortens the collection by one; an absent one changes nothing |
| Packages.AddThenRemove | spec/physical/package_spec.rb:29-63 | `<<` of an absent item followed by `>>` of it restores the package |
| Packages.TotalDependsOnlyOnMembers | spec/physical/package_spec.rb:65-80 | a sum over a duplicate-free item list depends only on which items it holds |
| Packages.ItemsWeight | spec/physical/package_spec.rb:65-80 | the items' weights added with the library's `+` from 0 g equal, in grams, the sum of the item weights |
| Packages.TotalWeight | spec/physical/package_spec.rb:65-93 | `weight` in grams is the container's weight plus the sum of the items' weights |
| Packages.ItemsVolume | spec/physical/package_spec.rb:106-117 | the items' volumes added from 0 ml equal the sum of the item volumes |
| Packages.RemainingVolume | spec/physical/package_spec.rb:106-117 | `remaining_volume` is unlimited exactly for the unbounded container; otherwise it is the box's inner volume (outer if no inner dimensions) minus the items' volumes |
| Packages.FillWeight | spec/physical/package_spec.rb:143-160 | filling a finite room at a density gives grams equal to the density's grams times the room's millilitres, in the density's unit |
| Packages.VoidFillWeight | spec/physical/package_spec.rb:143-160 | `void_fill_weight` is the remaining volume times the void-fill density, in the density's unit; there is none for the unbounded container |
| Packages.AddAccounting | spec/physical/package_spec.rb:29-117 | adding a new item raises the weight by its weight and lowers the remaining volume by its volume; adding a present item leaves the weight unchanged |
| Packages.RemoveAccounting | spec/physical/package_spec.rb:52-117 | removing a present item lowers the weight by its weight and raises the remaining volume by its volume; removing an absent item leaves the weight unchanged |
| Packages.AggregatesIgnoreOrder | spec/physical/package_spec.rb:65-117 | weight, remaining volume and void-fill weight are the same for two packages holding the same items in any order |
| Packages.EmptyPackage | spec/physical/package_spec.rb:82-93 | with no items the weight equals the container's weight, and the remaining volume is the whole capacity |
| Packages.ZeroDensityNoFill | spec/physical/package_spec.rb:143-160 | a zero void-fill density gives a zero void-fill weight |
| Scenarios.NoArguments | spec/physical/package_spec.rb:6-27 | a package built with no arguments has no items and the unbounded container |
| Scenarios.AddOnce | spec/physical/package_spec.rb:29-50 | `<<` on an empty package gives exactly that item, and `<<` of an item already present, once or twice (both `before` hooks run), still gives exactly one copy |
| Scenarios.RemoveOnly | spec/physical/package_spec.rb:52-63 | `>>` of the only item leaves the collection empty |
| Scenarios.WeightInPounds | spec/physical/package_spec.rb:65-93 | 0.8 lb + 0.2 lb + 1 lb equals 2 lb, and a 0.8 lb box with no items weighs 0.8 lb |
| Scenarios.RemainingVolumeFromOuterDimensions | spec/physical/package_spec.rb:106-117 | 1·2·3 − 1·1·1 = 5 ml for a box without inner dimensions |
| Scenarios.VoidFillFromInnerDimensions | spec/physical/package_spec.rb:143-160 | a 2×2×2 cm box with a 1×1×1 cm interior at 7 mg density needs 0.007 g of filler |
| Scenarios.FactoryPackage | lib/physical/spec_support/factories/package_factory.rb:8-11 | the package factory's package, which has only a 0.01 g void-fill density, weighs 0 g in the model |
| Scenarios.GivenId | spec/physical/package_spec.rb:119-126 | an explicit id "12345" is returned unchanged |

## Left out

- Unit library internals: conversion and addition are modelled with exact rational factors, and so is the `.to_f` rendering in `spec/physical/package_spec.rb:158`. Floating point is not modelled. Malformed units or magnitudes are rejected by that library; here they cannot be built, since inputs are typed.
- `DEFAULT_LENGTH`: the subclasses that define it are not part of this model, so it is a parameter of `Cuboids.Make`. `Physical::Cuboid.new` on the base class itself raises `NameError`, because neither `cuboid.rb` nor `lib/physical.rb` defines the constant; that error is not modelled.
- `box.rb`, `item.rb` and `package.rb` are not part of this model. How a box builds its inner dimensions is not modelled: inner dimensions are supplied as an already-built dimension list.
- Packages.NewPackage: accepts only a list of items; a single bare item (`spec/physical/package_spec.rb:110`) is passed as a one-element list, since `package.rb`, which would show how it is wrapped, is not part of this model.
- Packages.NewPackage: the identifier generator is external, so its output is the free parameter `generatedId`. The check that a generated identifier is present (`be_present`, `spec/physical/package_spec.rb:128-132`) is therefore not stated.
- Packages.RemainingVolume: the default container has infinite dimensions (`spec/physical/package_spec.rb:13-18`), and `real` has no infinity. The model uses the `Unbounded` sentinel, reports `Unlimited` room and does no volume arithmetic on it. Its dimensions are not modelled.
- Packages.VoidFillWeight: for the unbounded container the result is `None`. No test fixes this case and `package.rb` is not part of this model.
- Dimension forwarding to the container (`spec/physical/package_spec.rb:96-104`): without `box.rb` it is impossible to tell whether the reversed order comes from sorting or from reversal.
- The factory check (`spec/physical/package_spec.rb:135-141`) expects 1327.37 g. The package factory (`lib/physical/spec_support/factories/package_factory.rb:8-11`) sets only a void-fill density of 0.01 g, with no container and no items, so the model gives 0 g (`Scenarios.FactoryPackage`). Resolving the difference needs `package.rb`, which is not part of this model. `lib/physical.rb` holds only `require` lines. Location and Shipment contain no computation.
- Mutation: `<<` and `>>` mutate the package in Ruby. Here they are pure functions from package to package.
