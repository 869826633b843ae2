/** `Physical::Package`, as its specification file pins it down: a container
    (a box, or an unbounded sentinel when none is given), a collection of items
    with set semantics, a void-fill density and an identifier; the aggregate
    weight, the remaining volume and the void-fill weight derived from them. */
module Packages {
  import opened Wrappers
  import opened Units
  import opened Cuboids

  /** An item: a cuboid with an identity. Two items with the same shape are
      still different items when their identities differ, as two Ruby objects
      are. */
  datatype Item = Item(ident: nat, body: Cuboid)

  /** A box: the outer cuboid and, when given, the inner dimensions. */
  datatype Box = Box(body: Cuboid, innerDimensions: Option<Dimensions>)

  /** The space a box offers its contents: the inner volume when inner
      dimensions are given, the outer volume otherwise. */
  function Capacity(b: Box): Volume {
    match b.innerDimensions
    case None => VolumeOf(b.body)
    case Some(inner) => ProductVolume(inner)
  }

  /** The container of a package; `Unbounded` stands for the default box of
      infinite dimensions and no weight, on which no volume arithmetic is done. */
  datatype Container = Bounded(box: Box) | Unbounded

  datatype Package = Package(id: string, container: Container, items: seq<Item>,
                             voidFillDensity: Weight)

  /** No item occurs twice. */
  predicate Distinct(items: seq<Item>) {
    forall i, j :: 0 <= i < j < |items| ==> items[i] != items[j]
  }

  /* ---------- the item collection ---------- */

  lemma DistinctCons(x: Item, r: seq<Item>)
    ensures Distinct(r) && x !in r ==> Distinct([x] + r)
  {
    if Distinct(r) && x !in r {
      forall i, j | 0 <= i < j < |[x] + r|
        ensures ([x] + r)[i] != ([x] + r)[j]
      {
        assert ([x] + r)[j] == r[j - 1];
      }
    }
  }

  /** In a duplicate-free list, the entry at `k` occurs neither before nor
      after `k`. */
  lemma DistinctSplit(items: seq<Item>, k: nat)
    requires k < |items|
    ensures Distinct(items) ==> items[k] !in items[..k] && items[k] !in items[k + 1..]
    ensures Distinct(items) ==> Distinct(items[..k]) && Distinct(items[k + 1..])
  {
  }

  /** Set insertion: append `x` unless it is already present. */
  function Insert(items: seq<Item>, x: Item): (r: seq<Item>)
    ensures forall y :: y in r <==> y in items || y == x
    ensures Distinct(items) ==> Distinct(r)
  {
    if x in items then items else items + [x]
  }

  /** Set deletion: drop `x` wherever it occurs, keeping the others in order. */
  function Delete(items: seq<Item>, x: Item): (r: seq<Item>)
    ensures forall y :: y in r <==> y in items && y != x
    ensures Distinct(items) ==> Distinct(r)
    ensures x !in items ==> r == items
    decreases |items|
  {
    if |items| == 0 then []
    else if items[0] == x then Delete(items[1..], x)
    else
      var rest := Delete(items[1..], x);
      DistinctSplit(items, 0);
      DistinctCons(items[0], rest);
      [items[0]] + rest
  }

  /** The collection built from an initial list: each item once, at its first
      occurrence. */
  function FromList(items: seq<Item>): (r: seq<Item>)
    ensures Distinct(r)
    ensures forall y :: y in r <==> y in items
    ensures Distinct(items) ==> r == items
    decreases |items|
  {
    if |items| == 0 then []
    else
      var front := items[..|items| - 1];
      assert Distinct(items) ==> Distinct(front) && items[|items| - 1] !in front;
      assert items == front + [items[|items| - 1]];
      Insert(FromList(front), items[|items| - 1])
  }

  lemma {:induction false} DeleteConcat(a: seq<Item>, b: seq<Item>, x: Item)
    ensures Delete(a + b, x) == Delete(a, x) + Delete(b, x)
    decreases |a|
  {
    if |a| == 0 {
      assert a + b == b;
    } else {
      assert (a + b)[1..] == a[1..] + b;
      DeleteConcat(a[1..], b, x);
    }
  }

  /** Deleting an item of a duplicate-free list removes exactly its one
      position; the rest keep their order. */
  lemma {:induction false} DeleteKeepsOrder(items: seq<Item>, k: nat)
    requires Distinct(items) && k < |items|
    ensures Delete(items, items[k]) == items[..k] + items[k + 1..]
  {
    var x, front, back := items[k], items[..k], items[k + 1..];
    assert items == front + ([x] + back);
    DeleteConcat(front, [x] + back, x);
    DeleteConcat([x], back, x);
    assert Delete([x], x) == [] by {
      assert [x][1..] == [];
    }
    DistinctSplit(items, k);
    assert [] + back == back;
  }

  /** Deleting a present item of a duplicate-free list shortens it by one. */
  lemma DeleteOne(items: seq<Item>, x: Item)
    ensures Distinct(items) && x in items ==> |Delete(items, x)| == |items| - 1
  {
    if Distinct(items) && x in items {
      var k :| 0 <= k < |items| && items[k] == x;
      DeleteKeepsOrder(items, k);
    }
  }

  /* ---------- construction, `<<`, `>>` ---------- */

  /** `Package.new(id:, container:, items:, void_fill_density:)`; each optional
      argument is an `Option`, and `generatedId` is what the external
      identifier generator would supply. */
  function NewPackage(id: Option<string>, generatedId: string, container: Option<Box>,
                      items: seq<Item>, density: Option<Weight>): (p: Package)
    ensures id.Some? ==> p.id == id.value
    ensures id.None? ==> p.id == generatedId
    ensures container.None? ==> p.container == Unbounded
    ensures container.Some? ==> p.container == Bounded(container.value)
    ensures Distinct(p.items)
    ensures forall y :: y in p.items <==> y in items
    ensures items == [] ==> p.items == []
    ensures Distinct(items) ==> p.items == items
    ensures density.Some? ==> p.voidFillDensity == density.value
    ensures density.None? ==> Grams(p.voidFillDensity) == 0.0
  {
    Package(
      if id.Some? then id.value else generatedId,
      if container.Some? then Bounded(container.value) else Unbounded,
      FromList(items),
      if density.Some? then density.value else Weight(0.0, G))
  }

  /** `package << item`. */
  function Add(p: Package, x: Item): (q: Package)
    ensures q.id == p.id && q.container == p.container && q.voidFillDensity == p.voidFillDensity
    ensures forall y :: y in q.items <==> y in p.items || y == x
    ensures Distinct(p.items) ==> Distinct(q.items)
    ensures x !in p.items ==> q.items == p.items + [x]
    ensures x in p.items ==> q == p
  {
    p.(items := Insert(p.items, x))
  }

  /** `package >> item`. */
  function Remove(p: Package, x: Item): (q: Package)
    ensures q.id == p.id && q.container == p.container && q.voidFillDensity == p.voidFillDensity
    ensures forall y :: y in q.items <==> y in p.items && y != x
    ensures Distinct(p.items) ==> Distinct(q.items)
    ensures x !in p.items ==> q == p
    ensures Distinct(p.items) && x in p.items ==> |q.items| == |p.items| - 1
  {
    DeleteOne(p.items, x);
    p.(items := Delete(p.items, x))
  }

  /** Adding an item, then removing it again, restores the package. */
  lemma AddThenRemove(p: Package, x: Item)
    requires x !in p.items
    ensures Remove(Add(p, x), x) == p
  {
    DeleteConcat(p.items, [x], x);
    assert Delete([x], x) == [];
    assert p.items + [] == p.items;
  }

  /* ---------- aggregates over the items ---------- */

  /** What is summed over the items: their weight or their volume. */
  datatype Measure = Mass | Space

  function Amount(x: Item, m: Measure): real {
    match m
    case Mass => Grams(x.body.weight)
    case Space => VolumeOf(x.body).millilitres
  }

  /** The reference sum of an item measure, in grams or millilitres. */
  function Total(items: seq<Item>, m: Measure): real
    decreases |items|
  {
    if |items| == 0 then 0.0 else Amount(items[0], m) + Total(items[1..], m)
  }

  lemma {:induction false} TotalConcat(a: seq<Item>, b: seq<Item>, m: Measure)
    ensures Total(a + b, m) == Total(a, m) + Total(b, m)
    decreases |a|
  {
    if |a| == 0 {
      assert a + b == b;
    } else {
      assert (a + b)[1..] == a[1..] + b;
      TotalConcat(a[1..], b, m);
    }
  }

  /** Deleting a present item of a duplicate-free list takes exactly its
      amount off the sum. */
  lemma {:induction false} TotalDelete(items: seq<Item>, x: Item, m: Measure)
    requires Distinct(items) && x in items
    ensures Total(Delete(items, x), m) == Total(items, m) - Amount(x, m)
    decreases |items|
  {
    var h, r := items[0], items[1..];
    assert items == [h] + r;
    TotalCons(h, r, m);
    DistinctSplit(items, 0);
    if h == x {
      assert Delete(items, x) == Delete(r, x) == r;
    } else {
      assert x in r;
      TotalDelete(r, x, m);
      assert Delete(items, x) == [h] + Delete(r, x);
      TotalCons(h, Delete(r, x), m);
    }
  }

  lemma TotalCons(x: Item, r: seq<Item>, m: Measure)
    ensures Total([x] + r, m) == Amount(x, m) + Total(r, m)
  {
    assert ([x] + r)[1..] == r;
  }

  lemma HeadIsMember(b: seq<Item>)
    ensures |b| > 0 ==> b[0] in b
  {
  }

  /** The sum over a duplicate-free list depends only on which items it holds,
      not on their order. */
  lemma {:induction false} TotalDependsOnlyOnMembers(a: seq<Item>, b: seq<Item>, m: Measure)
    requires Distinct(a) && Distinct(b)
    requires forall y :: y in a <==> y in b
    ensures Total(a, m) == Total(b, m)
    decreases |a|
  {
    if |a| == 0 {
      if |b| > 0 {
        HeadIsMember(b);
        assert false;
      }
    } else {
      var x := a[0];
      assert x in b;
      TotalDelete(b, x, m);
      DistinctSplit(a, 0);
      assert forall y :: y in a[1..] <==> y in a && y != x by {
        assert a == [x] + a[1..];
      }
      TotalDependsOnlyOnMembers(a[1..], Delete(b, x), m);
    }
  }

  /* ---------- `weight`, `remaining_volume`, `void_fill_weight` ---------- */

  /** The container's weight; the unbounded default box weighs nothing. */
  function ContainerWeight(c: Container): (w: Weight)
    ensures c.Unbounded? ==> Grams(w) == 0.0
  {
    match c
    case Bounded(b) => b.body.weight
    case Unbounded => Weight(0.0, G)
  }

  /** The items' weights added up with the library's `+`, starting from 0 g. */
  function ItemsWeight(items: seq<Item>): (w: Weight)
    ensures w.unit == G
    ensures Grams(w) == Total(items, Mass)
    decreases |items|
  {
    if |items| == 0 then Weight(0.0, G)
    else
      var front, last := items[..|items| - 1], items[|items| - 1];
      assert items == front + [last];
      TotalConcat(front, [last], Mass);
      Plus(ItemsWeight(front), last.body.weight)
  }

  /** The items' volumes added up, starting from 0 ml. */
  function ItemsVolume(items: seq<Item>): (v: Volume)
    ensures v.millilitres == Total(items, Space)
    decreases |items|
  {
    if |items| == 0 then Volume(0.0)
    else
      var front, last := items[..|items| - 1], items[|items| - 1];
      assert items == front + [last];
      TotalConcat(front, [last], Space);
      Volume(ItemsVolume(front).millilitres + VolumeOf(last.body).millilitres)
  }

  /** `weight`: the container's weight plus the items' weights. */
  function TotalWeight(p: Package): (w: Weight)
    ensures Grams(w) == Grams(ContainerWeight(p.container)) + Total(p.items, Mass)
  {
    Plus(ContainerWeight(p.container), ItemsWeight(p.items))
  }

  /** The room left in a container: a volume, or unlimited. */
  datatype Room = Finite(volume: Volume) | Unlimited

  /** `remaining_volume`: the container's capacity minus the items' volumes. */
  function RemainingVolume(p: Package): (r: Room)
    ensures r.Unlimited? <==> p.container.Unbounded?
    ensures r.Finite? ==>
              r.volume.millilitres == Capacity(p.container.box).millilitres - Total(p.items, Space)
  {
    match p.container
    case Unbounded => Unlimited
    case Bounded(b) => Finite(Volume(Capacity(b).millilitres - ItemsVolume(p.items).millilitres))
  }

  /** Filler of `density` (weight per millilitre) poured into `room`: the
      room's millilitres times the density, in the density's unit. */
  function FillWeight(room: Room, density: Weight): (r: Option<Weight>)
    ensures r.None? <==> room.Unlimited?
    ensures r.Some? ==> r.value.unit == density.unit
    ensures r.Some? ==> Grams(r.value) == Grams(density) * room.volume.millilitres
  {
    match room
    case Unlimited => None
    case Finite(v) =>
      assert density.magnitude * v.millilitres * GramsPer(density.unit)
          == density.magnitude * GramsPer(density.unit) * v.millilitres;
      Some(Weight(density.magnitude * v.millilitres, density.unit))
  }

  /** `void_fill_weight`: the remaining volume filled at the void-fill
      density; there is none to compute for an unbounded container. */
  function VoidFillWeight(p: Package): (r: Option<Weight>)
    ensures r.None? <==> p.container.Unbounded?
    ensures r.Some? ==> r.value.unit == p.voidFillDensity.unit
    ensures r.Some? ==>
              Grams(r.value) == Grams(p.voidFillDensity) * RemainingVolume(p).volume.millilitres
  {
    FillWeight(RemainingVolume(p), p.voidFillDensity)
  }

  /* ---------- how the aggregates follow `<<` and `>>` ---------- */

  /** Adding a new item adds its weight to the package's weight and takes its
      volume off the remaining volume; adding a present item changes neither. */
  lemma AddAccounting(p: Package, x: Item)
    ensures x !in p.items ==>
              Grams(TotalWeight(Add(p, x))) == Grams(TotalWeight(p)) + Grams(x.body.weight)
    ensures x !in p.items && p.container.Bounded? ==>
              RemainingVolume(Add(p, x)).volume.millilitres
              == RemainingVolume(p).volume.millilitres - VolumeOf(x.body).millilitres
    ensures x in p.items ==> TotalWeight(Add(p, x)) == TotalWeight(p)
  {
    TotalConcat(p.items, [x], Mass);
    TotalConcat(p.items, [x], Space);
  }

  /** Removing a present item takes its weight off the package's weight and
      gives its volume back to the remaining volume; removing an absent item
      changes neither. */
  lemma RemoveAccounting(p: Package, x: Item)
    requires Distinct(p.items)
    ensures x in p.items ==>
              Grams(TotalWeight(Remove(p, x))) == Grams(TotalWeight(p)) - Grams(x.body.weight)
    ensures x in p.items && p.container.Bounded? ==>
              RemainingVolume(Remove(p, x)).volume.millilitres
              == RemainingVolume(p).volume.millilitres + VolumeOf(x.body).millilitres
    ensures x !in p.items ==> TotalWeight(Remove(p, x)) == TotalWeight(p)
  {
    if x in p.items {
      TotalDelete(p.items, x, Mass);
      TotalDelete(p.items, x, Space);
    }
  }

  /** Weight, remaining volume and void-fill weight depend only on which items
      a package holds, not on the order they were added in. */
  lemma AggregatesIgnoreOrder(p: Package, q: Package)
    requires p.container == q.container && p.voidFillDensity == q.voidFillDensity
    requires Distinct(p.items) && Distinct(q.items)
    requires forall y :: y in p.items <==> y in q.items
    ensures SameWeight(TotalWeight(p), TotalWeight(q))
    ensures RemainingVolume(p) == RemainingVolume(q)
    ensures VoidFillWeight(p) == VoidFillWeight(q)
  {
    TotalDependsOnlyOnMembers(p.items, q.items, Mass);
    TotalDependsOnlyOnMembers(p.items, q.items, Space);
    assert ItemsVolume(p.items) == ItemsVolume(q.items);
    assert RemainingVolume(p) == RemainingVolume(q);
  }

  /** With no items, the weight is the container's and the remaining volume is
      the container's whole capacity. */
  lemma EmptyPackage(p: Package)
    requires p.items == []
    ensures SameWeight(TotalWeight(p), ContainerWeight(p.container))
    ensures p.container.Bounded? ==> RemainingVolume(p) == Finite(Capacity(p.container.box))
  {
  }

  /** A void-fill density of zero gives a void-fill weight of zero. */
  lemma ZeroDensityNoFill(p: Package)
    requires Grams(p.voidFillDensity) == 0.0 && p.container.Bounded?
    ensures Grams(VoidFillWeight(p).value) == 0.0
  {
  }
}
