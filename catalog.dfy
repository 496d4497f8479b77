/** The fixed data of one Trash Sorter round: the four materials, the eight
    items a round starts with, the two facts per material, and the per-material
    totals computed from the items. */
module Catalog {
  import opened Sorting

  /** The closed set of recycling materials; each names one bin. */
  datatype Material = Plastic | Paper | Metal | Glass

  /** The material's name as the component spells it (and as the item ids
      start). */
  function Name(m: Material): (s: string)
    ensures '_' !in s
  {
    match m
    case Plastic => "plastic"
    case Paper => "paper"
    case Metal => "metal"
    case Glass => "glass"
  }

  lemma NameInjective(a: Material, b: Material)
    requires Name(a) == Name(b)
    ensures a == b
  {
    assert Name(a)[0] == Name(b)[0];
    if Name(a)[0] == 'p' { assert Name(a)[1] == Name(b)[1]; }
  }

  /** One draggable item. `src` is the bundled image reference, `alt` its text;
      neither takes part in scoring. */
  datatype TrashItem = TrashItem(id: string, kind: Material, src: string, alt: string)

  /** The round's starting items, in display order. */
  function InitialItems(): (items: seq<TrashItem>)
    ensures |items| == 8
  {
    [ TrashItem("plastic_1", Plastic, "/images/plastic_bottle.png", "Plastic bottle"),
      TrashItem("plastic_2", Plastic, "/images/plastic_bag.png", "Plastic bag"),
      TrashItem("paper_1", Paper, "/images/paper_bag_1.png", "Paper bag 1"),
      TrashItem("paper_2", Paper, "/images/paper_bag_2.png", "Paper bag 2"),
      TrashItem("metal_1", Metal, "/images/metal_can_1.png", "Metal can 1"),
      TrashItem("metal_2", Metal, "/images/metal_can_2.png", "Metal can 2"),
      TrashItem("glass_1", Glass, "/images/glass_bottle.png", "Glass bottle"),
      TrashItem("glass_2", Glass, "/images/glass_jar.png", "Glass jar") ]
  }

  /** Two facts for every material. */
  predicate TwoFacts(info: map<Material, seq<string>>)
  {
    forall m: Material :: m in info && |info[m]| == 2
  }

  /** The facts shown in a material's bin: the first on the first correct
      drop of that material, the second on the second. */
  function MaterialInfo(): (info: map<Material, seq<string>>)
    ensures Plastic in info && Paper in info && Metal in info && Glass in info
  {
    map[Plastic := ["Plastic takes hundreds of years to decompose.",
                    "Recycling helps reduce pollution!"],
        Paper := ["Paper is made from trees.",
                  "Recycling saves forests and reduces waste."],
        Metal := ["Metal is highly recyclable.",
                  "It can be melted and reused many times."],
        Glass := ["Glass is 100% recyclable.",
                  "It can be reused without losing quality."]]
  }

  /** Every material has its two facts. */
  lemma MaterialInfoShaped()
    ensures TwoFacts(MaterialInfo())
  {
    forall m: Material ensures m in MaterialInfo() && |MaterialInfo()[m]| == 2 {
      match m
      case Plastic =>
      case Paper =>
      case Metal =>
      case Glass =>
    }
  }

  /** Every id names its own material before its underscore. */
  predicate Tagged(items: seq<TrashItem>)
  {
    items == [] || (TrashType(items[0].id) == Name(items[0].kind) && Tagged(items[1..]))
  }

  /** The number of items of material `m` (the reference definition of a
      per-material count). */
  function CountOf(items: seq<TrashItem>, m: Material): (n: nat)
    ensures n <= |items|
  {
    if items == [] then 0
    else (if items[0].kind == m then 1 else 0) + CountOf(items[1..], m)
  }

  /** The count is zero exactly when no item is of that material. */
  lemma {:induction false} CountOfZero(items: seq<TrashItem>, m: Material)
    ensures CountOf(items, m) == 0 <==> forall i | 0 <= i < |items| :: items[i].kind != m
  {
    if items != [] {
      CountOfZero(items[1..], m);
      assert forall i | 1 <= i < |items| :: items[i] == items[1..][i - 1];
    }
  }

  /** Every material at zero: the seed of the totals and the starting
      sorted counts. */
  function ZeroCounts(): map<Material, int>
  {
    map[Plastic := 0, Paper := 0, Metal := 0, Glass := 0]
  }

  lemma ZeroCountsAtZero()
    ensures forall m: Material :: m in ZeroCounts() && ZeroCounts()[m] == 0
  {
    forall m: Material ensures m in ZeroCounts() && ZeroCounts()[m] == 0 {
      match m
      case Plastic =>
      case Paper =>
      case Metal =>
      case Glass =>
    }
  }

  /** The left fold that computes the totals: each item adds one to its
      material's entry, starting from 0 when the entry is missing. */
  function Tally(acc: map<Material, int>, items: seq<TrashItem>): (r: map<Material, int>)
    ensures acc.Keys <= r.Keys
    decreases |items|
  {
    if items == [] then acc
    else
      var k := items[0].kind;
      Tally(acc[k := (if k in acc then acc[k] else 0) + 1], items[1..])
  }

  /** How many items of each material a round holds. */
  function TotalCounts(items: seq<TrashItem>): (r: map<Material, int>)
    ensures Plastic in r && Paper in r && Metal in r && Glass in r
  {
    Tally(ZeroCounts(), items)
  }

  /** The fold adds exactly the per-material count to what it starts from. */
  lemma {:induction false} TallyAddsCounts(acc: map<Material, int>, items: seq<TrashItem>, m: Material)
    requires m in acc
    ensures m in Tally(acc, items)
    ensures Tally(acc, items)[m] == acc[m] + CountOf(items, m)
    decreases |items|
  {
    if items != [] {
      var k := items[0].kind;
      TallyAddsCounts(acc[k := (if k in acc then acc[k] else 0) + 1], items[1..], m);
    }
  }

  /** The totals are the per-material counts, for any item list. */
  lemma TotalCountsAreCounts(items: seq<TrashItem>)
    ensures forall m: Material :: m in TotalCounts(items) && TotalCounts(items)[m] == CountOf(items, m)
  {
    ZeroCountsAtZero();
    forall m: Material
      ensures m in TotalCounts(items) && TotalCounts(items)[m] == CountOf(items, m)
    {
      TallyAddsCounts(ZeroCounts(), items, m);
    }
  }

  /** Counting distributes over concatenation. */
  lemma {:induction false} CountOfAppend(a: seq<TrashItem>, b: seq<TrashItem>, m: Material)
    ensures CountOf(a + b, m) == CountOf(a, m) + CountOf(b, m)
  {
    if a != [] {
      assert (a + b)[1..] == a[1..] + b;
      CountOfAppend(a[1..], b, m);
    } else {
      assert a + b == b;
    }
  }

  /** Two consecutive catalog entries of one material. */
  lemma PairCount(pair: seq<TrashItem>, k: Material, m: Material)
    requires |pair| == 2 && pair[0].kind == k && pair[1].kind == k
    ensures CountOf(pair, m) == if m == k then 2 else 0
  {
    assert pair[1..][1..] == [];
  }

  /** The catalog holds eight items, two of each material. */
  lemma CatalogCounts()
    ensures |InitialItems()| == 8
    ensures forall m: Material :: CountOf(InitialItems(), m) == 2
  {
    var items := InitialItems();
    var plastics, papers, metals, glasses := items[..2], items[2..4], items[4..6], items[6..];
    assert items == plastics + papers + metals + glasses;
    forall m: Material ensures CountOf(items, m) == 2 {
      PairCount(plastics, Plastic, m);
      PairCount(papers, Paper, m);
      PairCount(metals, Metal, m);
      PairCount(glasses, Glass, m);
      CountOfAppend(plastics + papers + metals, glasses, m);
      CountOfAppend(plastics + papers, metals, m);
      CountOfAppend(plastics, papers, m);
    }
  }

  /** A total of two items for material `m`. */
  predicate TotalIsTwo(totals: map<Material, int>, m: Material)
  {
    m in totals && totals[m] == 2
  }

  /** Totals of two items for every material. */
  predicate TwoOfEach(totals: map<Material, int>)
  {
    && TotalIsTwo(totals, Plastic) && TotalIsTwo(totals, Paper)
    && TotalIsTwo(totals, Metal) && TotalIsTwo(totals, Glass)
  }

  /** So every total the component computes is 2. */
  lemma CatalogTotals()
    ensures TwoOfEach(TotalCounts(InitialItems()))
  {
    CatalogCounts();
    TotalCountsAreCounts(InitialItems());
  }

  /** The recursive definition of `Tagged` says the same as its pointwise
      reading. */
  lemma {:induction false} TaggedPointwise(items: seq<TrashItem>)
    ensures Tagged(items) <==> forall i | 0 <= i < |items| :: TrashType(items[i].id) == Name(items[i].kind)
  {
    if items != [] {
      TaggedPointwise(items[1..]);
      assert forall i | 1 <= i < |items| :: items[i] == items[1..][i - 1];
    }
  }

  /** Every catalog id is `<material name>_<n>` for the item's own material. */
  lemma CatalogTagged()
    ensures Tagged(InitialItems())
  {
    var items := InitialItems();
    forall i | 0 <= i < |items| ensures TrashType(items[i].id) == Name(items[i].kind) {
      var n := if i % 2 == 0 then "1" else "2";
      assert items[i].id == Name(items[i].kind) + "_" + n;
      TrashTypeOfTagged(Name(items[i].kind), n);
    }
    TaggedPointwise(items);
  }
}
