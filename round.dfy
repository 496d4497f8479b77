/** The React round engine: the five pieces of round state, the drop handler
    that resolves a drop of item `id` onto the bin of a material, and the two
    timer callbacks that clear a bin's glow and info text. */
module Round {
  import opened Sorting
  import opened Catalog

  datatype Option<T> = None | Some(value: T)

  /** A bin's glow; a material missing from the glow map shows none. */
  datatype Glow = Success | Error

  /** `items.find(i => i.id === id)`: the first item carrying that id. */
  function Find(items: seq<TrashItem>, id: string): (r: Option<TrashItem>)
    ensures r.Some? ==> r.value.id == id
  {
    if items == [] then None
    else if items[0].id == id then Some(items[0])
    else Find(items[1..], id)
  }

  /** `find` comes back empty exactly when no item carries the id, and what it
      finds is one of the items. */
  lemma {:induction false} FindSpec(items: seq<TrashItem>, id: string)
    ensures Find(items, id).None? <==> forall i | 0 <= i < |items| :: items[i].id != id
    ensures Find(items, id).Some? ==> exists k | 0 <= k < |items| :: items[k] == Find(items, id).value
  {
    if items != [] {
      if items[0].id == id {
        assert items[0] == Find(items, id).value;
      } else {
        FindSpec(items[1..], id);
        assert forall i | 1 <= i < |items| :: items[i] == items[1..][i - 1];
        if Find(items[1..], id).Some? {
          var k :| 0 <= k < |items[1..]| && items[1..][k] == Find(items[1..], id).value;
          assert items[k + 1] == Find(items, id).value;
        }
      }
    }
  }

  /** `items.filter(i => i.id !== id)`. */
  function RemoveId(items: seq<TrashItem>, id: string): (r: seq<TrashItem>)
    ensures |r| <= |items|
    ensures forall i | 0 <= i < |r| :: r[i].id != id
  {
    if items == [] then []
    else if items[0].id == id then RemoveId(items[1..], id)
    else [items[0]] + RemoveId(items[1..], id)
  }

  /** After the filter no item carries `id`, and every other id is found just
      as before. */
  lemma {:induction false} RemoveIdFind(items: seq<TrashItem>, id: string, x: string)
    ensures Find(RemoveId(items, id), x) == if x == id then None else Find(items, x)
  {
    if items != [] {
      RemoveIdFind(items[1..], id, x);
      if items[0].id != id {
        var r := RemoveId(items, id);
        assert r[0] == items[0] && r[1..] == RemoveId(items[1..], id);
      }
    }
  }

  /** Filtering out an id nothing carries changes nothing. */
  lemma {:induction false} RemoveIdAbsent(items: seq<TrashItem>, id: string)
    requires Find(items, id).None?
    ensures RemoveId(items, id) == items
  {
    if items != [] {
      RemoveIdAbsent(items[1..], id);
      assert items == [items[0]] + items[1..];
    }
  }

  /** No two items share an id: the head's id is not found in the tail, and
      the tail has distinct ids. */
  predicate DistinctIds(items: seq<TrashItem>)
  {
    items == [] || (Find(items[1..], items[0].id).None? && DistinctIds(items[1..]))
  }

  /** With distinct ids, filtering out the id at position k removes exactly
      that entry and keeps the others in their order. */
  lemma {:induction false} RemoveIdAt(items: seq<TrashItem>, id: string, k: nat)
    requires DistinctIds(items)
    requires k < |items| && items[k].id == id
    ensures RemoveId(items, id) == items[..k] + items[k + 1..]
  {
    if k == 0 {
      RemoveIdAbsent(items[1..], id);
    } else {
      FindSpec(items[1..], items[0].id);
      assert items[1..][k - 1] == items[k];
      RemoveIdAt(items[1..], id, k - 1);
      assert items[1..][..k - 1] == items[1..k];
      assert items[..k] == [items[0]] + items[1..k];
    }
  }

  /** Removing by id a present item, whose ids are distinct, takes exactly one
      from the count of that item's material and leaves the other counts. */
  lemma {:induction false} RemoveIdCounts(items: seq<TrashItem>, id: string, m: Material)
    requires DistinctIds(items) && Find(items, id).Some?
    ensures CountOf(RemoveId(items, id), m)
         == CountOf(items, m) - (if Find(items, id).value.kind == m then 1 else 0)
  {
    if items[0].id == id {
      RemoveIdAbsent(items[1..], id);
    } else {
      RemoveIdCounts(items[1..], id, m);
      var r := RemoveId(items, id);
      assert r[0] == items[0] && r[1..] == RemoveId(items[1..], id);
    }
  }

  /** The filter keeps ids tagged and distinct. */
  lemma {:induction false} RemoveIdKeepsIds(items: seq<TrashItem>, id: string)
    requires Tagged(items) && DistinctIds(items)
    ensures Tagged(RemoveId(items, id)) && DistinctIds(RemoveId(items, id))
  {
    if items != [] {
      RemoveIdKeepsIds(items[1..], id);
      if items[0].id != id {
        var r := RemoveId(items, id);
        assert r[0] == items[0] && r[1..] == RemoveId(items[1..], id);
        RemoveIdFind(items[1..], id, items[0].id);
      }
    }
  }

  /** The item `find` returns has the material its id names. */
  lemma {:induction false} TaggedFind(items: seq<TrashItem>, id: string)
    requires Tagged(items) && Find(items, id).Some?
    ensures TrashType(id) == Name(Find(items, id).value.kind)
  {
    if items[0].id != id {
      TaggedFind(items[1..], id);
    }
  }

  /** For items whose ids are tagged with their material, the component's
      test "trash type of the id equals the bin's name" holds exactly when the
      found item is of the bin's material. */
  lemma MatchIsKind(items: seq<TrashItem>, id: string, bin: Material)
    requires Tagged(items) && Find(items, id).Some?
    ensures TrashType(id) == Name(bin) <==> Find(items, id).value.kind == bin
  {
    TaggedFind(items, id);
    if TrashType(id) == Name(bin) {
      NameInjective(Find(items, id).value.kind, bin);
    }
  }

  /** A map with an entry for every material. */
  predicate Keyed<V>(mp: map<Material, V>)
  {
    Plastic in mp && Paper in mp && Metal in mp && Glass in mp
  }

  /** Material `m` has a non-negative sorted count, and its sorted plus
      remaining items make its total. */
  predicate BalancedAt(items: seq<TrashItem>, counts: map<Material, int>, totals: map<Material, int>, m: Material)
  {
    m in counts && m in totals && 0 <= counts[m] && counts[m] + CountOf(items, m) == totals[m]
  }

  predicate Balanced(items: seq<TrashItem>, counts: map<Material, int>, totals: map<Material, int>)
  {
    && BalancedAt(items, counts, totals, Plastic) && BalancedAt(items, counts, totals, Paper)
    && BalancedAt(items, counts, totals, Metal) && BalancedAt(items, counts, totals, Glass)
  }

  /** The round invariant on the item list and the counts: ids are tagged and
      distinct, and every material is balanced. */
  predicate Consistent(items: seq<TrashItem>, counts: map<Material, int>, totals: map<Material, int>)
  {
    Tagged(items) && DistinctIds(items) && Balanced(items, counts, totals)
  }

  /** The points a material's count is worth: one per sorted item, five more
      once the count has reached the total. */
  function Points(counts: map<Material, int>, totals: map<Material, int>, m: Material): int
    requires m in counts && m in totals
  {
    counts[m] + (if counts[m] == totals[m] then 5 else 0)
  }

  /** The points all correct drops so far are worth. */
  function Earned(counts: map<Material, int>, totals: map<Material, int>): int
    requires Keyed(counts) && Keyed(totals)
  {
    Points(counts, totals, Plastic) + Points(counts, totals, Paper)
      + Points(counts, totals, Metal) + Points(counts, totals, Glass)
  }

  /** One more correct drop of a material not yet complete is worth 1, plus 5
      exactly when it completes the material. */
  lemma EarnedStep(counts: map<Material, int>, totals: map<Material, int>, m: Material)
    requires Keyed(counts) && Keyed(totals)
    requires counts[m] != totals[m]
    ensures Earned(counts[m := counts[m] + 1], totals)
         == Earned(counts, totals) + 1 + (if counts[m] + 1 == totals[m] then 5 else 0)
  {
    var next := counts[m := counts[m] + 1];
    forall x: Material | x != m ensures Points(next, totals, x) == Points(counts, totals, x) {
    }
  }


  /** The five state slots of a round as one value. */
  datatype RoundState = RoundState(items: seq<TrashItem>, score: int, sortedCounts: map<Material, int>,
                                   binGlow: map<Material, Glow>, infoByBin: map<Material, string>)

  /** What a drop leaves behind and which cue it plays. */
  datatype Step = Step(state: RoundState, outcome: DropOutcome)

  /** The state a mounted component starts from. */
  function FreshState(): RoundState
  {
    RoundState(InitialItems(), 0, ZeroCounts(), map[], map[])
  }

  /** `materialInfo[m][i]`. A missing entry reads `undefined`, which the bin
      renders like the empty text. */
  function FactAt(info: map<Material, seq<string>>, m: Material, i: int): (f: string)
    ensures f == "" || (m in info && f in info[m])
  {
    if m in info && 0 <= i < |info[m]| then info[m][i] else ""
  }

  /** `handleCorrectDrop(material, droppedId)`: the item is filtered out, the
      score rises by one, the count by one, the bin shows the fact for the
      new count and glows green, and 5 more points come when the count
      reaches the total. */
  function CorrectDrop(s: RoundState, totals: map<Material, int>,
                       info: map<Material, seq<string>>, material: Material, droppedId: string): (r: Step)
    requires material in s.sortedCounts && material in totals
    ensures r.outcome.Sorted? && r.state.sortedCounts.Keys == s.sortedCounts.Keys
  {
    var count := s.sortedCounts[material] + 1;
    var bonus := count == totals[material];
    Step(RoundState(RemoveId(s.items, droppedId),
                    s.score + 1 + (if bonus then 5 else 0),
                    s.sortedCounts[material := count],
                    s.binGlow[material := Success],
                    s.infoByBin[material := FactAt(info, material, count - 1)]),
         Sorted(bonus))
  }

  /** `handleWrongDrop(material)`: one point off and a red glow. */
  function WrongDrop(s: RoundState, material: Material): (r: RoundState)
    ensures r.items == s.items && r.sortedCounts == s.sortedCounts && r.infoByBin == s.infoByBin
    ensures r.score == s.score - 1 && r.binGlow.Keys == s.binGlow.Keys + {material}
    ensures forall m | m in r.binGlow :: r.binGlow[m] == if m == material then Error else s.binGlow[m]
  {
    s.(score := s.score - 1, binGlow := s.binGlow[material := Error])
  }

  /** `onDrop`: item `id` released over the bin of `bin`. */
  function OnDrop(s: RoundState, totals: map<Material, int>,
                  info: map<Material, seq<string>>, id: string, bin: Material): (r: Step)
    requires Keyed(s.sortedCounts) && Keyed(totals)
    ensures Keyed(r.state.sortedCounts)
  {
    if Find(s.items, id).None? then Step(s, Ignored)
    else if TrashType(id) == Name(bin) then CorrectDrop(s, totals, info, bin, id)
    else Step(WrongDrop(s, bin), Missorted)
  }

  /** A drop of an id no longer in the list changes nothing; in particular
      once the list is empty every drop is ignored. */
  lemma DropOfMissingIdIsIgnored(s: RoundState, totals: map<Material, int>,
                                 info: map<Material, seq<string>>, id: string, bin: Material)
    requires Keyed(s.sortedCounts) && Keyed(totals)
    requires forall i | 0 <= i < |s.items| :: s.items[i].id != id
    ensures OnDrop(s, totals, info, id, bin) == Step(s, Ignored)
  {
    FindSpec(s.items, id);
  }

  /** The three outcomes of a drop, and the score change each brings. */
  lemma DropOutcomes(s: RoundState, totals: map<Material, int>,
                     info: map<Material, seq<string>>, id: string, bin: Material)
    requires Keyed(s.sortedCounts) && Keyed(totals)
    ensures var r := OnDrop(s, totals, info, id, bin);
            && (r.outcome == Ignored <==> Find(s.items, id).None?)
            && (r.outcome.Sorted? <==> Find(s.items, id).Some? && TrashType(id) == Name(bin))
            && (r.outcome == Missorted <==> Find(s.items, id).Some? && TrashType(id) != Name(bin))
            && r.state.score - s.score == match r.outcome
                                          case Ignored => 0
                                          case Sorted(bonus) => if bonus then 6 else 1
                                          case Missorted => -1
  {
  }

  /** A correct drop raises only the bin's count, by one, and awards the bonus
      exactly when the raised count equals the total; the bin glows green. */
  lemma CorrectDropCounts(s: RoundState, totals: map<Material, int>,
                          info: map<Material, seq<string>>, id: string, bin: Material)
    requires Keyed(s.sortedCounts) && Keyed(totals)
    requires OnDrop(s, totals, info, id, bin).outcome.Sorted?
    ensures var r := OnDrop(s, totals, info, id, bin);
            && r.state.sortedCounts[bin] == s.sortedCounts[bin] + 1
            && (forall m: Material | m != bin :: r.state.sortedCounts[m] == s.sortedCounts[m])
            && (r.outcome.bonus <==> r.state.sortedCounts[bin] == totals[bin])
            && r.state.binGlow == s.binGlow[bin := Success]
  {
  }

  /** A wrong drop leaves the items, the counts and the info texts alone and
      sets the bin's glow to red. */
  lemma WrongDropKeepsItems(s: RoundState, totals: map<Material, int>,
                            info: map<Material, seq<string>>, id: string, bin: Material)
    requires Keyed(s.sortedCounts) && Keyed(totals)
    requires OnDrop(s, totals, info, id, bin).outcome == Missorted
    ensures var r := OnDrop(s, totals, info, id, bin);
            && r.state.items == s.items && r.state.sortedCounts == s.sortedCounts
            && r.state.infoByBin == s.infoByBin && r.state.binGlow == s.binGlow[bin := Error]
  {
  }

  /** With tagged ids, a drop of a present item is correct exactly when the
      item is of the bin's material. */
  lemma DropIsCorrectIffKind(s: RoundState, totals: map<Material, int>,
                             info: map<Material, seq<string>>, id: string, bin: Material)
    requires Keyed(s.sortedCounts) && Keyed(totals) && Tagged(s.items)
    requires Find(s.items, id).Some?
    ensures OnDrop(s, totals, info, id, bin).outcome.Sorted? <==> Find(s.items, id).value.kind == bin
    ensures OnDrop(s, totals, info, id, bin).outcome == Missorted <==> Find(s.items, id).value.kind != bin
  {
    MatchIsKind(s.items, id, bin);
  }

  /** With distinct ids, a correct drop of the item at position k removes
      that entry and keeps every other item in its order. */
  lemma CorrectDropRemovesEntry(s: RoundState, totals: map<Material, int>,
                                info: map<Material, seq<string>>, id: string, bin: Material, k: nat)
    requires Keyed(s.sortedCounts) && Keyed(totals) && DistinctIds(s.items)
    requires k < |s.items| && s.items[k].id == id && TrashType(id) == Name(bin)
    ensures OnDrop(s, totals, info, id, bin).state.items == s.items[..k] + s.items[k + 1..]
  {
    FindSpec(s.items, id);
    RemoveIdAt(s.items, id, k);
  }

  /** The whole round invariant: totals of two, consistent items and counts,
      and a score equal to what the correct drops earned minus one per wrong
      drop. */
  predicate Inv(s: RoundState, totals: map<Material, int>, wrongDrops: int)
  {
    && TwoOfEach(totals)
    && Consistent(s.items, s.sortedCounts, totals)
    && s.score == Earned(s.sortedCounts, totals) - wrongDrops
  }

  /** Filtering out a present item of material `bin` and raising `bin`'s
      count by one keeps material `m` balanced. */
  lemma RemoveKeepsBalance(items: seq<TrashItem>, counts: map<Material, int>, totals: map<Material, int>,
                           id: string, bin: Material, m: Material)
    requires DistinctIds(items) && Find(items, id).Some? && Find(items, id).value.kind == bin
    requires BalancedAt(items, counts, totals, m) && bin in counts
    ensures BalancedAt(RemoveId(items, id), counts[bin := counts[bin] + 1], totals, m)
  {
    RemoveIdCounts(items, id, m);
  }

  /** A correct drop of a present item keeps the item list and the counts
      consistent. Before the drop the bin's count is below its total, and the
      raised count reaches the total exactly when the dropped item was the
      last of its material. */
  lemma CorrectDropConsistent(items: seq<TrashItem>, counts: map<Material, int>, totals: map<Material, int>,
                              id: string, bin: Material)
    requires Consistent(items, counts, totals)
    requires Find(items, id).Some? && TrashType(id) == Name(bin)
    ensures bin in counts && bin in totals && 0 <= counts[bin] < totals[bin]
    ensures counts[bin] + 1 == totals[bin] <==> CountOf(items, bin) == 1
    ensures Consistent(RemoveId(items, id), counts[bin := counts[bin] + 1], totals)
  {
    MatchIsKind(items, id, bin);
    RemoveIdKeepsIds(items, id);
    assert BalancedAt(items, counts, totals, bin);
    FindSpec(items, id);
    CountOfZero(items, bin);
    RemoveKeepsBalance(items, counts, totals, id, bin, Plastic);
    RemoveKeepsBalance(items, counts, totals, id, bin, Paper);
    RemoveKeepsBalance(items, counts, totals, id, bin, Metal);
    RemoveKeepsBalance(items, counts, totals, id, bin, Glass);
  }

  /** A correct drop of a present item keeps the invariant, and the bonus
      comes exactly when the dropped item was the last of its material. */
  lemma CorrectDropKeepsInv(s: RoundState, totals: map<Material, int>, info: map<Material, seq<string>>,
                            wrongDrops: int, id: string, bin: Material)
    requires Inv(s, totals, wrongDrops)
    requires Find(s.items, id).Some? && TrashType(id) == Name(bin)
    ensures var r := CorrectDrop(s, totals, info, bin, id);
            && Inv(r.state, totals, wrongDrops)
            && (r.outcome.bonus <==> CountOf(s.items, bin) == 1)
  {
    CorrectDropConsistent(s.items, s.sortedCounts, totals, id, bin);
    EarnedStep(s.sortedCounts, totals, bin);
  }

  /** The count before a correct drop is 0 or 1, so the bin shows the first
      or the second of its material's two facts: the one for the new count.
      The other bins keep their texts. */
  lemma CorrectDropShowsFact(s: RoundState, totals: map<Material, int>, info: map<Material, seq<string>>,
                             wrongDrops: int, id: string, bin: Material)
    requires Inv(s, totals, wrongDrops) && TwoFacts(info)
    requires Find(s.items, id).Some? && TrashType(id) == Name(bin)
    ensures 0 <= s.sortedCounts[bin] <= 1
    ensures CorrectDrop(s, totals, info, bin, id).state.infoByBin == s.infoByBin[bin := info[bin][s.sortedCounts[bin]]]
  {
    CorrectDropConsistent(s.items, s.sortedCounts, totals, id, bin);
    assert FactAt(info, bin, s.sortedCounts[bin]) == info[bin][s.sortedCounts[bin]];
  }

  /** Every drop keeps the invariant; a wrong drop adds one to the tally of
      wrong drops. */
  lemma DropKeepsInv(s: RoundState, totals: map<Material, int>,
                     info: map<Material, seq<string>>, wrongDrops: int, id: string, bin: Material)
    requires Inv(s, totals, wrongDrops)
    ensures Keyed(s.sortedCounts) && Keyed(totals)
    ensures var r := OnDrop(s, totals, info, id, bin);
            Inv(r.state, totals, wrongDrops + (if r.outcome == Missorted then 1 else 0))
  {
    if Find(s.items, id).Some? && TrashType(id) == Name(bin) {
      CorrectDropKeepsInv(s, totals, info, wrongDrops, id, bin);
    }
  }

  /** Once a material's count has reached its total, no remaining item has an
      id of that material: no later drop onto its bin can be correct. */
  lemma CompletedMaterialIsClosed(items: seq<TrashItem>, counts: map<Material, int>,
                                  totals: map<Material, int>, m: Material, id: string)
    requires Consistent(items, counts, totals)
    requires m in counts && m in totals && counts[m] == totals[m]
    requires Find(items, id).Some?
    ensures TrashType(id) != Name(m)
  {
    MatchIsKind(items, id, m);
    assert BalancedAt(items, counts, totals, m);
    CountOfZero(items, m);
    FindSpec(items, id);
  }

  /** One drop event: an item id released over a material's bin. */
  datatype DropEvent = DropEvent(id: string, bin: Material)

  /** The state after a sequence of drops, one after the other. */
  function Play(s: RoundState, totals: map<Material, int>,
                info: map<Material, seq<string>>, drops: seq<DropEvent>): (r: RoundState)
    requires Keyed(s.sortedCounts) && Keyed(totals)
    ensures Keyed(r.sortedCounts)
    decreases |drops|
  {
    if drops == [] then s
    else Play(OnDrop(s, totals, info, drops[0].id, drops[0].bin).state, totals, info, drops[1..])
  }

  /** How many of the drops were wrong. */
  function Misses(s: RoundState, totals: map<Material, int>,
                  info: map<Material, seq<string>>, drops: seq<DropEvent>): nat
    requires Keyed(s.sortedCounts) && Keyed(totals)
    decreases |drops|
  {
    if drops == [] then 0
    else
      var r := OnDrop(s, totals, info, drops[0].id, drops[0].bin);
      (if r.outcome == Missorted then 1 else 0) + Misses(r.state, totals, info, drops[1..])
  }

  /** How many of the drops awarded the bonus for material `m`. */
  function Bonuses(s: RoundState, totals: map<Material, int>,
                   info: map<Material, seq<string>>, drops: seq<DropEvent>, m: Material): nat
    requires Keyed(s.sortedCounts) && Keyed(totals)
    decreases |drops|
  {
    if drops == [] then 0
    else
      var r := OnDrop(s, totals, info, drops[0].id, drops[0].bin);
      (if r.outcome == Sorted(true) && drops[0].bin == m then 1 else 0) + Bonuses(r.state, totals, info, drops[1..], m)
  }

  /** Any sequence of drops keeps the invariant, so the score is always what
      the correct drops earned minus one per wrong drop. */
  lemma {:induction false} PlayKeepsInv(s: RoundState, totals: map<Material, int>,
                                        info: map<Material, seq<string>>, wrongDrops: int,
                                        drops: seq<DropEvent>)
    requires Inv(s, totals, wrongDrops)
    ensures Keyed(s.sortedCounts) && Keyed(totals)
    ensures Inv(Play(s, totals, info, drops), totals, wrongDrops + Misses(s, totals, info, drops))
    decreases |drops|
  {
    if drops != [] {
      var r := OnDrop(s, totals, info, drops[0].id, drops[0].bin);
      DropKeepsInv(s, totals, info, wrongDrops, drops[0].id, drops[0].bin);
      PlayKeepsInv(r.state, totals, info, wrongDrops + (if r.outcome == Missorted then 1 else 0), drops[1..]);
    }
  }

  /** One drop cannot award the bonus for `m` to a material already complete,
      and the drop that awards it leaves the material complete; a complete
      material stays complete. */
  lemma BonusStep(s: RoundState, totals: map<Material, int>,
                  info: map<Material, seq<string>>, wrongDrops: int, id: string, bin: Material, m: Material)
    requires Inv(s, totals, wrongDrops)
    ensures Keyed(s.sortedCounts) && Keyed(totals)
    ensures var r := OnDrop(s, totals, info, id, bin);
            (if r.outcome == Sorted(true) && bin == m then 1 else 0) + (if s.sortedCounts[m] == totals[m] then 1 else 0)
            <= (if r.state.sortedCounts[m] == totals[m] then 1 else 0)
  {
    assert BalancedAt(s.items, s.sortedCounts, totals, m);
    if s.sortedCounts[m] == totals[m] && Find(s.items, id).Some? {
      CompletedMaterialIsClosed(s.items, s.sortedCounts, totals, m, id);
    }
  }

  /** The bonus for a material is awarded at most once in a round: not at all
      once the material is complete, and at most once before. */
  lemma {:induction false} BonusAtMostOnce(s: RoundState, totals: map<Material, int>,
                                           info: map<Material, seq<string>>, wrongDrops: int,
                                           drops: seq<DropEvent>, m: Material)
    requires Inv(s, totals, wrongDrops)
    ensures Keyed(s.sortedCounts) && Keyed(totals)
    ensures Bonuses(s, totals, info, drops, m) + (if s.sortedCounts[m] == totals[m] then 1 else 0) <= 1
    decreases |drops|
  {
    if drops != [] {
      var e := drops[0];
      var r := OnDrop(s, totals, info, e.id, e.bin);
      var w := wrongDrops + (if r.outcome == Missorted then 1 else 0);
      DropKeepsInv(s, totals, info, wrongDrops, e.id, e.bin);
      BonusAtMostOnce(r.state, totals, info, w, drops[1..], m);
      BonusStep(s, totals, info, wrongDrops, e.id, e.bin, m);
    }
  }

  /** Once no item is left, no sequence of drops changes anything. */
  lemma {:induction false} EmptyRoundIgnoresDrops(s: RoundState, totals: map<Material, int>,
                                                  info: map<Material, seq<string>>, drops: seq<DropEvent>)
    requires Keyed(s.sortedCounts) && Keyed(totals) && s.items == []
    ensures Play(s, totals, info, drops) == s
    ensures Misses(s, totals, info, drops) == 0
    decreases |drops|
  {
    if drops != [] {
      EmptyRoundIgnoresDrops(s, totals, info, drops[1..]);
    }
  }

  /** When no item is left every material is complete, so the correct drops
      of a round are worth 4 * (2 + 5) = 28 points in all. */
  lemma EmptyRoundEarnsAll(counts: map<Material, int>, totals: map<Material, int>)
    requires Consistent([], counts, totals) && TwoOfEach(totals)
    ensures Keyed(counts) && Earned(counts, totals) == 28
  {
  }

  /** The catalog ids are pairwise different. */
  lemma CatalogDistinct()
    ensures DistinctIds(InitialItems())
  {
  }

  /** The round a fresh component starts from satisfies the invariant with
      no wrong drops. */
  lemma FreshRound()
    ensures Inv(FreshState(), TotalCounts(InitialItems()), 0)
  {
    CatalogTagged();
    CatalogDistinct();
    CatalogTotals();
    UnsortedIsConsistent(InitialItems());
  }

  /** Before any drop, tagged items with distinct ids are consistent with
      zero counts and their own totals, and nothing is earned yet. */
  lemma UnsortedIsConsistent(items: seq<TrashItem>)
    requires Tagged(items) && DistinctIds(items) && TwoOfEach(TotalCounts(items))
    ensures Consistent(items, ZeroCounts(), TotalCounts(items))
    ensures Earned(ZeroCounts(), TotalCounts(items)) == 0
  {
    TotalCountsAreCounts(items);
    ZeroCountsAtZero();
  }

  /** One mounted Trash Sorter round. The fields are the component's state
      slots; `totalCounts` and `materialInfo` are the constants it reads. */
  class TrashSorterGame {
    var items: seq<TrashItem>
    var score: int
    var sortedCounts: map<Material, int>
    var binGlow: map<Material, Glow>
    var infoByBin: map<Material, string>
    const totalCounts: map<Material, int>
    const materialInfo: map<Material, seq<string>>

    /** The five slots as one value. */
    ghost function State(): RoundState
      reads this
    {
      RoundState(items, score, sortedCounts, binGlow, infoByBin)
    }

    /** Every material has a count and a total. */
    ghost predicate Valid()
      reads this
    {
      Keyed(sortedCounts) && Keyed(totalCounts)
    }

    /** A fresh round: all eight items, score 0, every count 0, no glow, no
        info text; the totals are the catalog's per-material counts. */
    constructor ()
      ensures Valid() && State() == FreshState()
      ensures totalCounts == TotalCounts(InitialItems()) && materialInfo == MaterialInfo()
    {
      items := InitialItems();
      score := 0;
      sortedCounts := ZeroCounts();
      binGlow := map[];
      infoByBin := map[];
      totalCounts := TotalCounts(InitialItems());
      materialInfo := MaterialInfo();
      new;
      CatalogTotals();
    }

    /** `handleCorrectDrop`, one state update after the other. */
    method HandleCorrectDrop(material: Material, droppedId: string) returns (bonus: bool)
      requires Valid()
      modifies this
      ensures Valid()
      ensures Step(State(), Sorted(bonus)) == CorrectDrop(old(State()), totalCounts, materialInfo, material, droppedId)
    {
      items := RemoveId(items, droppedId);
      score := score + 1;
      sortedCounts := sortedCounts[material := sortedCounts[material] + 1];
      var infoIndex := sortedCounts[material] - 1;
      infoByBin := infoByBin[material := FactAt(materialInfo, material, infoIndex)];
      bonus := sortedCounts[material] == totalCounts[material];
      if bonus {
        score := score + 5;
      }
      binGlow := binGlow[material := Success];
    }

    /** `handleWrongDrop`. */
    method HandleWrongDrop(material: Material)
      requires Valid()
      modifies this
      ensures Valid() && State() == WrongDrop(old(State()), material)
    {
      score := score - 1;
      binGlow := binGlow[material := Error];
    }

    /** `onDrop`: item `id` was released over the bin of `bin`. */
    method Drop(id: string, bin: Material) returns (outcome: DropOutcome)
      requires Valid()
      modifies this
      ensures Valid()
      ensures Step(State(), outcome) == OnDrop(old(State()), totalCounts, materialInfo, id, bin)
    {
      var item := Find(items, id);
      if item.None? {
        return Ignored;
      }
      var trashType := TrashType(id);
      if trashType == Name(bin) {
        var bonus := HandleCorrectDrop(bin, id);
        outcome := Sorted(bonus);
      } else {
        HandleWrongDrop(bin);
        outcome := Missorted;
      }
    }

    /** The 3000 ms callback after a correct drop: the bin's info text becomes
        empty. Nothing else changes. */
    method ExpireInfo(m: Material)
      requires Valid()
      modifies this
      ensures Valid() && State() == old(State()).(infoByBin := old(infoByBin)[m := ""])
    {
      infoByBin := infoByBin[m := ""];
    }

    /** The 500 ms (success) or 1000 ms (error) callback: the bin's glow is
        cleared. Nothing else changes. */
    method ExpireGlow(m: Material)
      requires Valid()
      modifies this
      ensures Valid() && State() == old(State()).(binGlow := old(binGlow) - {m})
    {
      binGlow := binGlow - {m};
    }
  }
}
