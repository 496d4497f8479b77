/** The first, plain-script version of the game: a page whose trash elements
    are dragged onto bin elements. Its round state is a running score and a
    per-type count object; the per-type totals are counted from the page once
    and are taken here as given. */
module Prototype {
  import opened Sorting
  import opened Catalog

  /** A value in the count object. A type the object has no entry for reads
      `undefined`, and `undefined++` stores `NaN`, which `++` keeps. */
  datatype Count = Num(n: int) | NaN

  /** `c++`. */
  function Incr(c: Count): (r: Count)
    ensures r.Num? <==> c.Num?
    ensures r.Num? ==> r.n == c.n + 1
  {
    match c
    case Num(n) => Num(n + 1)
    case NaN => NaN
  }

  /** `sortedCounts[t]`, with a missing entry behaving as `NaN` under `++`. */
  function CountAt(counts: map<string, Count>, t: string): (c: Count)
    ensures t in counts ==> c == counts[t]
    ensures t !in counts ==> c == NaN
  {
    if t in counts then counts[t] else NaN
  }

  /** The score and the count object. */
  datatype ScriptState = ScriptState(score: int, sortedCounts: map<string, Count>)

  /** What a drop leaves behind and which cue it plays. */
  datatype ScriptStep = ScriptStep(state: ScriptState, outcome: DropOutcome)

  /** The four counts the page starts with. */
  function StartCounts(): map<string, Count>
  {
    map["plastic" := Num(0), "paper" := Num(0), "metal" := Num(0), "glass" := Num(0)]
  }

  /** `drop`: the element with id `trashId` released over the bin with id
      `binId`; `found` says whether the page still holds that element. The
      drop is correct when the bin id starts with the trash type. A correct
      drop of an element the page no longer holds stops at `appendChild(null)`,
      which throws before anything changes. */
  function ScriptDrop(st: ScriptState, totals: map<string, nat>, trashId: string, binId: string, found: bool)
    : (r: ScriptStep)
    ensures r.outcome == Missorted <==> !StartsWith(binId, TrashType(trashId))
    ensures r.outcome != Missorted ==> r.state.score >= st.score
  {
    var trashType := TrashType(trashId);
    if StartsWith(binId, trashType) then
      if !found then ScriptStep(st, Ignored)
      else
        var count := Incr(CountAt(st.sortedCounts, trashType));
        var bonus := trashType in totals && count == Num(totals[trashType]);
        ScriptStep(ScriptState(st.score + 1 + (if bonus then 5 else 0), st.sortedCounts[trashType := count]),
                   Sorted(bonus))
    else
      ScriptStep(st.(score := st.score - 1), Missorted)
  }

  /** The three outcomes of a drop and the score change each brings: a drop is
      scored as correct exactly when the bin id starts with the trash type. */
  lemma ScriptDropOutcomes(st: ScriptState, totals: map<string, nat>, trashId: string, binId: string, found: bool)
    ensures var r := ScriptDrop(st, totals, trashId, binId, found);
            && (r.outcome.Sorted? <==> StartsWith(binId, TrashType(trashId)) && found)
            && (r.outcome == Missorted <==> !StartsWith(binId, TrashType(trashId)))
            && (r.outcome == Ignored <==> StartsWith(binId, TrashType(trashId)) && !found)
            && r.state.score - st.score == match r.outcome
                                           case Ignored => 0
                                           case Sorted(bonus) => if bonus then 6 else 1
                                           case Missorted => -1
  {
  }

  /** A correct drop raises the entry of the trash type by one (a `NaN` or
      missing entry becomes `NaN`) and no other entry; the bonus comes
      exactly when the raised entry equals the type's total. */
  lemma ScriptCorrectDropCounts(st: ScriptState, totals: map<string, nat>, trashId: string, binId: string, found: bool)
    requires ScriptDrop(st, totals, trashId, binId, found).outcome.Sorted?
    ensures var r := ScriptDrop(st, totals, trashId, binId, found);
            var t := TrashType(trashId);
            && r.state.sortedCounts.Keys == st.sortedCounts.Keys + {t}
            && r.state.sortedCounts[t] == Incr(CountAt(st.sortedCounts, t))
            && (forall k | k in st.sortedCounts && k != t :: r.state.sortedCounts[k] == st.sortedCounts[k])
            && (r.outcome.bonus <==> t in totals && r.state.sortedCounts[t] == Num(totals[t]))
  {
  }

  /** A wrong drop takes one point and leaves the count object alone. */
  lemma ScriptWrongDropKeepsCounts(st: ScriptState, totals: map<string, nat>, trashId: string, binId: string, found: bool)
    requires ScriptDrop(st, totals, trashId, binId, found).outcome == Missorted
    ensures ScriptDrop(st, totals, trashId, binId, found).state == st.(score := st.score - 1)
  {
  }

  /** For the page's own ids (`<material>_<n>`) and bin ids
      (`<material>-bin`), the prefix test says the same as the component's
      equality test: the material of the item is the material of the bin. */
  lemma CatalogIdsAgree(m: Material, b: Material, suffix: string)
    ensures StartsWith(Name(b) + "-bin", TrashType(Name(m) + "_" + suffix)) <==> m == b
  {
    TrashTypeOfTagged(Name(m), suffix);
  }

  /** Every trash type that the component's equality test accepts for a bin
      also passes the prefix test, but not the other way round: a shorter
      type such as "p" passes for both the plastic and the paper bin. */
  lemma PrefixTestIsLooser(trashId: string, b: Material)
    ensures TrashType(trashId) == Name(b) ==> StartsWith(Name(b) + "-bin", TrashType(trashId))
    ensures StartsWith(Name(Plastic) + "-bin", TrashType("p_1")) && StartsWith(Name(Paper) + "-bin", TrashType("p_1"))
  {
    TrashTypeOfTagged("p", "1");
  }

  /** The state after a sequence of drops, each an id, a bin id and whether
      the page still held the element. */
  datatype ScriptEvent = ScriptEvent(trashId: string, binId: string, found: bool)

  function ScriptPlay(st: ScriptState, totals: map<string, nat>, events: seq<ScriptEvent>): ScriptState
    decreases |events|
  {
    if events == [] then st
    else
      var e := events[0];
      ScriptPlay(ScriptDrop(st, totals, e.trashId, e.binId, e.found).state, totals, events[1..])
  }

  /** The score has no floor: wrong drops take one point each, however low the
      score already is. */
  lemma {:induction false} WrongDropsHaveNoFloor(st: ScriptState, totals: map<string, nat>, events: seq<ScriptEvent>)
    requires forall i | 0 <= i < |events| :: !StartsWith(events[i].binId, TrashType(events[i].trashId))
    ensures ScriptPlay(st, totals, events) == st.(score := st.score - |events|)
    decreases |events|
  {
    if events != [] {
      var e := events[0];
      assert forall i | 0 <= i < |events[1..]| :: events[1..][i] == events[i + 1];
      WrongDropsHaveNoFloor(ScriptDrop(st, totals, e.trashId, e.binId, e.found).state, totals, events[1..]);
    }
  }

  /** Nothing marks an element as sorted: the same element dropped correctly
      twice (it stays on the page for 500 ms) is counted twice, so with a
      total of k + 2 one item dropped twice after k others earns the bonus. */
  lemma SameItemCountsTwice(st: ScriptState, totals: map<string, nat>, trashId: string, binId: string, k: int)
    requires StartsWith(binId, TrashType(trashId))
    requires CountAt(st.sortedCounts, TrashType(trashId)) == Num(k)
    requires TrashType(trashId) in totals && totals[TrashType(trashId)] == k + 2
    ensures var once := ScriptDrop(st, totals, trashId, binId, true);
            var twice := ScriptDrop(once.state, totals, trashId, binId, true);
            && once.outcome == Sorted(false) && twice.outcome == Sorted(true)
            && twice.state.sortedCounts[TrashType(trashId)] == Num(k + 2)
            && twice.state.score == st.score + 7
  {
  }

  /** The type's count has reached its total. */
  predicate Reached(st: ScriptState, totals: map<string, nat>, t: string)
  {
    t in totals && CountAt(st.sortedCounts, t).Num? && CountAt(st.sortedCounts, t).n >= totals[t]
  }

  /** How many of the drops awarded the bonus for trash type `t`. */
  function ScriptBonuses(st: ScriptState, totals: map<string, nat>, events: seq<ScriptEvent>, t: string): nat
    decreases |events|
  {
    if events == [] then 0
    else
      var e := events[0];
      var r := ScriptDrop(st, totals, e.trashId, e.binId, e.found);
      (if r.outcome == Sorted(true) && TrashType(e.trashId) == t then 1 else 0)
        + ScriptBonuses(r.state, totals, events[1..], t)
  }

  /** One drop awards the bonus for `t` only when it makes the count reach the
      total, and a count that has reached it stays there. */
  lemma ScriptBonusStep(st: ScriptState, totals: map<string, nat>, e: ScriptEvent, t: string)
    ensures var r := ScriptDrop(st, totals, e.trashId, e.binId, e.found);
            (if r.outcome == Sorted(true) && TrashType(e.trashId) == t then 1 else 0) + (if Reached(st, totals, t) then 1 else 0)
            <= (if Reached(r.state, totals, t) then 1 else 0)
  {
  }

  /** Since the bonus needs exact equality and a count only grows one at a
      time, the bonus for a trash type comes at most once, and never once
      the count has reached the total. */
  lemma {:induction false} ScriptBonusAtMostOnce(st: ScriptState, totals: map<string, nat>, events: seq<ScriptEvent>, t: string)
    ensures ScriptBonuses(st, totals, events, t) + (if Reached(st, totals, t) then 1 else 0) <= 1
    decreases |events|
  {
    if events != [] {
      var e := events[0];
      ScriptBonusStep(st, totals, e, t);
      ScriptBonusAtMostOnce(ScriptDrop(st, totals, e.trashId, e.binId, e.found).state, totals, events[1..], t);
    }
  }

  /** The page's round: module-level `score` and `sortedCounts`, and the
      totals counted from the page when it loaded. */
  class ScriptGame {
    var score: int
    var sortedCounts: map<string, Count>
    const totalTrashCounts: map<string, nat>

    /** The score and the count object as one value. */
    ghost function State(): ScriptState
      reads this
    {
      ScriptState(score, sortedCounts)
    }

    /** The page has loaded: score 0, all four counts 0, and the totals are
        how many elements have an id starting with each type. */
    constructor (plastic: nat, paper: nat, metal: nat, glass: nat)
      ensures State() == ScriptState(0, StartCounts())
      ensures totalTrashCounts == map["plastic" := plastic, "paper" := paper, "metal" := metal, "glass" := glass]
    {
      score := 0;
      sortedCounts := StartCounts();
      totalTrashCounts := map["plastic" := plastic, "paper" := paper, "metal" := metal, "glass" := glass];
    }

    /** `updateScore(points)`: adds exactly `points`, with no floor. */
    method UpdateScore(points: int)
      modifies this
      ensures score == old(score) + points && sortedCounts == old(sortedCounts)
    {
      score := score + points;
    }

    /** `drop`, one statement after the other. */
    method Drop(trashId: string, binId: string, found: bool) returns (outcome: DropOutcome)
      modifies this
      ensures ScriptStep(State(), outcome) == ScriptDrop(old(State()), totalTrashCounts, trashId, binId, found)
    {
      var trashType := TrashType(trashId);
      if StartsWith(binId, trashType) {
        if !found {
          return Ignored;
        }
        UpdateScore(1);
        sortedCounts := sortedCounts[trashType := Incr(CountAt(sortedCounts, trashType))];
        var bonus := trashType in totalTrashCounts && sortedCounts[trashType] == Num(totalTrashCounts[trashType]);
        if bonus {
          UpdateScore(5);
        }
        outcome := Sorted(bonus);
      } else {
        UpdateScore(-1);
        outcome := Missorted;
      }
    }
  }
}
