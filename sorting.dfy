/** What both versions of the round engine share: how a trash id names its
    material, and what a drop did (which sound cue plays, whether the bonus
    alert is shown). */
module Sorting {

  /** The outcome of one drop event. `Ignored` plays nothing; `Sorted` plays the
      "correct" cue and, when `bonus` holds, shows the "you sorted all ..." alert;
      `Missorted` plays the "wrong" cue. */
  datatype DropOutcome = Ignored | Sorted(bonus: bool) | Missorted

  /** The trash type of an id: its text before the first underscore, or all of
      it when it has none (the first piece of `id.split("_")`). */
  function TrashType(id: string): (t: string)
    ensures t <= id
    ensures '_' !in t
    ensures |t| == |id| || id[|t|] == '_'
    decreases |id|
  {
    if id == [] || id[0] == '_' then [] else [id[0]] + TrashType(id[1..])
  }

  /** The three properties in TrashType's contract determine the trash type:
      any prefix without an underscore that stops at the end or at an
      underscore is it. */
  lemma TrashTypeUnique(id: string, p: string)
    requires p <= id && '_' !in p
    requires |p| == |id| || id[|p|] == '_'
    ensures TrashType(id) == p
  {
    var t := TrashType(id);
    assert t == id[..|t|] && p == id[..|p|];
  }

  /** An id built as `<name>_<suffix>` from a name without underscores has that
      name as its trash type, whatever the suffix. */
  lemma TrashTypeOfTagged(name: string, suffix: string)
    requires '_' !in name
    ensures TrashType(name + "_" + suffix) == name
  {
    var id := name + "_" + suffix;
    assert name <= id;
    assert id[|name|] == '_';
    TrashTypeUnique(id, name);
  }

  /** `s.startsWith(p)`: `p` is a prefix of `s`. */
  predicate StartsWith(s: string, p: string)
    ensures StartsWith(s, p) <==> p <= s
  {
    |p| <= |s| && s[..|p|] == p
  }
}
