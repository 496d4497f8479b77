# Trash Sorter Park: the sorting round

Trash Sorter Park is a drag-and-drop game. The player drags eight pieces of
trash (two each of plastic, paper, metal and glass) onto four recycling
bins. A correct drop earns a point, shows a recycling fact in the bin and
makes the bin glow green. Sorting the last item of a material earns five
bonus points. A wrong drop costs a point and makes the bin glow red.

This project models the round engine in two versions:

- **The React component** (`src/components/TrashSorterGame.tsx`), in the
  modules `Catalog` and `Round`.
  - `Catalog` holds the materials, the eight starting items, the two facts
    per material, and the per-material totals the component computes with
    `reduce`.
  - `Round` holds the round state as a value (`RoundState`). It has pure
    step functions for `handleCorrectDrop`, `handleWrongDrop` and `onDrop`,
    and the class `TrashSorterGame`. The class's fields are the component's
    five state slots (`items`, `score`, `sortedCounts`, `binGlow`,
    `infoByBin`). Its methods update those fields in the source's order, and
    each method's postcondition ties the new fields to the matching step
    function.
  - The round invariant is proved about the step functions. Ids stay tagged
    with their material and distinct. For every material, the sorted count
    plus the items left makes the total. The score is what the correct drops
    earned minus one per wrong drop.
  - Also proved about the step functions: the bonus for a material comes at
    most once, and a round with no items left ignores every drop.
- **The plain-script prototype** (`script.js`), in the module `Prototype`.
  - The class `ScriptGame` holds the page's `score` and `sortedCounts`. The
    per-type totals are constructor parameters.
  - Its `Drop` method is tied to the pure function `ScriptDrop`.
  - A drop is correct when the bin id *starts with* the trash type. Nothing
    marks an item as sorted, so the same item can be counted twice.
  - For the page's own ids, the prefix test agrees with the component's
    equality test.

The module `Sorting` holds what both versions share: the trash type of an id
(its text before the first underscore, `id.split("_")[0]`) and the outcome
of a drop. The outcome tells which sound cue plays and whether the bonus
alert is shown.

The model follows what the component does:

- The component removes a sorted item from `items` (a `filter`). It does
  not flag it. The `sorted` field in `src/game/types.ts` is not used by the
  component.
- There is no terminal state and no restart inside the component.
- A fact index past the two facts reads `undefined`. There is no
  placeholder text.
- Timers are never cancelled or replaced when a bin is armed again.

## Model

| member | source | states |
|---|---|---|
| Sorting.TrashType | src/components/TrashSorterGame.tsx:220 | the trash type is a prefix of the id with no underscore, ending at the id's end or at its first underscore |
| Sorting.StartsWith | script.js:70 | `startsWith` holds exactly when the prefix is a prefix of the string |
| Sorting.TrashTypeUnique | script.js:63 | those three properties determine the trash type: any such prefix is it |
| Sorting.TrashTypeOfTagged | src/components/TrashSorterGame.tsx:60-101 | an id `<name>_<suffix>`, where the name has no underscore, has that name as its trash type |
| Catalog.Name | src/components/TrashSorterGame.tsx:21 | a material's name contains no underscore |
| Catalog.NameInjective | src/game/types.ts:1 | different materials have different names |
| Catalog.InitialItems | src/components/TrashSorterGame.tsx:57-104 | the starting list has eight items |
| Catalog.MaterialInfo | src/components/TrashSorterGame.tsx:30-47 | the fact table has an entry for every material |
| Catalog.Tally | src/components/TrashSorterGame.tsx:107-113 | the fold keeps every entry of its seed |
| Catalog.TotalCounts | src/components/TrashSorterGame.tsx:106-114 | the totals have an entry for every material |
| Catalog.MaterialInfoShaped | src/components/TrashSorterGame.tsx:30-47 | every material has exactly two facts |
| Catalog.TallyAddsCounts | src/components/TrashSorterGame.tsx:107-109 | the reduce adds to each seed entry exactly the number of items of that material |
| Catalog.TotalCountsAreCounts | src/components/TrashSorterGame.tsx:106-114 | for any item list, each material's total is the number of items of that material |
| Catalog.CatalogCounts | src/components/TrashSorterGame.tsx:57-104 | the starting list has eight items, two of each material |
| Catalog.CatalogTotals | src/components/TrashSorterGame.tsx:106-114 | every total the component computes is 2 |
| Catalog.CatalogTagged | src/components/TrashSorterGame.tsx:57-104 | every starting id names its item's own material before the underscore |
| Round.Find | src/components/TrashSorterGame.tsx:217 | what `find` returns carries the id searched for |
| Round.FindSpec | src/components/TrashSorterGame.tsx:217 | `find` comes back empty exactly when no item has the id, and otherwise returns one of the items |
| Round.RemoveId | src/components/TrashSorterGame.tsx:160-162 | the filter is no longer than its input and no remaining item carries the id |
| Round.RemoveIdFind | src/components/TrashSorterGame.tsx:160-162 | after the filter the id is gone and every other id is found as before |
| Round.RemoveIdAt | src/components/TrashSorterGame.tsx:160-162 | with distinct ids, the filter removes exactly the entry at the id's position and keeps the others in order |
| Round.RemoveIdCounts | src/components/TrashSorterGame.tsx:160-162 | filtering out a present item lowers its material's count by one and leaves the other counts |
| Round.RemoveIdKeepsIds | src/components/TrashSorterGame.tsx:160-162 | the filter keeps ids tagged and distinct |
| Round.MatchIsKind | src/components/TrashSorterGame.tsx:220-221 | for tagged ids, the test "trash type equals bin name" holds exactly when the found item is of the bin's material |
| Round.EarnedStep | src/components/TrashSorterGame.tsx:165-187 | one more correct drop of an incomplete material is worth 1, plus 5 exactly when it completes the material |
| Round.FactAt | src/components/TrashSorterGame.tsx:176 | the text shown is one of the material's facts, or empty where the source reads `undefined` |
| Round.WrongDrop | src/components/TrashSorterGame.tsx:201-209 | one point off and the bin glows red; items, counts, info texts and the other bins' glows are kept |
| Round.CorrectDrop | src/components/TrashSorterGame.tsx:158-199 | a correct drop reports `Sorted` and keeps an entry for every material's count |
| Round.OnDrop | src/components/TrashSorterGame.tsx:211-226 | a drop keeps a count entry for every material |
| Round.DropOfMissingIdIsIgnored | src/components/TrashSorterGame.tsx:217-218 | a drop of an id not in the list changes nothing and plays nothing |
| Round.DropOutcomes | src/components/TrashSorterGame.tsx:211-226 | ignored iff the id is absent; correct iff present and the trash type equals the bin; wrong iff present and it differs; the score changes by 0, +1 or +6, and -1 |
| Round.CorrectDropCounts | src/components/TrashSorterGame.tsx:165-192 | a correct drop raises only the bin's count, by one; the bonus comes iff the new count equals the total; the bin glows green |
| Round.WrongDropKeepsItems | src/components/TrashSorterGame.tsx:201-209 | a wrong drop leaves items, counts and info texts unchanged and sets the bin's glow to red |
| Round.DropIsCorrectIffKind | src/components/TrashSorterGame.tsx:220-225 | for tagged ids and a present item, a drop is correct iff the item is of the bin's material, and wrong iff it is not |
| Round.CorrectDropRemovesEntry | src/components/TrashSorterGame.tsx:160-162 | a correct drop removes exactly that item's entry and keeps the others in order |
| Round.RemoveKeepsBalance | src/components/TrashSorterGame.tsx:160-169 | removing an item and raising its material's count keeps each material's sorted + remaining = total |
| Round.CorrectDropConsistent | src/components/TrashSorterGame.tsx:158-189 | a correct drop keeps ids tagged and distinct and every material balanced; before it, the bin's count is below the total; the new count reaches the total iff the item was the last of its material |
| Round.CorrectDropKeepsInv | src/components/TrashSorterGame.tsx:158-189 | a correct drop keeps the round invariant; the bonus comes iff the item was the last of its material |
| Round.CorrectDropShowsFact | src/components/TrashSorterGame.tsx:173-177 | the fact index is 0 or 1; the bin shows the material's fact for the new count, and every other bin keeps its text |
| Round.DropKeepsInv | src/components/TrashSorterGame.tsx:211-226 | every drop keeps the invariant; a wrong drop adds one to the wrong-drop tally |
| Round.CompletedMaterialIsClosed | src/components/TrashSorterGame.tsx:184 | once a material's count equals its total, no remaining id is of that material |
| Round.Play | src/components/TrashSorterGame.tsx:211-226 | a run of drops keeps a count entry for every material |
| Round.PlayKeepsInv | src/components/TrashSorterGame.tsx:211-226 | any run of drops keeps the invariant, so the score is always what the correct drops earned minus the wrong drops |
| Round.BonusStep | src/components/TrashSorterGame.tsx:184-187 | one drop gives no bonus to a completed material, the drop that gives the bonus completes the material, and a completed material stays completed |
| Round.BonusAtMostOnce | src/components/TrashSorterGame.tsx:184-187 | over any run of drops, the bonus for a material comes at most once, and never after the material is complete |
| Round.EmptyRoundIgnoresDrops | src/components/TrashSorterGame.tsx:217-218 | with no item left, any run of drops changes nothing and has no wrong drop |
| Round.EmptyRoundEarnsAll | src/components/TrashSorterGame.tsx:165-185 | with no item left, the correct drops have earned 28 points |
| Round.CatalogDistinct | src/components/TrashSorterGame.tsx:57-104 | the starting ids are pairwise different |
| Round.UnsortedIsConsistent | src/components/TrashSorterGame.tsx:106-123 | tagged, distinct items with zero counts are balanced against their own totals, with nothing earned |
| Round.FreshRound | src/components/TrashSorterGame.tsx:116-129 | the starting state satisfies the invariant with no wrong drops |
| Round.TrashSorterGame.constructor | src/components/TrashSorterGame.tsx:116-129 | a fresh round has all eight items, score 0, zero counts, no glow and no info; the totals are the catalog's counts |
| Round.TrashSorterGame.HandleCorrectDrop | src/components/TrashSorterGame.tsx:158-199 | the statement-by-statement updates give exactly the correct-drop step |
| Round.TrashSorterGame.HandleWrongDrop | src/components/TrashSorterGame.tsx:201-209 | one point off and a red glow, and nothing else changes |
| Round.TrashSorterGame.Drop | src/components/TrashSorterGame.tsx:211-226 | the handler's new state and outcome are exactly the drop step's |
| Round.TrashSorterGame.ExpireInfo | src/components/TrashSorterGame.tsx:178-181 | the info callback empties the bin's text and changes nothing else |
| Round.TrashSorterGame.ExpireGlow | src/components/TrashSorterGame.tsx:193-196 | the glow callback clears the bin's glow and changes nothing else |
| Prototype.Incr | script.js:80 | `++` adds one to a number and keeps `NaN` |
| Prototype.CountAt | script.js:80 | a present entry is read as stored, and a missing entry behaves as `NaN` under `++` |
| Prototype.ScriptDrop | script.js:57-104 | a drop is scored wrong exactly when the bin id does not start with the trash type; any other drop never lowers the score |
| Prototype.ScriptDropOutcomes | script.js:57-104 | wrong iff the bin id does not start with the trash type; otherwise correct iff the element is still on the page; the score changes by -1, +1 or +6, or 0 |
| Prototype.ScriptCorrectDropCounts | script.js:77-88 | a correct drop raises only the trash type's entry, by one (a missing or `NaN` entry becomes `NaN`); the bonus comes iff the new entry equals the total |
| Prototype.ScriptWrongDropKeepsCounts | script.js:95-99 | a wrong drop takes one point and leaves the counts alone |
| Prototype.CatalogIdsAgree | script.js:70 | for ids `<material>_<n>` and bins `<material>-bin`, the prefix test holds iff the materials are equal |
| Prototype.PrefixTestIsLooser | script.js:70 | a type the equality test accepts also passes the prefix test, but the type "p" passes for both the plastic and the paper bin |
| Prototype.WrongDropsHaveNoFloor | script.js:37-39 | n wrong drops take exactly n points from any score, however low |
| Prototype.SameItemCountsTwice | script.js:72-94 | one element dropped correctly twice is counted twice and can earn the bonus alone |
| Prototype.ScriptBonusStep | script.js:80-88 | one drop gives the bonus for a type only by making its count reach the total, and a reached count stays reached |
| Prototype.ScriptBonusAtMostOnce | script.js:80-88 | over any run of drops, the bonus for a trash type comes at most once, and never after its count has reached the total |
| Prototype.ScriptGame.constructor | script.js:22-34 | score 0, the four counts at 0, and the totals as counted on the page |
| Prototype.ScriptGame.UpdateScore | script.js:37-40 | adds exactly `points` to the score, with no floor, and leaves the counts alone |
| Prototype.ScriptGame.Drop | script.js:57-104 | the handler's new score, counts and outcome are exactly the script's drop step |

## Left out

- Sound and the bonus `alert` are not played. Each drop returns a `DropOutcome` instead, which names the cue and says whether the alert shows.
- Drag transport and hit-testing are not modelled: `dataTransfer`, the "dragging" class, `closest('.bin')`. A drop arrives as an already-resolved pair: an item id and a bin (a material for the component, a bin id for the script).
- The page itself is not modelled: `querySelectorAll`, `getElementById`, `appendChild`, `remove`, `textContent` and the glow classes in `script.js`.
  - The script's per-type totals are constructor parameters.
  - Whether the page still holds the dropped element is the `found` parameter. A correct-branch drop of a missing element changes nothing, because `appendChild(null)` throws first. A wrong drop of a missing element still costs a point.
- Timer delays (500 ms, 1000 ms, 3000 ms) and their ordering against later drops are not modelled. Each timer callback is an explicit method that the caller may invoke at any point.
- Round.TrashSorterGame.ExpireGlow: removes the bin's glow entry, where the source stores `undefined`. The bin renders the same either way.
- Round.FactAt: a fact index past a material's facts gives the empty text, where the source reads `undefined`. The info box hides both.
- React machinery is not modelled.
  - Updates are assumed to be applied once and in order. React's batching, the `useState`/`useMemo` hooks and rendering are left out.
  - Under StrictMode, the side-effecting `setSortedCounts` updater can run twice. That would double its score bonus and its timers. This is not modelled.
  - `onDrop` reads `items` from the last render. The model reads the current list.
- The item images, the bin images and the `alt` texts take no part in scoring. Items carry `src` and `alt` only as data.
- JavaScript numbers are modelled as unbounded integers. Precision loss past 2^53 is not modelled.
- Prototype.CountAt: property names inherited from `Object.prototype` (such as `constructor`) are treated as missing entries. In the source, they would read an inherited member.
- The `console.log` of `script.js` is left out.
- Prototype.ScriptGame.constructor: takes the totals as given. The page markup is not part of this model. If the bins have ids of the form `<material>-bin`, as `Prototype.CatalogIdsAgree` assumes, then `querySelectorAll('[id^="plastic"]')` (script.js:30) also counts the bin. Each total would then be the item count plus one. The exact `===` bonus (script.js:84) would then be reached only by dropping one element again (`Prototype.SameItemCountsTwice`). This is an observation about the source; it was not executed.
- Round.TrashSorterGame: the round invariant is proved about the step functions (`Round.PlayKeepsInv`), not carried in the class's `Valid`. The class only requires an entry for every material. Each method's postcondition ties the class to the step function the invariant is proved about.
- The menu and summary components (`LevelSelect.tsx`, `GameOver.tsx`, `PlaceholderLevel.tsx`, `App.tsx`, `main.tsx`) are not part of this model.
