/** The fixed table of 7th Central Pay Commission pay levels and the lookup of
    a level by its name. */
module PayLevels {
  import opened Wrappers

  /** One row of the table: a level name and its basic-pay band in rupees. */
  datatype PayLevel = PayLevel(name: string, min: int, max: int)

  /** The 14 levels, in the order the selection list shows them. */
  const Levels: seq<PayLevel> := [
    PayLevel("Level 1", 18000, 56900),
    PayLevel("Level 2", 19900, 63200),
    PayLevel("Level 3", 21700, 69100),
    PayLevel("Level 4", 25500, 81100),
    PayLevel("Level 5", 29200, 92300),
    PayLevel("Level 6", 35400, 112400),
    PayLevel("Level 7", 44900, 142400),
    PayLevel("Level 8", 47600, 151100),
    PayLevel("Level 9", 53100, 167800),
    PayLevel("Level 10", 56100, 177500),
    PayLevel("Level 11", 67700, 208700),
    PayLevel("Level 12", 78800, 209200),
    PayLevel("Level 13", 123100, 215900),
    PayLevel("Level 14", 144200, 218200)
  ]

  /** No two rows share a name, as the keys of an object literal cannot. */
  ghost predicate NamesDistinct(table: seq<PayLevel>) {
    forall i, j :: 0 <= i < j < |table| ==> table[i].name != table[j].name
  }

  /** The first row of `table` called `name`, if any: indexing the table
      object with a key. */
  function Find(table: seq<PayLevel>, name: string): (r: Option<PayLevel>)
    ensures r.None? <==> forall i :: 0 <= i < |table| ==> table[i].name != name
    ensures r.Some? ==> r.value.name == name
    ensures r.Some? ==>
      exists i :: 0 <= i < |table| && table[i] == r.value && forall j :: 0 <= j < i ==> table[j].name != name
  {
    if table == [] then None
    else if table[0].name == name then Some(table[0])
    else Find(table[1..], name)
  }

  /** Looking a level up in the pay-level table. */
  function Lookup(name: string): (r: Option<PayLevel>)
    ensures r.None? <==> forall i :: 0 <= i < |Levels| ==> Levels[i].name != name
    ensures forall i :: 0 <= i < |Levels| && Levels[i].name == name ==> r == Some(Levels[i])
  {
    LevelNamesDistinct();
    Find(Levels, name)
  }

  /** Basic pay after choosing `name` in the level list: the level's minimum
      when the name is in the table, otherwise the current basic pay. */
  function SelectedBasicPay(name: string, current: Option<real>): (r: Option<real>)
    ensures (forall i :: 0 <= i < |Levels| ==> Levels[i].name != name) ==> r == current
    ensures forall i :: 0 <= i < |Levels| && Levels[i].name == name ==> r == Some(Levels[i].min as real)
  {
    match Lookup(name)
    case Some(level) => Some(level.min as real)
    case None => current
  }

  lemma LevelNamesDistinct()
    ensures NamesDistinct(Levels)
  {
  }

  /** Every band is non-empty: its minimum lies strictly below its maximum. */
  lemma BandsWellFormed()
    ensures |Levels| == 14
    ensures forall i :: 0 <= i < |Levels| ==> 0 < Levels[i].min < Levels[i].max
  {
  }

  /** Minimums rise strictly in table order. */
  lemma MinimumsIncreasing()
    ensures forall i, j :: 0 <= i < j < |Levels| ==> Levels[i].min < Levels[j].min
  {
  }

  /** Maximums rise strictly in table order. */
  lemma MaximumsIncreasing()
    ensures forall i, j :: 0 <= i < j < |Levels| ==> Levels[i].max < Levels[j].max
  {
  }

  /** Each row of the table is what looking up its own name returns. */
  lemma LookupEveryLevel()
    ensures forall i :: 0 <= i < |Levels| ==> Lookup(Levels[i].name) == Some(Levels[i])
  {
  }

  /** The empty option "Select Pay Level" names no level, so choosing it
      keeps the current basic pay. */
  lemma EmptySelectionKeepsBasicPay(current: Option<real>)
    ensures SelectedBasicPay("", current) == current
  {
    assert forall i :: 0 <= i < |Levels| ==> |Levels[i].name| > 0;
  }
}
