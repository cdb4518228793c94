/**
 * The data pipeline of scripts/minify-data.mjs, without its file reads and writes:
 * find the Set 16 entry of the game data, keep the real units and project each onto
 * the five fields the app uses.
 */
module MinifyData {
  import opened Wrappers
  import opened Lists
  import opened Strings

  /** The fields of a raw unit the script reads. */
  datatype Unit = Unit(apiName: string, name: string, cost: int, traits: seq<string>)

  /** A set of the game data: its name and its units. */
  datatype SetData = SetData(name: string, champions: seq<Unit>)

  /** A record of the minified output. */
  datatype CleanChampion = CleanChampion(apiName: string, name: string, cost: int, traits: seq<string>, id: string)

  const DummyMarker := "TFT_TrainingDummy"

  /** `data.sets['16'] || data.sets['TFTSet16']`, `None` when neither key is present. */
  function FindSet16(sets: map<string, SetData>): (r: Option<SetData>)
    ensures r.Some? <==> "16" in sets || "TFTSet16" in sets
    ensures "16" in sets ==> r == Some(sets["16"])
    ensures "16" !in sets && "TFTSet16" in sets ==> r == Some(sets["TFTSet16"])
  {
    if "16" in sets then Some(sets["16"])
    else if "TFTSet16" in sets then Some(sets["TFTSet16"])
    else None
  }

  /** The `filter` callback: a cost below 10, at least one trait, and not a training dummy. */
  predicate IsRealUnit(u: Unit) {
    u.cost < 10 && |u.traits| > 0 && !Contains(u.apiName, DummyMarker)
  }

  /** The `map` callback. */
  function Clean(u: Unit): CleanChampion {
    CleanChampion(u.apiName, u.name, u.cost, u.traits, Lower(u.apiName))
  }

  /** `cleanChampions`: the real units, in their order, each projected. */
  function CleanChampions(units: seq<Unit>): (r: seq<CleanChampion>)
    ensures |r| <= |units|
  {
    var kept := Filter(units, IsRealUnit);
    seq(|kept|, i requires 0 <= i < |kept| => Clean(kept[i]))
  }

  /** What the script writes, or `None` when it finds no Set 16 and returns early. */
  function Minify(sets: map<string, SetData>): Option<seq<CleanChampion>> {
    match FindSet16(sets)
    case None => None
    case Some(set16) => Some(CleanChampions(set16.champions))
  }

  /** One unit on its own: kept and projected when real, dropped otherwise. */
  lemma CleanOne(u: Unit)
    ensures CleanChampions([u]) == if IsRealUnit(u) then [Clean(u)] else []
  {
    assert [u][1..] == [];
  }

  /** The pipeline works unit by unit, so the output keeps the input order. */
  lemma CleanAppend(a: seq<Unit>, b: seq<Unit>)
    ensures CleanChampions(a + b) == CleanChampions(a) + CleanChampions(b)
  {
    var ka, kb := Filter(a, IsRealUnit), Filter(b, IsRealUnit);
    FilterAppend(a, b, IsRealUnit);
    var whole, parts := CleanChampions(a + b), CleanChampions(a) + CleanChampions(b);
    assert |whole| == |ka| + |kb| == |parts|;
    forall i | 0 <= i < |whole| ensures whole[i] == parts[i] {
      if i < |ka| {
        assert (ka + kb)[i] == ka[i];
      } else {
        assert (ka + kb)[i] == kb[i - |ka|];
      }
    }
  }

  /**
   * Every output record comes from a real unit: cost below 10, at least one trait, no
   * training dummy, the four fields copied and `id` the lower-cased `apiName`.
   */
  lemma CleanSound(units: seq<Unit>, c: CleanChampion)
    requires c in CleanChampions(units)
    ensures exists u :: u in units && IsRealUnit(u) && c == Clean(u)
    ensures c.cost < 10 && |c.traits| > 0 && !Contains(c.apiName, DummyMarker)
    ensures c.id == Lower(c.apiName)
  {
    var kept := Filter(units, IsRealUnit);
    var i :| 0 <= i < |kept| && CleanChampions(units)[i] == c;
    assert kept[i] in kept;
  }

  /** Every real unit appears in the output. */
  lemma CleanComplete(units: seq<Unit>, u: Unit)
    requires u in units && IsRealUnit(u)
    ensures Clean(u) in CleanChampions(units)
  {
    var kept := Filter(units, IsRealUnit);
    var i :| 0 <= i < |kept| && kept[i] == u;
    assert CleanChampions(units)[i] == Clean(u);
  }

  /** The key '16' wins when both are present; with neither, nothing is written. */
  lemma MinifyLookup(sets: map<string, SetData>)
    ensures "16" in sets ==> Minify(sets) == Some(CleanChampions(sets["16"].champions))
    ensures "16" !in sets && "TFTSet16" !in sets ==> Minify(sets).None?
  {
  }
}
