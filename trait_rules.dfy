/**
 * The static trait rule table: for each trait name, its category, the unit counts at
 * which it activates (its breakpoints), whether an emblem of it exists, and whether
 * its top tier is prismatic.
 */
module TraitRules {
  import opened Wrappers
  import opened Lists

  datatype TraitType = Region | Class | Origin

  /** A rule; an omitted `isPrismatic` reads as false. */
  datatype TraitRule = TraitRule(kind: TraitType, breakpoints: seq<int>, hasEmblem: bool, isPrismatic: bool)

  /** The Region entries, in declaration order. */
  const Regions: seq<(string, TraitRule)> := [
    ("Bilgewater", TraitRule(Region, [3, 5, 7, 10], true, true)),
    ("Demacia", TraitRule(Region, [3, 5, 7, 11], true, true)),
    ("Freljord", TraitRule(Region, [3, 5, 7], true, false)),
    ("Ionia", TraitRule(Region, [3, 5, 7, 10], true, true)),
    ("Ixtal", TraitRule(Region, [3, 5, 7], true, false)),
    ("Noxus", TraitRule(Region, [3, 5, 7, 10], true, true)),
    ("Piltover", TraitRule(Region, [2, 4, 6], true, false)),
    ("Shadow Isles", TraitRule(Region, [2, 3, 4, 5], false, false)),
    ("Shurima", TraitRule(Region, [2, 3, 4], false, true)),
    ("Targon", TraitRule(Region, [1], false, false)),
    ("Void", TraitRule(Region, [2, 4, 6, 9], true, false)),
    ("Yordle", TraitRule(Region, [2, 4, 6, 8, 10], true, true)),
    ("Zaun", TraitRule(Region, [3, 5, 7], true, false))
  ]

  /** The Class entries, in declaration order. */
  const Classes: seq<(string, TraitRule)> := [
    ("Arcanist", TraitRule(Class, [2, 4, 6], true, false)),
    ("Bruiser", TraitRule(Class, [2, 4, 6], true, false)),
    ("Darkin", TraitRule(Class, [1, 2, 3], false, false)),
    ("Defender", TraitRule(Class, [2, 4, 6], true, false)),
    ("Disruptor", TraitRule(Class, [2, 4], true, false)),
    ("Gunslinger", TraitRule(Class, [2, 4], true, false)),
    ("Invoker", TraitRule(Class, [2, 4], true, false)),
    ("Juggernaut", TraitRule(Class, [2, 4, 6], true, false)),
    ("Longshot", TraitRule(Class, [2, 3, 4, 5], true, false)),
    ("Quickstriker", TraitRule(Class, [2, 3, 4, 5], true, false)),
    ("Slayer", TraitRule(Class, [2, 4, 6], true, false)),
    ("Vanquisher", TraitRule(Class, [2, 3, 4, 5], true, false)),
    ("Warden", TraitRule(Class, [2, 3, 4, 5], true, false))
  ]

  /** The first ten Origin entries, in declaration order. */
  const OriginsA: seq<(string, TraitRule)> := [
    ("Ascendant", TraitRule(Origin, [1], false, false)),
    ("Assimilator", TraitRule(Origin, [1], false, false)),
    ("Blacksmith", TraitRule(Origin, [1], false, false)),
    ("Caretaker", TraitRule(Origin, [1], false, false)),
    ("Chainbreaker", TraitRule(Origin, [1], false, false)),
    ("Chronokeeper", TraitRule(Origin, [1], false, false)),
    ("Dark Child", TraitRule(Origin, [1], false, false)),
    ("Dragonborn", TraitRule(Origin, [1], false, false)),
    ("Eternal", TraitRule(Origin, [1], false, false)),
    ("Glutton", TraitRule(Origin, [1], false, false))
  ]

  /** The remaining Origin entries. */
  const OriginsB: seq<(string, TraitRule)> := [
    ("Harvester", TraitRule(Origin, [1], false, false)),
    ("Heroic", TraitRule(Origin, [1], false, false)),
    ("HexMech", TraitRule(Origin, [1], false, false)),
    ("Huntress", TraitRule(Origin, [1], false, false)),
    ("Immortal", TraitRule(Origin, [1], false, false)),
    ("Riftscourge", TraitRule(Origin, [1], false, false)),
    ("Rune Mage", TraitRule(Origin, [1], false, false)),
    ("Star Forger", TraitRule(Origin, [1], false, false)),
    ("The Boss", TraitRule(Origin, [1], false, false)),
    ("World Ender", TraitRule(Origin, [1], false, false)),
    ("Soulbound", TraitRule(Origin, [1], false, false))
  ]

  /** The Origin entries, in declaration order. */
  const Origins: seq<(string, TraitRule)> := OriginsA + OriginsB

  /** `TRAIT_RULES`, entries in declaration order (the order of `Object.keys`). */
  const TraitTable: seq<(string, TraitRule)> := Regions + Classes + Origins

  /** `TRAIT_RULES[name]`. */
  function RuleOf(name: string): (r: Option<TraitRule>)
  {
    var k := KeyIndex(TraitTable, name);
    if k < 0 then None else Some(TraitTable[k].1)
  }

  predicate StrictlyIncreasing(s: seq<int>) {
    forall i, j :: 0 <= i < j < |s| ==> s[i] < s[j]
  }

  /** Breakpoints a tier scan can rely on: at least one, positive, strictly increasing. */
  predicate ValidBreakpoints(bp: seq<int>) {
    |bp| > 0 && bp[0] > 0 && StrictlyIncreasing(bp)
  }

  /** The traits that are neither an Origin nor emblem-augmentable. */
  predicate IsEmblemlessNonOrigin(name: string) {
    name == "Shadow Isles" || name == "Shurima" || name == "Targon" || name == "Darkin"
  }

  /** What every entry of the table satisfies. */
  predicate EntryFacts(e: (string, TraitRule)) {
    && ValidBreakpoints(e.1.breakpoints)
    && (e.1.kind == Origin ==> e.1.breakpoints == [1] && !e.1.hasEmblem)
    && (e.1.isPrismatic ==> e.1.kind == Region && |e.1.breakpoints| >= 3)
    && (e.1.kind != Origin && !e.1.hasEmblem <==> IsEmblemlessNonOrigin(e.0))
  }

  lemma RegionFacts() ensures forall i :: 0 <= i < |Regions| ==> EntryFacts(Regions[i]) {}
  lemma ClassFacts() ensures forall i :: 0 <= i < |Classes| ==> EntryFacts(Classes[i]) {}
  lemma OriginFactsA() ensures forall i :: 0 <= i < |OriginsA| ==> EntryFacts(OriginsA[i]) {}
  lemma OriginFactsB() ensures forall i :: 0 <= i < |OriginsB| ==> EntryFacts(OriginsB[i]) {}

  lemma OriginFacts() ensures forall i :: 0 <= i < |Origins| ==> EntryFacts(Origins[i]) {
    OriginFactsA();
    OriginFactsB();
    forall i | 0 <= i < |Origins| ensures EntryFacts(Origins[i]) {
      if i >= |OriginsA| {
        assert Origins[i] == OriginsB[i - |OriginsA|];
      }
    }
  }

  lemma TableFacts()
    ensures forall i :: 0 <= i < |TraitTable| ==> EntryFacts(TraitTable[i])
  {
    RegionFacts();
    ClassFacts();
    OriginFacts();
    forall i | 0 <= i < |TraitTable| ensures EntryFacts(TraitTable[i]) {
      if i < |Regions| {
        assert TraitTable[i] == Regions[i];
      } else if i < |Regions| + |Classes| {
        assert TraitTable[i] == Classes[i - |Regions|];
      } else {
        assert TraitTable[i] == Origins[i - |Regions| - |Classes|];
      }
    }
  }

  predicate DistinctKeys(a: seq<(string, TraitRule)>) {
    forall i :: 0 <= i < |a| ==> forall j :: i < j < |a| ==> a[i].0 != a[j].0
  }

  predicate DisjointKeys(a: seq<(string, TraitRule)>, b: seq<(string, TraitRule)>) {
    forall i, j :: 0 <= i < |a| && 0 <= j < |b| ==> a[i].0 != b[j].0
  }

  lemma DistinctKeysAppend(a: seq<(string, TraitRule)>, b: seq<(string, TraitRule)>)
    requires DistinctKeys(a) && DistinctKeys(b) && DisjointKeys(a, b)
    ensures DistinctKeys(a + b)
  {
    forall i, j | 0 <= i < j < |a + b| ensures (a + b)[i].0 != (a + b)[j].0 {
      if j < |a| {
      } else if i < |a| {
        assert (a + b)[j] == b[j - |a|];
      } else {
        assert (a + b)[i] == b[i - |a|] && (a + b)[j] == b[j - |a|];
      }
    }
  }

  lemma RegionKeysDistinct() ensures DistinctKeys(Regions) {}
  lemma ClassKeysDistinct() ensures DistinctKeys(Classes) {}
  lemma OriginKeysDistinctA() ensures DistinctKeys(OriginsA) {}
  lemma OriginKeysDistinctB() ensures DistinctKeys(OriginsB) {}
  lemma OriginKeysDisjointAB() ensures DisjointKeys(OriginsA, OriginsB) {}

  lemma OriginKeysDistinct() ensures DistinctKeys(Origins) {
    OriginKeysDistinctA();
    OriginKeysDistinctB();
    OriginKeysDisjointAB();
    DistinctKeysAppend(OriginsA, OriginsB);
  }

  lemma RegionKeysDisjoint()
    ensures DisjointKeys(Regions, Classes) && DisjointKeys(Regions, Origins)
  {
    RegionsClassesDisjoint();
    RegionsOriginsDisjoint();
  }

  lemma RegionsClassesDisjoint() ensures DisjointKeys(Regions, Classes) {}
  lemma RegionsOriginsDisjoint() ensures DisjointKeys(Regions, Origins) {}

  lemma ClassKeysDisjoint()
    ensures DisjointKeys(Classes, Origins)
  {}

  /** No trait name is declared twice, so each name has exactly one rule. */
  lemma TraitNamesDistinct()
    ensures DistinctKeys(TraitTable)
  {
    RegionKeysDistinct();
    ClassKeysDistinct();
    OriginKeysDistinct();
    RegionKeysDisjoint();
    ClassKeysDisjoint();
    DistinctKeysAppend(Regions, Classes);
    assert DisjointKeys(Regions + Classes, Origins) by {
      forall i, j | 0 <= i < |Regions + Classes| && 0 <= j < |Origins|
        ensures (Regions + Classes)[i].0 != Origins[j].0
      {
        if i >= |Regions| {
          assert (Regions + Classes)[i] == Classes[i - |Regions|];
        }
      }
    }
    DistinctKeysAppend(Regions + Classes, Origins);
  }

  /**
   * `TRAIT_RULES[name]` is the rule declared under `name`, and it is undefined exactly
   * for the names that are not declared.
   */
  lemma RuleOfFound(name: string, rule: TraitRule)
    ensures RuleOf(name) == Some(rule) <==> (name, rule) in TraitTable
    ensures RuleOf(name).None? <==> name !in Keys(TraitTable)
  {
    TraitNamesDistinct();
    LookupInDistinct(TraitTable, name, rule);
  }

  lemma LookupInDistinct(t: seq<(string, TraitRule)>, name: string, rule: TraitRule)
    requires DistinctKeys(t)
    ensures var k := KeyIndex(t, name);
      && (k >= 0 && t[k].1 == rule <==> (name, rule) in t)
      && (k < 0 <==> name !in Keys(t))
  {
    var k := KeyIndex(t, name);
    if (name, rule) in t {
      var i :| 0 <= i < |t| && t[i] == (name, rule);
      assert k == i;
    }
    if name in Keys(t) {
      var i :| 0 <= i < |Keys(t)| && Keys(t)[i] == name;
      assert t[i].0 == name;
    }
  }

  /** Every declared rule has breakpoints a tier scan can rely on. */
  lemma RuleBreakpointsValid(name: string)
    requires RuleOf(name).Some?
    ensures ValidBreakpoints(RuleOf(name).value.breakpoints)
  {
    TableFacts();
  }

  /** Origin traits activate at one unit and have no emblem. */
  lemma OriginRule(name: string)
    requires RuleOf(name).Some? && RuleOf(name).value.kind == Origin
    ensures RuleOf(name).value.breakpoints == [1]
    ensures !RuleOf(name).value.hasEmblem
  {
    TableFacts();
  }

  /** Only Region traits are prismatic, and a prismatic trait has at least three tiers. */
  lemma PrismaticRule(name: string)
    requires RuleOf(name).Some? && RuleOf(name).value.isPrismatic
    ensures RuleOf(name).value.kind == Region
    ensures |RuleOf(name).value.breakpoints| >= 3
  {
    TableFacts();
  }

  /** Shadow Isles, Shurima, Targon and Darkin are the declared non-Origin traits without an emblem. */
  lemma EmblemlessNonOriginRule(name: string)
    requires RuleOf(name).Some?
    ensures RuleOf(name).value.kind != Origin && !RuleOf(name).value.hasEmblem
        <==> IsEmblemlessNonOrigin(name)
  {
    TableFacts();
  }

  predicate HasEmblem(name: string) {
    RuleOf(name).Some? && RuleOf(name).value.hasEmblem
  }

  /** `getEmblemTraits()`: the declared trait names whose rule has an emblem, in declaration order. */
  function EmblemTraits(): (r: seq<string>)
    ensures forall name :: name in r <==> HasEmblem(name)
  {
    var keys := Keys(TraitTable);
    var r := Filter(keys, HasEmblem);
    assert forall name :: HasEmblem(name) ==> name in r by {
      forall name | HasEmblem(name) ensures name in r {
        var i :| 0 <= i < |keys| && keys[i] == name;
      }
    }
    r
  }

  /**
   * `getEmblemTraits()` keeps declaration order and never repeats a name: its i-th name
   * is the key of the i-th table entry whose rule has an emblem.
   */
  lemma EmblemTraitsInOrder()
    ensures var r, pos := EmblemTraits(), PositionsFrom(Keys(TraitTable), HasEmblem, 0);
      |r| == |pos| && forall i :: 0 <= i < |pos| ==> r[i] == TraitTable[pos[i]].0
    ensures NoDuplicates(EmblemTraits())
  {
    var keys := Keys(TraitTable);
    FilterPositions(keys, HasEmblem);
    TraitNamesDistinct();
    assert NoDuplicates(keys);
    NoDuplicatesSub(EmblemTraits(), keys);
  }

  /** No trait without an emblem is ever offered as an emblem. */
  lemma EmblemlessNeverOffered(name: string)
    requires IsEmblemlessNonOrigin(name)
    ensures name !in EmblemTraits()
  {
    if RuleOf(name).Some? {
      EmblemlessNonOriginRule(name);
    }
  }
}
