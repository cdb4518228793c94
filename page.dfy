/**
 * The state logic of the main page (app/page.tsx): the sorted list of every trait on
 * the roster, the recommendations shown for the selected emblems, and the emblem toggle.
 */
module Page {
  import opened Lists
  import opened Strings
  import opened Tft
  import Solver
  import TeamRecommendations

  /** A trait is on the roster when some champion carries it. */
  lemma {:induction false} RosterTraits(champions: seq<Champion>)
    ensures forall t :: t in Solver.AllTraits(champions) <==> exists c :: c in champions && t in c.traits
  {
    if champions != [] {
      var n := |champions| - 1;
      var front := champions[..n];
      RosterTraits(front);
      assert champions == front + [champions[n]];
      assert forall c :: c in champions <==> c in front || c == champions[n];
    }
  }

  /**
   * The `allTraits` memo: every trait added to a `Set` by the nested `forEach`, then
   * `Array.from(traits).sort()`.
   */
  method AllTraits(champions: seq<Champion>) returns (r: seq<string>)
    ensures r == Sort(Dedup(Solver.AllTraits(champions)), StrLe)
  {
    var traits: seq<string> := [];
    for i := 0 to |champions|
      invariant traits == Dedup(Solver.AllTraits(champions[..i]))
    {
      traits := AddTraits(traits, Solver.AllTraits(champions[..i]), champions[i].traits);
      Solver.AllTraitsSnoc(champions, i);
    }
    assert champions[..|champions|] == champions;
    r := Sort(traits, StrLe);
  }

  /** The inner `c.traits.forEach(t => traits.add(t))`, `traits` holding the `Set` in insertion order. */
  method AddTraits(traits: seq<string>, ghost seen: seq<string>, added: seq<string>) returns (r: seq<string>)
    requires traits == Dedup(seen)
    ensures r == Dedup(seen + added)
  {
    r := traits;
    assert seen + added[..0] == seen;
    for j := 0 to |added|
      invariant r == Dedup(seen + added[..j])
    {
      var t := added[j];
      ghost var before := seen + added[..j];
      assert seen + added[..j + 1] == before + [t];
      DedupSnoc(before, t);
      if t !in r {
        r := r + [t];
      }
    }
    assert added[..|added|] == added;
  }

  /** The trait list holds exactly the roster's traits, each once, in ascending order. */
  lemma AllTraitsSorted(champions: seq<Champion>)
    ensures var r := Sort(Dedup(Solver.AllTraits(champions)), StrLe);
      && (forall t :: t in r <==> exists c :: c in champions && t in c.traits)
      && (forall i, j :: 0 <= i < j < |r| ==> StrLe(r[i], r[j]) && r[i] != r[j])
  {
    var d := Dedup(Solver.AllTraits(champions));
    var r := Sort(d, StrLe);
    RosterTraits(champions);
    assert forall t :: t in r <==> t in d by {
      forall t ensures t in r <==> t in d {
        assert t in r <==> t in multiset(r);
        assert t in d <==> t in multiset(d);
      }
    }
    forall a, b ensures StrLe(a, b) || StrLe(b, a) {
      StrLeTotal(a, b);
    }
    forall a, b, c | StrLe(a, b) && StrLe(b, c) ensures StrLe(a, c) {
      StrLeTransitive(a, b, c);
    }
    SortSorted(d, StrLe);
    NoDuplicatesSub(r, d);
  }

  /** What the `teamRecommendations` memo holds: nothing without emblems, else the solver's answer. */
  function Recommendations(champions: seq<Champion>, selectedEmblems: seq<string>): seq<Solver.TeamComp> {
    if |selectedEmblems| == 0 then [] else [Solver.Solution(champions, selectedEmblems)]
  }

  /** The memo as written: the guard, then `solveTeamComp(champions, selectedEmblems)`. */
  method TeamRecommendationsMemo(champions: seq<Champion>, selectedEmblems: seq<string>)
    returns (r: seq<Solver.TeamComp>)
    ensures r == Recommendations(champions, selectedEmblems)
  {
    if |selectedEmblems| == 0 {
      return [];
    }
    r := Solver.SolveTeamComp(champions, selectedEmblems);
  }

  /**
   * The page shows the placeholder exactly when no emblem is selected, and otherwise a
   * single card: the one the solver builds.
   */
  lemma RecommendationsView(champions: seq<Champion>, selectedEmblems: seq<string>)
    ensures var v := TeamRecommendations.ViewOf(Recommendations(champions, selectedEmblems), selectedEmblems);
      && (v.Placeholder? <==> |selectedEmblems| == 0)
      && (v.Cards? ==> v.cards == [TeamRecommendations.Badges(Solver.Solution(champions, selectedEmblems).activeSynergies)])
  {
  }

  /** The predicate of `prev.filter(t => t !== trait)`. */
  function Except(emblem: string): string -> bool {
    t => t != emblem
  }

  /** `toggleEmblem(trait)` applied to the previous selection. */
  function ToggleEmblem(prev: seq<string>, emblem: string): seq<string> {
    if emblem in prev then Filter(prev, Except(emblem)) else prev + [emblem]
  }

  /** Removing a value drops every copy of it and no copy of anything else. */
  lemma {:induction false} FilterExcept(s: seq<string>, emblem: string)
    ensures multiset(Filter(s, Except(emblem))) == multiset(s)[emblem := 0]
  {
    if s != [] {
      FilterExcept(s[1..], emblem);
      assert s == [s[0]] + s[1..];
    }
  }

  /**
   * A selected emblem is removed with all its copies and the rest keeps its order and
   * multiplicity: the i-th remaining emblem is the one at the i-th position of `prev`
   * that does not hold `emblem`. An unselected one is appended at the end.
   */
  lemma ToggleEmblemEffect(prev: seq<string>, emblem: string)
    ensures var r := ToggleEmblem(prev, emblem);
      && (emblem in r <==> emblem !in prev)
      && (emblem in prev ==> multiset(r) == multiset(prev)[emblem := 0])
      && (emblem in prev ==> var kept := PositionsFrom(prev, Except(emblem), 0);
            |r| == |kept| && forall i :: 0 <= i < |kept| ==> r[i] == prev[kept[i]])
      && (emblem !in prev ==> r == prev + [emblem])
  {
    if emblem in prev {
      FilterExcept(prev, emblem);
      FilterPositions(prev, Except(emblem));
      assert emblem !in multiset(ToggleEmblem(prev, emblem));
    }
  }

  /** Toggling an unselected emblem twice restores the selection. */
  lemma ToggleTwice(prev: seq<string>, emblem: string)
    requires emblem !in prev
    ensures ToggleEmblem(ToggleEmblem(prev, emblem), emblem) == prev
  {
    FilterAppend(prev, [emblem], Except(emblem));
    FilterAll(prev, Except(emblem));
    FilterNone([emblem], Except(emblem));
  }

  /** A selection without repeats stays without repeats. */
  lemma ToggleKeepsDistinct(prev: seq<string>, emblem: string)
    requires NoDuplicates(prev)
    ensures NoDuplicates(ToggleEmblem(prev, emblem))
  {
    if emblem in prev {
      NoDuplicatesSub(ToggleEmblem(prev, emblem), prev);
    }
  }
}
