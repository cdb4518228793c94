/**
 * The champion picker of components/ChampionSelector.tsx: the roster filtered by a
 * search text and an optional cost and sorted by cost then name, and the toggle that
 * adds a champion to the initial team or removes it by name.
 */
module ChampionSelector {
  import opened Wrappers
  import opened Lists
  import opened Strings
  import opened Tft

  /** The `filter` callback: the search test when `search` is non-empty, then the cost test. */
  predicate Passes(c: Champion, search: string, filterCost: Option<int>) {
    && (search == [] || Contains(Lower(c.name), Lower(search)))
    && (filterCost.None? || c.cost == filterCost.value)
  }

  /** The comparator `a.cost - b.cost || a.name.localeCompare(b.name)`, as "`a` may precede `b`". */
  predicate ByCostThenName(a: Champion, b: Champion) {
    if a.cost - b.cost != 0 then a.cost - b.cost < 0 else StrLe(a.name, b.name)
  }

  lemma ByCostThenNameIsTotalPreorder()
    ensures TotalPreorder(ByCostThenName)
  {
    forall a, b ensures ByCostThenName(a, b) || ByCostThenName(b, a) {
      StrLeTotal(a.name, b.name);
    }
    forall a, b, c | ByCostThenName(a, b) && ByCostThenName(b, c) ensures ByCostThenName(a, c) {
      if a.cost == b.cost == c.cost {
        StrLeTransitive(a.name, b.name, c.name);
      }
    }
  }

  /** The `filteredChampions` memo. */
  function FilteredChampions(champions: seq<Champion>, search: string, filterCost: Option<int>): seq<Champion> {
    Sort(Filter(champions, (c: Champion) => Passes(c, search, filterCost)), ByCostThenName)
  }

  /**
   * A champion is listed exactly when it is on the roster and passes the search and
   * the cost tests, as often as it occurs on the roster.
   */
  lemma FilteredMembers(champions: seq<Champion>, search: string, filterCost: Option<int>, c: Champion)
    ensures var r := FilteredChampions(champions, search, filterCost);
      && (c in r <==> c in champions && Passes(c, search, filterCost))
      && multiset(r)[c] == (if Passes(c, search, filterCost) then multiset(champions)[c] else 0)
  {
    var p := (c: Champion) => Passes(c, search, filterCost);
    var kept := Filter(champions, p);
    FilterCount(champions, p, c);
    assert c in FilteredChampions(champions, search, filterCost) <==> c in multiset(kept);
  }

  lemma {:induction false} FilterCount(s: seq<Champion>, p: Champion -> bool, c: Champion)
    ensures multiset(Filter(s, p))[c] == if p(c) then multiset(s)[c] else 0
  {
    if s != [] {
      FilterCount(s[1..], p, c);
      assert s == [s[0]] + s[1..];
    }
  }

  /** A listed champion's name contains the search text, ignoring case, and has the chosen cost. */
  lemma FilteredSound(champions: seq<Champion>, search: string, filterCost: Option<int>, c: Champion)
    requires c in FilteredChampions(champions, search, filterCost)
    ensures search != [] ==> exists i :: MatchesAt(Lower(c.name), Lower(search), i)
    ensures filterCost.Some? ==> c.cost == filterCost.value
  {
    FilteredMembers(champions, search, filterCost, c);
  }

  /** The list is ordered by cost, ties by name. */
  lemma FilteredSorted(champions: seq<Champion>, search: string, filterCost: Option<int>)
    ensures var r := FilteredChampions(champions, search, filterCost);
      forall i, j :: 0 <= i < j < |r| ==>
        r[i].cost < r[j].cost || (r[i].cost == r[j].cost && StrLe(r[i].name, r[j].name))
  {
    ByCostThenNameIsTotalPreorder();
    SortSorted(Filter(champions, (c: Champion) => Passes(c, search, filterCost)), ByCostThenName);
  }

  /** `initialTeam.some(c => c.name === champ.name)`: identity is by name. */
  predicate IsSelected(team: seq<Champion>, champion: Champion) {
    exists c :: c in team && c.name == champion.name
  }

  function OtherName(name: string): Champion -> bool {
    (c: Champion) => c.name != name
  }

  /** `handleToggleChampion(champion)` applied to `initialTeam`. */
  function ToggleChampion(team: seq<Champion>, champion: Champion): seq<Champion> {
    if IsSelected(team, champion) then Filter(team, OtherName(champion.name))
    else team + [champion]
  }

  /**
   * Toggling flips whether the champion's name is on the team. Removing drops every
   * member with that name and keeps every other, in order and with its multiplicity:
   * the i-th member left is the i-th member of `team` with another name. Adding
   * appends, with no size limit.
   */
  lemma ToggleChampionEffect(team: seq<Champion>, champion: Champion)
    ensures var r := ToggleChampion(team, champion);
      && (IsSelected(r, champion) <==> !IsSelected(team, champion))
      && (IsSelected(team, champion) ==> forall c :: c in r <==> c in team && c.name != champion.name)
      && (IsSelected(team, champion) ==> var kept := PositionsFrom(team, OtherName(champion.name), 0);
            |r| == |kept| && forall i :: 0 <= i < |kept| ==> r[i] == team[kept[i]])
      && (!IsSelected(team, champion) ==> r == team + [champion] && |r| == |team| + 1)
  {
    var r := ToggleChampion(team, champion);
    if !IsSelected(team, champion) {
      assert champion in r;
    } else {
      FilterPositions(team, OtherName(champion.name));
    }
  }
}
