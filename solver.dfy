/**
 * The team solver (lib/solver.ts): a greedy builder that scores every champion
 * against the selected emblems, takes the eight best, counts the traits of the
 * chosen team and labels the active ones.
 */
module Solver {
  import opened Lists
  import opened Strings
  import opened Tft

  /** `TEAM_SIZE`. */
  const TeamSize := 8

  /** The solver's result: the team, its total score and its synergy labels. */
  datatype TeamComp = TeamComp(champions: seq<Champion>, score: int, activeSynergies: seq<string>)

  /** A champion carrying the ranking fields the solver attaches to it. */
  datatype Scored = Scored(champ: Champion, rawScore: int, matchingTraits: seq<string>)

  /** A leftover champion carrying its filler score. */
  datatype Filler = Filler(champ: Champion, synergyScore: int)

  // ----- scoring and ranking -----

  /** The traits of `c` that are selected emblems, in the champion's order. */
  function MatchingTraits(c: Champion, emblems: seq<string>): (r: seq<string>)
    ensures forall t :: t in r <==> t in c.traits && t in emblems
  {
    Filter(c.traits, (t: string) => t in emblems)
  }

  /** The static score of one champion: 100 per matching trait, 5 per gold of cost. */
  function ScoreChampion(c: Champion, emblems: seq<string>): (s: Scored)
    ensures s.champ == c && s.matchingTraits == MatchingTraits(c, emblems)
    ensures s.rawScore == 100 * |MatchingTraits(c, emblems)| + 5 * c.cost
  {
    var matching := MatchingTraits(c, emblems);
    Scored(c, |matching| * 100 + c.cost * 5, matching)
  }

  /** `activeChampions.map(...)`: every champion with its static score, in roster order. */
  function ScoreAll(champs: seq<Champion>, emblems: seq<string>): (r: seq<Scored>)
    ensures |r| == |champs|
    ensures forall i :: 0 <= i < |champs| ==> r[i] == ScoreChampion(champs[i], emblems)
  {
    if champs == [] then [] else [ScoreChampion(champs[0], emblems)] + ScoreAll(champs[1..], emblems)
  }

  /** The comparator `(a, b) => b.rawScore - a.rawScore`, as "`a` may precede `b`". */
  predicate ByScore(a: Scored, b: Scored) {
    a.rawScore >= b.rawScore
  }

  /** The comparator `(a, b) => b.synergyScore - a.synergyScore`, as "`a` may precede `b`". */
  predicate BySynergy(a: Filler, b: Filler) {
    a.synergyScore >= b.synergyScore
  }

  /** The champions ranked by static score, highest first, ties in roster order. */
  function Ranked(champs: seq<Champion>, emblems: seq<string>): seq<Scored> {
    Sort(ScoreAll(champs, emblems), ByScore)
  }

  /** The chosen team: the first `TEAM_SIZE` ranked champions, or all of them. */
  function Team(champs: seq<Champion>, emblems: seq<string>): seq<Scored> {
    var ranked := Ranked(champs, emblems);
    ranked[..Min(TeamSize, |ranked|)]
  }

  /** `map(({ rawScore, matchingTraits, ...c }) => c)`: the champion records without ranking fields. */
  function Champions(team: seq<Scored>): (r: seq<Champion>)
    ensures |r| == |team|
    ensures forall i :: 0 <= i < |team| ==> r[i] == team[i].champ
  {
    if team == [] then [] else [team[0].champ] + Champions(team[1..])
  }

  /** The ids collected in `compIds`. */
  function Ids(team: seq<Scored>): set<string> {
    set x | x in team :: x.champ.id
  }

  // ----- trait counting -----

  /** Every trait of every team member, member by member, repetitions kept. */
  function AllTraits(members: seq<Champion>): seq<string> {
    if members == [] then [] else AllTraits(members[..|members| - 1]) + members[|members| - 1].traits
  }

  /** How many times `t` occurs across the team's members. */
  function Occurrences(members: seq<Champion>, t: string): nat {
    Count(AllTraits(members), t)
  }

  /** The distinct traits present on the team. */
  function TraitSet(members: seq<Champion>): set<string> {
    set t | t in AllTraits(members)
  }

  lemma AllTraitsSnoc(members: seq<Champion>, i: nat)
    requires i < |members|
    ensures AllTraits(members[..i + 1]) == AllTraits(members[..i]) + members[i].traits
  {
    assert members[..i + 1][..i] == members[..i];
  }

  /**
   * The state of a JavaScript `Map<string, number>` counting the elements of `seen`:
   * its keys in insertion order, and the count stored under each key.
   */
  ghost predicate Tally(seen: seq<string>, order: seq<string>, counts: map<string, nat>) {
    && order == Dedup(seen)
    && (forall t :: t in counts <==> t in seen)
    && (forall t :: t in counts ==> counts[t] == Count(seen, t))
  }

  lemma TallyKeys(seen: seq<string>, order: seq<string>, counts: map<string, nat>)
    requires Tally(seen, order, counts)
    ensures counts.Keys == set t | t in seen
  {
  }

  /** One `map.set(t, (map.get(t) || 0) + 1)`. */
  lemma TallyStep(seen: seq<string>, order: seq<string>, counts: map<string, nat>, t: string)
    requires Tally(seen, order, counts)
    ensures Tally(seen + [t], if t in counts then order else order + [t],
                  counts[t := (if t in counts then counts[t] else 0) + 1])
  {
    var seen', counts' := seen + [t], counts[t := (if t in counts then counts[t] else 0) + 1];
    DedupSnoc(seen, t);
    assert t in counts <==> t in seen;
    forall u ensures u in counts' <==> u in seen' {
      assert u in seen' <==> u in seen || u == t;
    }
    forall u | u in counts' ensures counts'[u] == Count(seen', u) {
      CountSnoc(seen, t, u);
    }
  }

  lemma TallyNext(seen: seq<string>, traits: seq<string>, j: nat, order: seq<string>, counts: map<string, nat>)
    requires j < |traits| && Tally(seen + traits[..j], order, counts)
    ensures var t := traits[j];
            Tally(seen + traits[..j + 1], if t in counts then order else order + [t],
                  counts[t := (if t in counts then counts[t] else 0) + 1])
  {
    assert seen + traits[..j + 1] == (seen + traits[..j]) + [traits[j]];
    TallyStep(seen + traits[..j], order, counts, traits[j]);
  }

  /** The inner `c.traits.forEach(...)` of lines 63-67 and 97-101: counts one member's traits. */
  method TallyTraits(traits: seq<string>, ghost seen: seq<string>, order0: seq<string>, counts0: map<string, nat>)
    returns (order: seq<string>, counts: map<string, nat>)
    requires Tally(seen, order0, counts0)
    ensures Tally(seen + traits, order, counts)
  {
    order, counts := order0, counts0;
    var j := 0;
    assert seen + traits[..0] == seen;
    while j < |traits|
      invariant 0 <= j <= |traits|
      invariant Tally(seen + traits[..j], order, counts)
    {
      var t := traits[j];
      TallyNext(seen, traits, j, order, counts);
      if t !in counts {
        order := order + [t];
      }
      counts := counts[t := (if t in counts then counts[t] else 0) + 1];
      j := j + 1;
    }
    assert traits[..j] == traits;
  }

  /** Lines 62-67 and 96-101: the trait counts of `members`, as a `Map`. */
  method CountTraits(members: seq<Champion>) returns (order: seq<string>, counts: map<string, nat>)
    ensures Tally(AllTraits(members), order, counts)
  {
    order, counts := [], map[];
    var i := 0;
    while i < |members|
      invariant 0 <= i <= |members|
      invariant Tally(AllTraits(members[..i]), order, counts)
    {
      order, counts := TallyTraits(members[i].traits, AllTraits(members[..i]), order, counts);
      AllTraitsSnoc(members, i);
      i := i + 1;
    }
    assert members[..i] == members;
  }

  /** A synergy counts as active with two or more units, or when it is a selected emblem. */
  predicate IsActive(members: seq<Champion>, emblems: seq<string>, t: string) {
    Occurrences(members, t) >= 2 || t in emblems
  }

  /** The label `` `${trait} (${count})` ``. */
  function SynergyLabel(t: string, n: nat): string {
    t + " (" + Numeral(n, 10) + ")"
  }

  /** The labels pushed for the keys `keys`, in key order. */
  function Labels(keys: seq<string>, members: seq<Champion>, emblems: seq<string>): seq<string> {
    if keys == [] then []
    else
      var t := keys[|keys| - 1];
      Labels(keys[..|keys| - 1], members, emblems)
        + (if IsActive(members, emblems, t) then [SynergyLabel(t, Occurrences(members, t))] else [])
  }

  /** `activeSynergies` before sorting: one label per active trait, in first-occurrence order. */
  function SynergyLabels(members: seq<Champion>, emblems: seq<string>): seq<string> {
    Labels(Dedup(AllTraits(members)), members, emblems)
  }

  /** `currentComp.reduce((sum, c) => sum + (c.rawScore || 0) + (c.cost || 0), 0)`. */
  function TotalScore(team: seq<Scored>): int {
    if team == [] then 0
    else TotalScore(team[..|team| - 1]) + team[|team| - 1].rawScore + team[|team| - 1].champ.cost
  }

  /** The single composition the solver returns for a non-empty emblem selection. */
  function Solution(champs: seq<Champion>, emblems: seq<string>): TeamComp {
    var team := Team(champs, emblems);
    var members := Champions(team);
    TeamComp(members, TotalScore(team), Sort(SynergyLabels(members, emblems), StrLe))
  }

  // ----- the filler phase -----

  /** `activeChampions.filter(c => !compIds.has(c.id))`. */
  function Remaining(champs: seq<Champion>, ids: set<string>): seq<Champion> {
    Filter(champs, (c: Champion) => c.id !in ids)
  }

  /** 10 per trait of `c` already present on the team, plus the cost. */
  function SynergyScore(c: Champion, present: set<string>): int {
    10 * |Filter(c.traits, (t: string) => t in present)| + c.cost
  }

  function FillerCandidates(pool: seq<Champion>, present: set<string>): (r: seq<Filler>)
    ensures |r| == |pool|
    ensures forall i :: 0 <= i < |pool| ==> r[i] == Filler(pool[i], SynergyScore(pool[i], present))
  {
    if pool == [] then [] else [Filler(pool[0], SynergyScore(pool[0], present))] + FillerCandidates(pool[1..], present)
  }

  /** A filler pushed into the team, its ranking fields zeroed. */
  function AsScored(fillers: seq<Filler>): (r: seq<Scored>)
    ensures |r| == |fillers|
    ensures forall i :: 0 <= i < |fillers| ==> r[i] == Scored(fillers[i].champ, 0, [])
  {
    if fillers == [] then [] else [Scored(fillers[0].champ, 0, [])] + AsScored(fillers[1..])
  }

  /** The fillers in the order lines 70-83 produce them, formatted as team members. */
  function FillerRanking(comp: seq<Scored>, compIds: set<string>, activeChampions: seq<Champion>): seq<Scored> {
    var pool := FillerCandidates(Remaining(activeChampions, compIds), TraitSet(Champions(comp)));
    AsScored(Sort(pool, BySynergy))
  }

  /** Lines 62-83: the champions not yet taken, best synergy with the team first. */
  method RankFillers(comp: seq<Scored>, compIds: set<string>, activeChampions: seq<Champion>)
    returns (fillerCandidates: seq<Filler>)
    ensures AsScored(fillerCandidates) == FillerRanking(comp, compIds, activeChampions)
  {
    var order, currentTraits := CountTraits(Champions(comp));
    TallyKeys(AllTraits(Champions(comp)), order, currentTraits);
    var remainingChampions := Remaining(activeChampions, compIds);
    fillerCandidates := FillerCandidates(remainingChampions, currentTraits.Keys);
    fillerCandidates := Sort(fillerCandidates, BySynergy);
  }

  /** Lines 86-89: pushes fillers, zeroing their ranking fields, until the team is full. */
  method PushFillers(comp: seq<Scored>, fillerCandidates: seq<Filler>) returns (filled: seq<Scored>)
    requires |comp| < TeamSize
    ensures var pushed := AsScored(fillerCandidates);
            filled == comp + pushed[..Min(TeamSize - |comp|, |pushed|)]
  {
    ghost var pushed := AsScored(fillerCandidates);
    filled := comp;
    var k := 0;
    while k < |fillerCandidates|
      invariant 0 <= k <= |fillerCandidates|
      invariant filled == comp + pushed[..k]
      invariant |filled| == |comp| + k <= TeamSize
    {
      if |filled| >= TeamSize {
        break;
      }
      assert pushed[..k + 1] == pushed[..k] + [pushed[k]];
      filled := filled + [Scored(fillerCandidates[k].champ, 0, [])];
      k := k + 1;
    }
    assert k == Min(TeamSize - |comp|, |pushed|);
  }

  /**
   * Lines 60-90: tops `comp` up to `TEAM_SIZE` with the champions whose id is not yet
   * taken, those sharing the most traits with the team first.
   */
  method FillWithSynergyBots(comp: seq<Scored>, compIds: set<string>, activeChampions: seq<Champion>)
    returns (filled: seq<Scored>)
    requires |comp| < TeamSize
    ensures var fillers := FillerRanking(comp, compIds, activeChampions);
            filled == comp + fillers[..Min(TeamSize - |comp|, |fillers|)]
  {
    var fillerCandidates := RankFillers(comp, compIds, activeChampions);
    filled := PushFillers(comp, fillerCandidates);
  }

  // ----- the solver -----

  /** Lines 49-57: takes the best candidates, in ranking order, up to `TEAM_SIZE`. */
  method TakeTopCandidates(scoredChampions: seq<Scored>) returns (currentComp: seq<Scored>, compIds: set<string>)
    ensures currentComp == scoredChampions[..Min(TeamSize, |scoredChampions|)]
    ensures compIds == Ids(currentComp)
  {
    currentComp, compIds := [], {};
    var k := 0;
    while k < |scoredChampions|
      invariant 0 <= k <= |scoredChampions| && k <= TeamSize
      invariant currentComp == scoredChampions[..k]
      invariant compIds == Ids(currentComp)
    {
      if |currentComp| >= TeamSize {
        break;
      }
      currentComp := currentComp + [scoredChampions[k]];
      compIds := compIds + {scoredChampions[k].champ.id};
      k := k + 1;
    }
  }

  /** Lines 103-111: one label per counted trait that is active, in key order. */
  method CollectSynergies(order: seq<string>, traitCounts: map<string, nat>,
                          finalChampions: seq<Champion>, selectedEmblems: seq<string>)
    returns (activeSynergies: seq<string>)
    requires Tally(AllTraits(finalChampions), order, traitCounts)
    ensures activeSynergies == SynergyLabels(finalChampions, selectedEmblems)
  {
    activeSynergies := [];
    var m := 0;
    while m < |order|
      invariant 0 <= m <= |order|
      invariant activeSynergies == Labels(order[..m], finalChampions, selectedEmblems)
    {
      var t := order[m];
      assert t in AllTraits(finalChampions);
      var count := traitCounts[t];
      if count >= 2 || t in selectedEmblems {
        activeSynergies := activeSynergies + [SynergyLabel(t, count)];
      }
      assert order[..m + 1][..m] == order[..m];
      m := m + 1;
    }
    assert order[..m] == order;
  }

  /** `solveTeamComp(activeChampions, selectedEmblems)`. */
  method SolveTeamComp(activeChampions: seq<Champion>, selectedEmblems: seq<string>)
    returns (result: seq<TeamComp>)
    ensures |selectedEmblems| == 0 ==> result == []
    ensures |selectedEmblems| > 0 ==> result == [Solution(activeChampions, selectedEmblems)]
  {
    if |selectedEmblems| == 0 {
      return [];
    }

    var scoredChampions := ScoreAll(activeChampions, selectedEmblems);
    scoredChampions := Sort(scoredChampions, ByScore);

    var currentComp, compIds := TakeTopCandidates(scoredChampions);
    assert currentComp == Team(activeChampions, selectedEmblems);

    if |currentComp| < TeamSize {
      ghost var before := currentComp;
      FillerPoolEmpty(activeChampions, selectedEmblems);
      currentComp := FillWithSynergyBots(currentComp, compIds, activeChampions);
      assert currentComp == before;
    }

    var finalChampions := Champions(currentComp);
    var order, traitCounts := CountTraits(finalChampions);
    var activeSynergies := CollectSynergies(order, traitCounts, finalChampions, selectedEmblems);
    var totalScore := TotalScore(currentComp);
    result := [TeamComp(finalChampions, totalScore, Sort(activeSynergies, StrLe))];
  }

  /**
   * The filler pool is always empty: fewer than `TEAM_SIZE` champions are taken only
   * when every champion was taken, so every id is already in `compIds`.
   */
  lemma FillerPoolEmpty(champs: seq<Champion>, emblems: seq<string>)
    requires |Team(champs, emblems)| < TeamSize
    ensures Remaining(champs, Ids(Team(champs, emblems))) == []
  {
    var ids := Ids(Team(champs, emblems));
    EveryIdTaken(champs, emblems);
    FilterNone(champs, (c: Champion) => c.id !in ids);
  }

  lemma EveryIdTaken(champs: seq<Champion>, emblems: seq<string>)
    requires |Team(champs, emblems)| < TeamSize
    ensures forall c :: c in champs ==> c.id in Ids(Team(champs, emblems))
  {
    var scored := ScoreAll(champs, emblems);
    var team := Team(champs, emblems);
    assert team == Sort(scored, ByScore);
    forall c | c in champs ensures c.id in Ids(team) {
      var i :| 0 <= i < |champs| && champs[i] == c;
      assert scored[i] in multiset(team);
      assert scored[i].champ == c;
    }
  }

  // ----- properties of the solution -----

  lemma ByScoreIsTotalPreorder()
    ensures TotalPreorder(ByScore)
  {
  }

  /** Every ranked record is a roster champion carrying its own static score. */
  lemma RankedRecords(champs: seq<Champion>, emblems: seq<string>)
    ensures multiset(Ranked(champs, emblems)) == multiset(ScoreAll(champs, emblems))
    ensures forall x :: x in Ranked(champs, emblems) ==> x == ScoreChampion(x.champ, emblems) && x.champ in champs
  {
    var scored := ScoreAll(champs, emblems);
    forall x | x in Ranked(champs, emblems) ensures x == ScoreChampion(x.champ, emblems) && x.champ in champs {
      assert x in multiset(scored);
      var i :| 0 <= i < |scored| && scored[i] == x;
    }
  }

  /** No ranked record after position `k` scores more than one before it. */
  lemma PrefixDominates(ranked: seq<Scored>, k: nat)
    requires k <= |ranked| && SortedBy(ranked, ByScore)
    ensures forall x, y :: x in ranked[..k] && y in multiset(ranked) - multiset(ranked[..k]) ==> y.rawScore <= x.rawScore
  {
    LeftOver(ranked, k);
    forall x: Scored, y: Scored | x in ranked[..k] && y in ranked[k..] ensures y.rawScore <= x.rawScore {
      var i :| 0 <= i < k && ranked[..k][i] == x;
      var j :| 0 <= j < |ranked| - k && ranked[k..][j] == y;
      assert ByScore(ranked[i], ranked[k + j]);
    }
  }

  /** What a prefix leaves of a sequence's multiset is the multiset of the rest. */
  lemma LeftOver(s: seq<Scored>, k: nat)
    requires k <= |s|
    ensures multiset(s) - multiset(s[..k]) == multiset(s[k..])
  {
    assert s == s[..k] + s[k..];
  }

  /**
   * The team is the best `TEAM_SIZE` champions (or all of them): it is ordered by
   * descending static score, and no champion left out scores more than one taken.
   */
  lemma TeamIsTopRanked(champs: seq<Champion>, emblems: seq<string>)
    ensures |Team(champs, emblems)| == Min(TeamSize, |champs|)
    ensures var team := Team(champs, emblems);
      forall i, j :: 0 <= i < j < |team| ==> team[i].rawScore >= team[j].rawScore
    ensures var team := Team(champs, emblems);
      forall x, y :: x in team && y in multiset(ScoreAll(champs, emblems)) - multiset(team) ==> y.rawScore <= x.rawScore
  {
    var ranked := Ranked(champs, emblems);
    ByScoreIsTotalPreorder();
    SortSorted(ScoreAll(champs, emblems), ByScore);
    PrefixDominates(ranked, |Team(champs, emblems)|);
  }

  /** Every team member is a roster champion scored 100 per matching emblem plus 5 per gold. */
  lemma TeamMembersScored(champs: seq<Champion>, emblems: seq<string>)
    ensures forall x :: x in Team(champs, emblems) ==>
      x.champ in champs && x.rawScore == 100 * |MatchingTraits(x.champ, emblems)| + 5 * x.champ.cost
  {
    RankedRecords(champs, emblems);
    var ranked := Ranked(champs, emblems);
    assert forall x :: x in Team(champs, emblems) ==> x in ranked;
  }

  /** Stability: champions with equal static scores keep their roster order in the ranking. */
  lemma TiesKeepRosterOrder(champs: seq<Champion>, emblems: seq<string>, k: Scored)
    ensures Peers(Ranked(champs, emblems), k, ByScore) == Peers(ScoreAll(champs, emblems), k, ByScore)
  {
    ByScoreIsTotalPreorder();
    SortStable(ScoreAll(champs, emblems), k, ByScore);
  }

  /**
   * The returned champions are the team's roster records, stripped of the ranking
   * fields, as many as `TEAM_SIZE` allows.
   */
  lemma SolutionChampions(champs: seq<Champion>, emblems: seq<string>)
    ensures var members := Solution(champs, emblems).champions;
      && |members| == Min(TeamSize, |champs|)
      && (forall i :: 0 <= i < |members| ==> members[i] == Team(champs, emblems)[i].champ)
      && (forall c :: c in members ==> c in champs)
  {
    TeamMembersScored(champs, emblems);
    var team := Team(champs, emblems);
    forall c | c in Champions(team) ensures c in champs {
      var i :| 0 <= i < |team| && Champions(team)[i] == c;
      assert team[i] in team;
    }
  }

  /** When the roster's ids are unique, no id repeats on the team. */
  lemma SolutionIdsUnique(champs: seq<Champion>, emblems: seq<string>)
    requires forall i, j :: 0 <= i < j < |champs| ==> champs[i].id != champs[j].id
    ensures var members := Solution(champs, emblems).champions;
      forall i, j :: 0 <= i < j < |members| ==> members[i].id != members[j].id
  {
    var team := Team(champs, emblems);
    var members := Champions(team);
    var scored := ScoreAll(champs, emblems);
    assert NoDuplicates(scored) by {
      forall i, j | 0 <= i < j < |scored| ensures scored[i] != scored[j] {
        assert scored[i].champ == champs[i] && scored[j].champ == champs[j];
      }
    }
    RankedRecords(champs, emblems);
    NoDuplicatesSub(Ranked(champs, emblems), scored);
    forall i, j | 0 <= i < j < |members| ensures members[i].id != members[j].id {
      assert team[i] != team[j];
      assert team[i] in Ranked(champs, emblems) && team[j] in Ranked(champs, emblems);
      var p :| 0 <= p < |champs| && champs[p] == members[i];
      var q :| 0 <= q < |champs| && champs[q] == members[j];
      assert p != q;
    }
  }

  /** A team member's contribution to `score`: its static score plus its cost. */
  function Merit(c: Champion, emblems: seq<string>): int {
    100 * |MatchingTraits(c, emblems)| + 6 * c.cost
  }

  function MeritSum(members: seq<Champion>, emblems: seq<string>): int {
    if members == [] then 0
    else MeritSum(members[..|members| - 1], emblems) + Merit(members[|members| - 1], emblems)
  }

  lemma {:induction false} TotalScoreIsMeritSum(team: seq<Scored>, emblems: seq<string>)
    requires forall x :: x in team ==> x == ScoreChampion(x.champ, emblems)
    ensures TotalScore(team) == MeritSum(Champions(team), emblems)
  {
    if team != [] {
      var n := |team| - 1;
      assert team[n] in team;
      assert Champions(team)[..n] == Champions(team[..n]);
      TotalScoreIsMeritSum(team[..n], emblems);
    }
  }

  /** `score` is the sum over the team of 100 per matching emblem plus 6 per gold of cost. */
  lemma SolutionScore(champs: seq<Champion>, emblems: seq<string>)
    ensures Solution(champs, emblems).score == MeritSum(Solution(champs, emblems).champions, emblems)
  {
    RankedRecords(champs, emblems);
    TotalScoreIsMeritSum(Team(champs, emblems), emblems);
  }

  lemma {:induction false} LabelsMembers(keys: seq<string>, members: seq<Champion>, emblems: seq<string>)
    ensures forall l :: l in Labels(keys, members, emblems) <==>
      exists t :: t in keys && IsActive(members, emblems, t) && l == SynergyLabel(t, Occurrences(members, t))
  {
    if keys != [] {
      var n := |keys| - 1;
      LabelsMembers(keys[..n], members, emblems);
      assert keys == keys[..n] + [keys[n]];
    }
  }

  /** Two labels are equal only for the same trait and count. */
  lemma SynergyLabelInjective(a: string, m: nat, b: string, n: nat)
    ensures SynergyLabel(a, m) == SynergyLabel(b, n) ==> a == b && m == n
  {
    var s, s' := SynergyLabel(a, m), SynergyLabel(b, n);
    var da, db := Numeral(m, 10), Numeral(n, 10);
    assert |s| == |a| + |da| + 3 && s[|a| + 1] == '(';
    assert |s'| == |b| + |db| + 3 && s'[|b| + 1] == '(';
    assert s[|a| + 2..|s| - 1] == da && s'[|b| + 2..|s'| - 1] == db;
    assert forall i :: |a| + 2 <= i < |s| - 1 ==> IsDecimalDigit(s[i]);
    assert forall i :: |b| + 2 <= i < |s'| - 1 ==> IsDecimalDigit(s'[i]);
    if s == s' {
      assert |a| == |b|;
      assert a == s[..|a|] && b == s'[..|b|];
    }
  }

  lemma {:induction false} LabelsDistinct(keys: seq<string>, members: seq<Champion>, emblems: seq<string>)
    requires NoDuplicates(keys)
    ensures NoDuplicates(Labels(keys, members, emblems))
  {
    if keys != [] {
      var n := |keys| - 1;
      var t := keys[n];
      assert NoDuplicates(keys[..n]);
      LabelsDistinct(keys[..n], members, emblems);
      LabelsMembers(keys[..n], members, emblems);
      assert t !in keys[..n];
      var newLabel := SynergyLabel(t, Occurrences(members, t));
      forall u | u in keys[..n] ensures SynergyLabel(u, Occurrences(members, u)) != newLabel {
        SynergyLabelInjective(u, Occurrences(members, u), t, Occurrences(members, t));
      }
      assert newLabel !in Labels(keys[..n], members, emblems);
    }
  }

  /**
   * `activeSynergies` labels exactly the traits on the team that occur at least twice or
   * are selected emblems, each with its number of occurrences across the team, once each,
   * in ascending order.
   */
  lemma SolutionSynergies(champs: seq<Champion>, emblems: seq<string>)
    ensures var sol := Solution(champs, emblems);
      && (forall l :: l in sol.activeSynergies <==>
          exists t :: t in AllTraits(sol.champions) && IsActive(sol.champions, emblems, t)
                      && l == SynergyLabel(t, Occurrences(sol.champions, t)))
      && SortedBy(sol.activeSynergies, StrLe)
      && NoDuplicates(sol.activeSynergies)
  {
    var sol := Solution(champs, emblems);
    var members := sol.champions;
    var keys := Dedup(AllTraits(members));
    var labels := SynergyLabels(members, emblems);
    LabelsMembers(keys, members, emblems);
    LabelsDistinct(keys, members, emblems);
    assert forall l :: l in sol.activeSynergies <==> l in labels by {
      assert multiset(sol.activeSynergies) == multiset(labels);
      forall l ensures l in sol.activeSynergies <==> l in labels {
        assert l in sol.activeSynergies <==> l in multiset(sol.activeSynergies);
        assert l in labels <==> l in multiset(labels);
      }
    }
    forall a, b ensures StrLe(a, b) || StrLe(b, a) {
      StrLeTotal(a, b);
    }
    forall a, b, c | StrLe(a, b) && StrLe(b, c) ensures StrLe(a, c) {
      StrLeTransitive(a, b, c);
    }
    SortSorted(labels, StrLe);
    NoDuplicatesSub(sol.activeSynergies, labels);
  }
}
