/**
 * The synergy badges of components/TeamRecommendations.tsx: each `activeSynergies`
 * label `Name (n)` is parsed back, the trait's breakpoints are scanned for the tier
 * reached, and the tier chooses the badge colour. With no selected emblems a
 * placeholder replaces the team cards.
 */
module TeamRecommendations {
  import opened Wrappers
  import opened Lists
  import opened Strings
  import opened Tft
  import opened TraitRules
  import Solver

  // ----- the label parse -----

  /** The start of the run of decimal digits that ends just before position `end`. */
  function DigitRunStart(s: string, end: nat): (m: nat)
    requires end <= |s|
    ensures m <= end
    ensures forall i :: m <= i < end ==> IsDecimalDigit(s[i])
    ensures m == 0 || !IsDecimalDigit(s[m - 1])
  {
    if end == 0 || !IsDecimalDigit(s[end - 1]) then end else DigitRunStart(s, end - 1)
  }

  /** What `.+` can match: one or more characters, none a line terminator. */
  predicate DotPlus(s: string) {
    |s| >= 1 && forall i :: 0 <= i < |s| ==> !IsLineTerminator(s[i])
  }

  /** What `\d+` can match. */
  predicate DecimalDigits(s: string) {
    |s| >= 1 && forall i :: 0 <= i < |s| ==> IsDecimalDigit(s[i])
  }

  /**
   * `s` matches `^(.+)\s\((\d+)\)$` with `name` as the first group, `sp` as the `\s`
   * character and `digits` as the second group.
   */
  predicate LabelShape(s: string, name: string, sp: char, digits: string) {
    && s == name + [sp] + "(" + digits + ")"
    && DotPlus(name)
    && IsRegexSpace(sp)
    && DecimalDigits(digits)
  }

  /** `parseInt(digits, 10)` on a run of decimal digits. */
  function ParseDecimal(digits: string): nat
    requires forall i :: 0 <= i < |digits| ==> IsDecimalDigit(digits[i])
  {
    forall i | 0 <= i < |digits| ensures 0 <= DigitValue(digits[i]) < 10 {
      assert IsDecimalDigit(digits[i]);
    }
    ValueOf(digits, 10)
  }

  /**
   * `syn.match(/^(.+)\s\((\d+)\)$/)` and `parseInt(match[2], 10)`: the trait name and the
   * count, or `None` where the match fails. The digit group can only be the whole run of
   * digits in front of the final ")", since the "(" before it is not a digit.
   */
  function ParseSynergy(s: string): Option<(string, nat)> {
    if |s| == 0 || s[|s| - 1] != ')' then None
    else
      var m := DigitRunStart(s, |s| - 1);
      if m == |s| - 1 || m < 3 || s[m - 1] != '(' || !IsRegexSpace(s[m - 2]) || !DotPlus(s[..m - 2]) then None
      else Some((s[..m - 2], ParseDecimal(s[m..|s| - 1])))
  }

  /** A label the parse accepts has the shape of the regular expression. */
  lemma ParseSynergySound(s: string) returns (sp: char, digits: string)
    requires ParseSynergy(s).Some?
    ensures LabelShape(s, ParseSynergy(s).value.0, sp, digits)
    ensures ParseSynergy(s).value.1 == ParseDecimal(digits)
  {
    var m := DigitRunStart(s, |s| - 1);
    sp, digits := s[m - 2], s[m..|s| - 1];
    assert s == s[..m - 2] + [sp] + "(" + digits + ")";
  }

  /** Every label of that shape is accepted, with its own name and count. */
  lemma ParseSynergyComplete(s: string, name: string, sp: char, digits: string)
    requires LabelShape(s, name, sp, digits)
    ensures ParseSynergy(s) == Some((name, ParseDecimal(digits)))
  {
    var open := |name| + 1;
    assert s[open] == '(' && s[open - 1] == sp && s[|s| - 1] == ')';
    assert forall i :: open < i < |s| - 1 ==> s[i] == digits[i - open - 1];
    assert !IsDecimalDigit(s[open]);
    assert forall i :: open < i < |s| - 1 ==> IsDecimalDigit(s[i]);
    var m := DigitRunStart(s, |s| - 1);
    assert m == open + 1;
    assert s[..m - 2] == name;
    assert s[m..|s| - 1] == digits;
  }

  /** Every label the solver emits parses back to its trait and count. */
  lemma LabelRoundTrip(t: string, n: nat)
    requires DotPlus(t)
    ensures ParseSynergy(Solver.SynergyLabel(t, n)) == Some((t, n))
  {
    var digits := Numeral(n, 10);
    assert DecimalDigits(digits) by {
      forall i | 0 <= i < |digits| ensures IsDecimalDigit(digits[i]) {
        assert 0 <= DigitValue(digits[i]) < 10;
      }
    }
    assert Solver.SynergyLabel(t, n) == t + [' '] + "(" + digits + ")";
    ParseSynergyComplete(Solver.SynergyLabel(t, n), t, ' ', digits);
  }

  // ----- the tier scan -----

  /**
   * The tier a count reaches: the last position of the longest run of breakpoints from the
   * start that are all at most `count`, or -1 when `count` is below the first.
   */
  function Tier(count: int, bp: seq<int>): (tier: int)
    ensures -1 <= tier < |bp|
    ensures forall b :: 0 <= b <= tier ==> bp[b] <= count
    ensures tier + 1 == |bp| || count < bp[tier + 1]
  {
    if bp == [] || count < bp[0] then -1 else 1 + Tier(count, bp[1..])
  }

  /** The `for` loop over `breakpoints` that stops at the first one above `count`. */
  method TierScan(count: int, bp: seq<int>) returns (tier: int)
    ensures tier == Tier(count, bp)
  {
    tier := -1;
    for b := 0 to |bp|
      invariant tier == b - 1
      invariant forall i :: 0 <= i < b ==> bp[i] <= count
    {
      if count >= bp[b] {
        tier := b;
      } else {
        break;
      }
    }
  }

  /** For strictly increasing breakpoints, `tier + 1` breakpoints are at most `count`. */
  lemma {:induction false} TierCountsBreakpoints(count: int, bp: seq<int>)
    requires StrictlyIncreasing(bp)
    ensures Tier(count, bp) + 1 == |Filter(bp, (b: int) => b <= count)|
  {
    if bp != [] {
      assert StrictlyIncreasing(bp[1..]);
      if count < bp[0] {
        assert forall b :: b in bp ==> !(b <= count) by {
          forall b | b in bp ensures b > count {
            var i :| 0 <= i < |bp| && bp[i] == b;
            assert i == 0 || bp[0] < bp[i];
          }
        }
        FilterNone(bp, (b: int) => b <= count);
      } else {
        TierCountsBreakpoints(count, bp[1..]);
      }
    }
  }

  /** A larger count never reaches a lower tier. */
  lemma {:induction false} TierMonotone(c1: int, c2: int, bp: seq<int>)
    requires c1 <= c2
    ensures Tier(c1, bp) <= Tier(c2, bp)
  {
    if bp != [] && c1 >= bp[0] {
      TierMonotone(c1, c2, bp[1..]);
    }
  }

  /** Reaching the last breakpoint reaches the top tier. */
  lemma {:induction false} TierTop(count: int, bp: seq<int>)
    requires StrictlyIncreasing(bp) && bp != [] && count >= bp[|bp| - 1]
    ensures Tier(count, bp) == |bp| - 1
  {
    assert |bp| == 1 || bp[0] < bp[|bp| - 1];
    if |bp| > 1 {
      assert StrictlyIncreasing(bp[1..]);
      TierTop(count, bp[1..]);
    }
  }

  // ----- the badge style -----

  /** The keys of `TRAIT_STYLES`. */
  datatype Style = Default | Bronze | Silver | Gold | Prismatic | Unique

  /** How far up the colours go, from inactive to the unique Origin colour. */
  function Rank(s: Style): nat {
    match s
    case Default => 0
    case Bronze => 1
    case Silver => 2
    case Gold => 3
    case Prismatic => 4
    case Unique => 5
  }

  /** The colour the branches after the scan choose for a known trait at `tier`. */
  function StyleFor(rule: TraitRule, tier: int): Style {
    var last := |rule.breakpoints| - 1;
    if tier < 0 then Default
    else if rule.kind == Origin then Unique
    else if rule.isPrismatic then
      if tier == last then Prismatic
      else if tier == last - 1 then Gold
      else if tier == 0 then Bronze
      else Silver
    else if tier == last then Gold
    else if tier == 0 then Bronze
    else Silver
  }

  /** The colour of a `name (count)` badge: `TRAIT_RULES[name]`, the scan, the branches. */
  function StyleOf(name: string, count: int): Style {
    match RuleOf(name)
    case None => Default
    case Some(rule) => StyleFor(rule, Tier(count, rule.breakpoints))
  }

  /** What is rendered for one synergy: the count text, the trait name and the colour. */
  datatype Badge = Badge(name: string, displayCount: string, style: Style)

  /** The result of the `activeSynergies.map` callback; `None` where it returns `null`. */
  function BadgeOf(syn: string): Option<Badge> {
    match ParseSynergy(syn)
    case None => None
    case Some((name, count)) => Some(Badge(name, Numeral(count, 10), StyleOf(name, count)))
  }

  /** The callback as written: a default style, the scan, then the branches that reassign it. */
  method RenderSynergy(syn: string) returns (badge: Option<Badge>)
    ensures badge == BadgeOf(syn)
  {
    var parsed := ParseSynergy(syn);
    if parsed.None? {
      return None;
    }
    var name, count := parsed.value.0, parsed.value.1;
    var traitRule := RuleOf(name);
    var styleClass := Default;
    var displayCount := Numeral(count, 10);
    if traitRule.Some? {
      var breakpoints, isPrismatic := traitRule.value.breakpoints, traitRule.value.isPrismatic;
      var tier := TierScan(count, breakpoints);
      if tier >= 0 {
        if traitRule.value.kind == Origin {
          styleClass := Unique;
        } else if isPrismatic {
          if tier == |breakpoints| - 1 {
            styleClass := Prismatic;
          } else if tier == |breakpoints| - 2 {
            styleClass := Gold;
          } else if tier == 0 {
            styleClass := Bronze;
          } else {
            styleClass := Silver;
          }
        } else {
          if tier == |breakpoints| - 1 {
            styleClass := Gold;
          } else if tier == 0 {
            styleClass := Bronze;
          } else {
            styleClass := Silver;
          }
        }
      }
    }
    badge := Some(Badge(name, displayCount, styleClass));
  }

  /** A syn without the `Name (n)` shape renders nothing. */
  lemma UnmatchedLabelSkipped(syn: string)
    ensures BadgeOf(syn).None? <==> forall name, sp, digits :: !LabelShape(syn, name, sp, digits)
  {
    if BadgeOf(syn).Some? {
      var sp, digits := ParseSynergySound(syn);
    } else {
      forall name, sp, digits | LabelShape(syn, name, sp, digits) ensures false {
        ParseSynergyComplete(syn, name, sp, digits);
      }
    }
  }

  /** The badge is grey exactly when the trait is unknown or its first breakpoint is not reached. */
  lemma DefaultStyle(name: string, count: int)
    ensures StyleOf(name, count) == Default <==>
      RuleOf(name).None? || forall b :: b in RuleOf(name).value.breakpoints ==> count < b
  {
    if RuleOf(name).Some? {
      RuleBreakpointsValid(name);
      var bp := RuleOf(name).value.breakpoints;
      assert bp[0] in bp;
      assert forall b :: b in bp ==> bp[0] <= b by {
        forall b | b in bp ensures bp[0] <= b {
          var i :| 0 <= i < |bp| && bp[i] == b;
          assert i == 0 || bp[0] < bp[i];
        }
      }
    }
  }

  /** An Origin is Unique as soon as it is present, before any prismatic rule applies. */
  lemma OriginStyle(name: string, count: int)
    requires RuleOf(name).Some? && RuleOf(name).value.kind == Origin
    ensures StyleOf(name, count) == if count >= 1 then Unique else Default
  {
    OriginRule(name);
  }

  /** A prismatic trait at its last breakpoint is Prismatic; one breakpoint short, Gold. */
  lemma PrismaticStyle(name: string, count: int)
    requires RuleOf(name).Some? && RuleOf(name).value.isPrismatic
    ensures var bp := RuleOf(name).value.breakpoints;
      && |bp| >= 3
      && (count >= bp[|bp| - 1] ==> StyleOf(name, count) == Prismatic)
      && (bp[|bp| - 2] <= count < bp[|bp| - 1] ==> StyleOf(name, count) == Gold)
  {
    var rule := RuleOf(name).value;
    RuleBreakpointsValid(name);
    PrismaticRule(name);
    PrismaticStyleFor(rule, count);
    assert StyleOf(name, count) == StyleFor(rule, Tier(count, rule.breakpoints));
  }

  lemma PrismaticStyleFor(rule: TraitRule, count: int)
    requires rule.isPrismatic && rule.kind == Region
    requires ValidBreakpoints(rule.breakpoints) && |rule.breakpoints| >= 3
    ensures var bp := rule.breakpoints;
      && (count >= bp[|bp| - 1] ==> StyleFor(rule, Tier(count, bp)) == Prismatic)
      && (bp[|bp| - 2] <= count < bp[|bp| - 1] ==> StyleFor(rule, Tier(count, bp)) == Gold)
  {
    var bp := rule.breakpoints;
    if count >= bp[|bp| - 1] {
      TierTop(count, bp);
    } else if bp[|bp| - 2] <= count {
      assert Tier(count, bp) == |bp| - 2 by {
        TierTop(count, bp[..|bp| - 1]);
        TierPrefix(count, bp);
      }
    }
  }

  /** Below the last breakpoint the scan sees the same tiers as on the shorter list. */
  lemma {:induction false} TierPrefix(count: int, bp: seq<int>)
    requires bp != [] && count < bp[|bp| - 1]
    ensures Tier(count, bp) == Tier(count, bp[..|bp| - 1])
  {
    if |bp| > 1 && count >= bp[0] {
      assert bp[1..][..|bp| - 2] == bp[..|bp| - 1][1..];
      TierPrefix(count, bp[1..]);
    }
  }

  /** A trait that is neither an Origin nor prismatic is Gold at its last breakpoint. */
  lemma NonPrismaticTopStyle(name: string, count: int)
    requires RuleOf(name).Some? && RuleOf(name).value.kind != Origin && !RuleOf(name).value.isPrismatic
    ensures var bp := RuleOf(name).value.breakpoints;
      |bp| >= 1 && (count >= bp[|bp| - 1] ==> StyleOf(name, count) == Gold)
  {
    RuleBreakpointsValid(name);
    var bp := RuleOf(name).value.breakpoints;
    if count >= bp[|bp| - 1] {
      TierTop(count, bp);
    }
  }

  /** So a non-prismatic, non-Origin rule with a single breakpoint is Gold at tier 0. */
  lemma SingleBreakpointGold(rule: TraitRule)
    requires |rule.breakpoints| == 1 && rule.kind != Origin && !rule.isPrismatic
    ensures StyleFor(rule, 0) == Gold
  {
  }

  /** The colour only moves up as the tier rises. */
  lemma StyleForMonotone(rule: TraitRule, t1: int, t2: int)
    requires t1 <= t2 < |rule.breakpoints|
    ensures Rank(StyleFor(rule, t1)) <= Rank(StyleFor(rule, t2))
  {
  }

  /** More copies of a trait never give a lower colour. */
  lemma StyleMonotone(name: string, c1: int, c2: int)
    requires c1 <= c2
    ensures Rank(StyleOf(name, c1)) <= Rank(StyleOf(name, c2))
  {
    if RuleOf(name).Some? {
      var bp := RuleOf(name).value.breakpoints;
      TierMonotone(c1, c2, bp);
      StyleForMonotone(RuleOf(name).value, Tier(c1, bp), Tier(c2, bp));
    }
  }

  // ----- the rendered list -----

  /** The badges of a team card, the labels that do not parse left out. */
  function Badges(labels: seq<string>): (r: seq<Badge>)
    ensures |r| <= |labels|
  {
    if labels == [] then []
    else
      match BadgeOf(labels[0])
      case None => Badges(labels[1..])
      case Some(b) => [b] + Badges(labels[1..])
  }

  /** When every syn parses, each one gets its badge, in order. */
  lemma {:induction false} BadgesAll(labels: seq<string>)
    requires forall i :: 0 <= i < |labels| ==> BadgeOf(labels[i]).Some?
    ensures |Badges(labels)| == |labels|
    ensures forall i :: 0 <= i < |labels| ==> Badges(labels)[i] == BadgeOf(labels[i]).value
  {
    if labels != [] {
      BadgesAll(labels[1..]);
    }
  }

  /** The component's output: the placeholder, or one card of badges per recommendation. */
  datatype View = Placeholder | Cards(cards: seq<seq<Badge>>)

  function ViewOf(teams: seq<Solver.TeamComp>, selectedEmblems: seq<string>): (v: View)
    ensures v.Placeholder? <==> |selectedEmblems| == 0
    ensures v.Cards? ==> |v.cards| == |teams|
  {
    if |selectedEmblems| == 0 then Placeholder
    else Cards(seq(|teams|, i requires 0 <= i < |teams| => Badges(teams[i].activeSynergies)))
  }

  /**
   * Every synergy of a solution gets a badge naming an active trait of the team and
   * showing its number of occurrences.
   */
  lemma SolutionBadges(champs: seq<Champion>, emblems: seq<string>)
    requires var members := Solver.Solution(champs, emblems).champions;
      forall t :: t in Solver.AllTraits(members) ==> DotPlus(t)
    ensures var sol := Solver.Solution(champs, emblems);
      var badges := Badges(sol.activeSynergies);
      && |badges| == |sol.activeSynergies|
      && forall i :: 0 <= i < |badges| ==>
        && badges[i].name in Solver.AllTraits(sol.champions)
        && Solver.IsActive(sol.champions, emblems, badges[i].name)
        && badges[i].displayCount == Numeral(Solver.Occurrences(sol.champions, badges[i].name), 10)
  {
    var sol := Solver.Solution(champs, emblems);
    var labels := sol.activeSynergies;
    Solver.SolutionSynergies(champs, emblems);
    forall i | 0 <= i < |labels|
      ensures exists t :: (t in Solver.AllTraits(sol.champions) && Solver.IsActive(sol.champions, emblems, t)
        && BadgeOf(labels[i]) == Some(Badge(t, Numeral(Solver.Occurrences(sol.champions, t), 10),
                                            StyleOf(t, Solver.Occurrences(sol.champions, t)))))
    {
      assert labels[i] in labels;
      var t :| t in Solver.AllTraits(sol.champions) && Solver.IsActive(sol.champions, emblems, t)
        && labels[i] == Solver.SynergyLabel(t, Solver.Occurrences(sol.champions, t));
      LabelRoundTrip(t, Solver.Occurrences(sol.champions, t));
    }
    BadgesAll(labels);
  }
}
