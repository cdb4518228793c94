# TFT Emblem Tactics, modelled in Dafny

TFT Emblem Tactics is a small web app for Teamfight Tactics, Set 16. A player picks
trait emblems. The app then proposes a team of eight champions, shows which synergies
that team activates and in which colour, and can export the team as a planner code that
the game client imports. This project models the logic behind those screens and proves
what it promises.

- **The greedy team builder** (`Solver`). Each champion scores 100 per trait that is
  among the selected emblems, plus 5 per gold of cost. The champions are stably sorted
  by that score, highest first, and the first eight are taken. The builder then runs a
  filler phase, counts traits across the team, and writes a `trait (count)` label for
  every trait that occurs twice or is a selected emblem. It returns one composition with
  its total score. `SolveTeamComp` keeps the source's loops and is proved equal to the
  specification function `Solution`. The lemmas about `Solution` prove:
  - the team is the top of the ranking, and ties keep roster order;
  - the filler phase can never add anyone;
  - the labels are exactly the active traits, sorted and without duplicates;
  - the score is the sum of 100 × matches + 6 × cost.
- **The team planner code** (`TeamCode`, `PlannerTable`). The code is "02", then one
  three-digit hex group per known champion, then "000" groups up to ten slots, then
  "TFTSet16". `GenerateTeamCode` keeps the source's `for` and `while` loops. `Decode`
  is not in the source; it is the partner of the encoder. For the actual 100-entry
  table the project proves:
  - decoding a generated code gives back the slot codes;
  - padding cannot be confused with a champion, because no code is 0;
  - every code names exactly one champion;
  - unknown champions leave the code unchanged.
- **The trait rule table** (`TraitRules`). It proves the table's invariants:
  - breakpoints are positive and strictly increasing;
  - Origins have breakpoints `[1]` and no emblem;
  - only Regions are prismatic, and a prismatic rule has at least three tiers;
  - the four named traits are the only emblemless non-Origins;
  - no trait name is declared twice.

  It also proves what `getEmblemTraits` returns.
- **Synergy badges** (`TeamRecommendations`). This covers:
  - the parse of `Name (n)` labels against the regular expression `^(.+)\s\((\d+)\)$`;
  - the tier scan (`TierScan`, a loop with `break`, proved equal to `Tier`);
  - the colour each branch chooses;
  - the empty-selection placeholder.
- **The page and its panels**:
  - `Page`: the sorted, duplicate-free trait list; the recommendations guard; emblem toggling.
  - `ChampionSelector`: the search and cost filter, the cost-then-name order, and the toggle by name.
  - `TraitIcon`: name normalisation and the four-URL fallback, as a class whose
    `HandleError` steps the index and the error flag.
  - `TraitList`: emblem counts, highlighting, image names and the reset rule.
  - `LanguageContext`: the translation lookup with key fallback, the roster choice and
    the `useTFT` guard.
- **The data minifier** (`MinifyData`): the Set 16 lookup and the filter/projection of
  raw units.

Shared pieces:
- `Lists`: filtering, counting, de-duplication, and a stable insertion sort standing in
  for `Array.prototype.sort`.
- `Strings`: ASCII case mapping, JavaScript's `\s` and digit classes, code-point order,
  decimal and hex numerals.
- `Wrappers`: Option and Result.
- `Tft`: the `Champion` record of types/tft.ts.

## Model

| member | source | states |
|---|---|---|
| Solver.MatchingTraits | lib/solver.ts:33 | a trait is kept iff it is one of the champion's traits and a selected emblem |
| Solver.ScoreChampion | lib/solver.ts:31-39 | `rawScore` is 100 × the number of matching traits + 5 × cost; the champion record is kept |
| Solver.ScoreAll | lib/solver.ts:31-40 | one scored record per champion, in roster order |
| Solver.Champions | lib/solver.ts:93 | the output records are the team's champion records in team order, with the ranking fields dropped |
| Solver.TallyTraits | lib/solver.ts:98-100 | the inner `forEach` extends the insertion-ordered count map by one member's traits |
| Solver.CountTraits | lib/solver.ts:96-101 | `traitCounts` has exactly the team's traits as keys, in first-occurrence order, each mapped to its number of occurrences |
| Solver.FillerCandidates | lib/solver.ts:73-81 | each remaining champion gets 10 per trait already on the team, plus its cost |
| Solver.AsScored | lib/solver.ts:88 | a filler is pushed with `rawScore` 0 and no matching traits |
| Solver.RankFillers | lib/solver.ts:62-83 | the filler candidates are the untaken champions, stably sorted by synergy score, highest first |
| Solver.PushFillers | lib/solver.ts:86-89 | the fill loop appends candidates in order until the team has 8 members or the candidates run out |
| Solver.FillWithSynergyBots | lib/solver.ts:60-90 | the filler phase appends the best-synergy untaken champions up to 8 members |
| Solver.TakeTopCandidates | lib/solver.ts:49-57 | the take loop keeps the first min(8, n) ranked champions and records exactly their ids |
| Solver.CollectSynergies | lib/solver.ts:103-111 | one `trait (count)` label is pushed per active trait, in first-occurrence order |
| Solver.SolveTeamComp | lib/solver.ts:22-123 | no emblems gives `[]`; otherwise exactly one composition, equal to `Solution` |
| Solver.FillerPoolEmpty | lib/solver.ts:60-90 | when fewer than 8 were taken, no champion remains, so the filler phase adds nothing |
| Solver.EveryIdTaken | lib/solver.ts:50-57 | when fewer than 8 were taken, every roster champion's id is in `compIds` |
| Solver.ByScoreIsTotalPreorder | lib/solver.ts:43 | the descending-score comparator is total and transitive, so the sort is well defined |
| Solver.RankedRecords | lib/solver.ts:43 | sorting permutes the scored records and invents none |
| Solver.PrefixDominates | lib/solver.ts:43-57 | in a score-sorted list, no record after a prefix outscores a record in it |
| Solver.TeamIsTopRanked | lib/solver.ts:43-57 | the team has min(8, n) members, in non-increasing score order, and no left-out champion outscores a member |
| Solver.TeamMembersScored | lib/solver.ts:31-57 | every member comes from the roster, with score 100 × matches + 5 × cost |
| Solver.TiesKeepRosterOrder | lib/solver.ts:43 | champions with equal scores keep their roster order (stable sort) |
| Solver.SolutionChampions | lib/solver.ts:53-57 | the returned champions are the first min(8, n) ranked roster champions |
| Solver.SolutionIdsUnique | lib/solver.ts:50-57 | with unique roster ids, no id repeats on the team |
| Solver.TotalScoreIsMeritSum | lib/solver.ts:114 | the reduce sums `rawScore + cost` = 100 × matches + 6 × cost over the team |
| Solver.SolutionScore | lib/solver.ts:114 | the composition's score is Σ(100 × matches + 6 × cost) over its champions |
| Solver.LabelsMembers | lib/solver.ts:107-111 | a label is produced iff it is `trait (count)` for an active trait among the keys |
| Solver.SynergyLabelInjective | lib/solver.ts:109 | distinct (trait, count) pairs give distinct labels |
| Solver.LabelsDistinct | lib/solver.ts:107-111 | distinct keys give duplicate-free labels |
| Solver.SolutionSynergies | lib/solver.ts:96-111 | `activeSynergies` holds exactly the labels of the team's traits with ≥ 2 occurrences or selected, sorted ascending, without duplicates |
| Solver.ByScore | lib/solver.ts:43 | the comparator `b.rawScore - a.rawScore` read as "may precede": a higher or equal score goes first; its laws are in `ByScoreIsTotalPreorder` |
| Solver.Ranked | lib/solver.ts:31-43 | the scored roster stably sorted by score, highest first; `RankedRecords` and `TiesKeepRosterOrder` state its properties |
| Solver.Team | lib/solver.ts:49-57 | the first min(8, n) ranked records, which `TakeTopCandidates` computes and `TeamIsTopRanked` characterises |
| Solver.SynergyLabels | lib/solver.ts:96-111 | the `trait (count)` labels of the active traits in first-occurrence order; `LabelsMembers` and `LabelsDistinct` state its contents |
| Solver.TotalScore | lib/solver.ts:114 | the `reduce` summing `rawScore + cost` over the team; `TotalScoreIsMeritSum` gives its closed form |
| Solver.Solution | lib/solver.ts:92-122 | the single composition `solveTeamComp` returns: team records, total score, sorted labels; `SolveTeamComp` is proved equal to it |
| PlannerTable.PlannerCodesWellFormed | lib/team-code.ts:8-109 | every planner code is in 1..0xfff, codes are pairwise distinct, and no apiName is declared twice |
| TeamCode.CodeOf | lib/team-code.ts:127-128 | a code is found iff the apiName is a table key, and it is that key's code |
| TeamCode.NameOf | lib/team-code.ts:8-109 | reverse lookup: the name found carries the code; none means no entry has it |
| TeamCode.HexGroup | lib/team-code.ts:130 | `toString(16).padStart(3, '0')` of a code below 0x1000 is three hex digits of that value |
| TeamCode.HexGroups | lib/team-code.ts:130 | one hex group per code, in order |
| TeamCode.HexCodesStep | lib/team-code.ts:126-132 | one step of the `for` loop pushes a group exactly when the champion has a code |
| TeamCode.PaddingStep | lib/team-code.ts:135-137 | one step of the `while` loop appends "000" |
| TeamCode.HexCodesOf | lib/team-code.ts:124-132 | the `for...of` loop yields one three-digit group per champion with a code, in input order |
| TeamCode.PadToSlots | lib/team-code.ts:134-137 | the `while` loop appends "000" groups up to ten and never truncates |
| TeamCode.GenerateTeamCode | lib/team-code.ts:122-140 | the result is "02", the known champions' groups padded to ten slots, then "TFTSet16" |
| TeamCode.KnownCodesAppend | lib/team-code.ts:126-132 | the codes contributed by a concatenation are those of each part, in order |
| TeamCode.ParseHexGroups | lib/team-code.ts:130-139 | joined three-digit groups are three characters each and split back into the same codes |
| TeamCode.KnownCodesValid | lib/team-code.ts:8-127 | every contributed code is in 1..0xfff |
| TeamCode.SlotCodesBelow | lib/team-code.ts:126-137 | every slot, padding included, fits three hex digits |
| TeamCode.TeamCodeShape | lib/team-code.ts:123-139 | the code starts with "02", ends with "TFTSet16", and has length 2 + 3 × max(10, k) + 8 |
| TeamCode.TeamCodeRoundTrip | lib/team-code.ts:122-139 | for any well-formed table, decoding the code gives back the known codes then the zero padding |
| TeamCode.PaddingUnambiguous | lib/team-code.ts:135-137 | dropping the zero slots leaves exactly the known champions' codes |
| TeamCode.CodeIdentifiesChampion | lib/team-code.ts:8-109 | a champion's code maps back to its apiName and no other |
| TeamCode.KnownCodesNameChampions | lib/team-code.ts:126-132 | the i-th non-zero group names the i-th known champion |
| TeamCode.KnownCodesSkip | lib/team-code.ts:127-128 | a champion without a code contributes no code |
| TeamCode.UnknownChampionIgnored | lib/team-code.ts:127-131 | inserting a champion without a code leaves the team code unchanged |
| TeamCode.GeneratedCodeRoundTrip | lib/team-code.ts:8-140 | for the actual table, decoding recovers the slot codes and the padding is unambiguous |
| TeamCode.TeamCodeOf | lib/team-code.ts:122-139 | the code "02" + padded groups + "TFTSet16" as a function of the table and the champions; `GenerateTeamCode` is proved equal to it |
| TeamCode.ParseGroups | lib/team-code.ts:130-139 | splits a joined run of three-hex-digit groups back into codes; `ParseHexGroups` proves it inverts the join |
| TeamCode.Decode | lib/team-code.ts:114-139 | reads the documented format back (prefix, groups, suffix); `TeamCodeRoundTrip` proves it inverts the encoder |
| TraitRules.RuleOfFound | lib/trait-rules.ts:10-63 | `TRAIT_RULES[name]` is a rule iff that rule is declared under `name`, and undefined iff `name` is not declared |
| TraitRules.TableFacts | lib/trait-rules.ts:12-62 | every entry has valid breakpoints, the Origin facts, the prismatic facts and the emblemless-name fact |
| TraitRules.TraitNamesDistinct | lib/trait-rules.ts:10-63 | no trait name is declared twice, so each has one type |
| TraitRules.RuleBreakpointsValid | lib/trait-rules.ts:12-62 | every rule's breakpoints are non-empty, positive and strictly increasing |
| TraitRules.OriginRule | lib/trait-rules.ts:42-62 | an Origin rule has breakpoints `[1]` and no emblem |
| TraitRules.PrismaticRule | lib/trait-rules.ts:12-23 | a prismatic rule is a Region with at least three breakpoints |
| TraitRules.EmblemlessNonOriginRule | lib/trait-rules.ts:19-29 | a declared non-Origin lacks an emblem iff it is Shadow Isles, Shurima, Targon or Darkin |
| TraitRules.EmblemTraits | lib/trait-rules.ts:65-66 | a name is returned iff it is declared with `hasEmblem` |
| TraitRules.EmblemTraitsInOrder | lib/trait-rules.ts:10-66 | the names come in declaration order, without repeats: the i-th is the key of the i-th table entry with an emblem |
| TraitRules.EmblemlessNeverOffered | lib/trait-rules.ts:19-66 | Shadow Isles, Shurima, Targon and Darkin are never offered as emblems |
| TraitRules.RuleOf | lib/trait-rules.ts:10-63 | the lookup `TRAIT_RULES[name]`, undefined as `None`; `RuleOfFound` states its result |
| TraitRules.HasEmblem | lib/trait-rules.ts:66 | the filter callback `TRAIT_RULES[t].hasEmblem` of `getEmblemTraits` |
| TeamRecommendations.DigitRunStart | components/TeamRecommendations.tsx:68 | finds where the maximal run of digits before a position starts |
| TeamRecommendations.ParseSynergySound | components/TeamRecommendations.tsx:68-71 | an accepted label has the regular expression's shape, with the name as group 1 and the count parsed from group 2 |
| TeamRecommendations.ParseSynergyComplete | components/TeamRecommendations.tsx:68-71 | every label of that shape is accepted with that name and count |
| TeamRecommendations.LabelRoundTrip | components/TeamRecommendations.tsx:68-71 | a label the solver writes parses back to its trait and count |
| TeamRecommendations.Tier | components/TeamRecommendations.tsx:80-88 | the tier is the last index of the leading run of breakpoints ≤ count, −1 if the first is not reached |
| TeamRecommendations.TierScan | components/TeamRecommendations.tsx:80-88 | the scan loop with `break` computes `Tier` |
| TeamRecommendations.TierCountsBreakpoints | components/TeamRecommendations.tsx:80-88 | for strictly increasing breakpoints, tier + 1 is the number of breakpoints ≤ count |
| TeamRecommendations.TierMonotone | components/TeamRecommendations.tsx:80-88 | a larger count never gives a lower tier |
| TeamRecommendations.TierTop | components/TeamRecommendations.tsx:80-88 | reaching the last breakpoint gives the top tier |
| TeamRecommendations.TierPrefix | components/TeamRecommendations.tsx:80-88 | below the last breakpoint, the tier is that of the list without it |
| TeamRecommendations.RenderSynergy | components/TeamRecommendations.tsx:66-117 | the callback as written (default, scan, branches) yields the badge `BadgeOf` specifies |
| TeamRecommendations.UnmatchedLabelSkipped | components/TeamRecommendations.tsx:68-69 | nothing is rendered iff the label does not match the regular expression |
| TeamRecommendations.DefaultStyle | components/TeamRecommendations.tsx:73-94 | the style is DEFAULT iff the trait is unknown or the count is below every breakpoint |
| TeamRecommendations.OriginStyle | components/TeamRecommendations.tsx:95-96 | an Origin is UNIQUE from one unit on, before any prismatic rule |
| TeamRecommendations.PrismaticStyle | components/TeamRecommendations.tsx:97-101 | a prismatic trait is PRISMATIC at its last breakpoint and GOLD one breakpoint short |
| TeamRecommendations.PrismaticStyleFor | components/TeamRecommendations.tsx:97-101 | the same, for any prismatic Region rule with valid breakpoints |
| TeamRecommendations.NonPrismaticTopStyle | components/TeamRecommendations.tsx:107-109 | a non-prismatic, non-Origin trait is GOLD at its last breakpoint |
| TeamRecommendations.SingleBreakpointGold | components/TeamRecommendations.tsx:108-110 | a single-breakpoint non-Origin trait at tier 0 is GOLD, not BRONZE |
| TeamRecommendations.StyleForMonotone | components/TeamRecommendations.tsx:94-116 | a higher tier never gets a lower colour |
| TeamRecommendations.StyleMonotone | components/TeamRecommendations.tsx:73-116 | more copies of a trait never give a lower colour |
| TeamRecommendations.Badges | components/TeamRecommendations.tsx:66-69 | never more badges than labels |
| TeamRecommendations.BadgesAll | components/TeamRecommendations.tsx:66-69 | when every label parses, there is one badge per label, in order |
| TeamRecommendations.ViewOf | components/TeamRecommendations.tsx:40-58 | the placeholder is shown iff no emblem is selected; otherwise one card per composition |
| TeamRecommendations.SolutionBadges | components/TeamRecommendations.tsx:66-91 | each solver label renders a badge for an active team trait, showing its occurrence count |
| TeamRecommendations.ParseSynergy | components/TeamRecommendations.tsx:68-71 | the match of `^(.+)\s\((\d+)\)$` and `parseInt(match[2], 10)`; `ParseSynergySound` and `ParseSynergyComplete` characterise it |
| TeamRecommendations.StyleFor | components/TeamRecommendations.tsx:94-116 | the colour branches for a known trait at a tier; `OriginStyle`, `PrismaticStyleFor`, `NonPrismaticTopStyle` and `StyleForMonotone` state them |
| TeamRecommendations.StyleOf | components/TeamRecommendations.tsx:73-116 | the colour of `name (count)`: DEFAULT for an unknown trait, else the branches at the scanned tier; `DefaultStyle` and `StyleMonotone` state it |
| TeamRecommendations.BadgeOf | components/TeamRecommendations.tsx:66-121 | what the map callback renders for one label, `None` for `null`; `RenderSynergy` and `UnmatchedLabelSkipped` state it |
| Page.RosterTraits | app/page.tsx:18-20 | a trait is collected iff some champion carries it |
| Page.AddTraits | app/page.tsx:19 | adding one champion's traits to the set keeps first-insertion order without duplicates |
| Page.AllTraits | app/page.tsx:16-22 | the memo is the sorted set of all roster traits |
| Page.AllTraitsSorted | app/page.tsx:16-22 | it holds exactly the traits of some champion, strictly ascending in code-point order |
| Page.TeamRecommendationsMemo | app/page.tsx:27-35 | no emblems gives `[]`; otherwise the solver's single composition |
| Page.RecommendationsView | app/page.tsx:27-35 | the placeholder is shown iff no emblem is selected; otherwise one card with the solution's badges |
| Page.FilterExcept | app/page.tsx:40 | removing a trait drops every copy of it and no copy of anything else |
| Page.ToggleEmblemEffect | app/page.tsx:37-43 | toggling flips presence; a present trait loses every copy and the rest keep their order (the i-th left is the i-th other entry of `prev`); an absent one is appended |
| Page.ToggleTwice | app/page.tsx:37-43 | toggling an absent trait twice restores the selection |
| Page.ToggleKeepsDistinct | app/page.tsx:37-43 | toggling keeps a duplicate-free selection duplicate-free |
| Page.Recommendations | app/page.tsx:27-35 | the `teamRecommendations` memo; `TeamRecommendationsMemo` and `RecommendationsView` state it |
| Page.ToggleEmblem | app/page.tsx:37-43 | the updater passed to `setSelectedEmblems`; `ToggleEmblemEffect`, `ToggleTwice` and `ToggleKeepsDistinct` state its effect |
| ChampionSelector.ByCostThenNameIsTotalPreorder | components/ChampionSelector.tsx:32 | the comparator is total and transitive |
| ChampionSelector.FilteredMembers | components/ChampionSelector.tsx:23-33 | a champion is listed iff it is on the roster and passes both tests, as often as on the roster |
| ChampionSelector.FilteredSound | components/ChampionSelector.tsx:26-29 | a listed name contains the search text ignoring case, and has the chosen cost |
| ChampionSelector.FilteredSorted | components/ChampionSelector.tsx:32 | the list is ordered by cost, ties by name |
| ChampionSelector.ToggleChampionEffect | components/ChampionSelector.tsx:35-45 | toggling flips selection by name; removal keeps every member with another name, in order and with its multiplicity (the i-th left is the i-th such member of the team); adding appends with no size limit |
| ChampionSelector.Passes | components/ChampionSelector.tsx:24-31 | the filter callback: the lower-cased name contains the lower-cased search text (or the search is empty), and the cost matches when a cost is chosen |
| ChampionSelector.ByCostThenName | components/ChampionSelector.tsx:32 | the comparator `a.cost - b.cost || a.name.localeCompare(b.name)` as "may precede" |
| ChampionSelector.FilteredChampions | components/ChampionSelector.tsx:23-33 | the `filteredChampions` memo; `FilteredMembers`, `FilteredSound` and `FilteredSorted` state its contents and order |
| ChampionSelector.IsSelected | components/ChampionSelector.tsx:36 | `initialTeam.find(c => c.name === champion.name)` is found |
| ChampionSelector.ToggleChampion | components/ChampionSelector.tsx:35-45 | the new `initialTeam`; `ToggleChampionEffect` states it |
| TraitIcon.TrimStart | components/TraitIcon.tsx:6 | drops exactly the leading `\s` characters |
| TraitIcon.TrimEnd | components/TraitIcon.tsx:6 | drops exactly the trailing `\s` characters |
| TraitIcon.Normalize | components/TraitIcon.tsx:6 | the normalised name has only characters in `[a-z0-9]` |
| TraitIcon.NormalizeIdempotent | components/TraitIcon.tsx:6 | normalising twice equals normalising once |
| TraitIcon.CandidateUrls | components/TraitIcon.tsx:9-14 | exactly four candidate URLs |
| TraitIcon.UrlsEmbedName | components/TraitIcon.tsx:9-14 | each URL is the icon directory, a set number, the normalised name, a suffix |
| TraitIcon.ErrorsWalkTheUrls | components/TraitIcon.tsx:16-25 | after k errors the index is min(k, 3), and the icon has given up iff k ≥ 4 |
| TraitIcon.Icon.constructor | components/TraitIcon.tsx:6-17 | the icon starts at URL 0 with no error |
| TraitIcon.Icon.HandleError | components/TraitIcon.tsx:19-25 | the index steps by one below the last URL, else the error flag is set; never backwards, never past 3 |
| TraitIcon.Icon.Rendered | components/TraitIcon.tsx:27-34 | nothing is rendered iff the error flag is set; otherwise the candidate at the current index, `urls[currentUrlIndex]` |
| TraitIcon.Trim | components/TraitIcon.tsx:6 | `trim()`: `TrimEnd` after `TrimStart` |
| TraitIcon.AfterError | components/TraitIcon.tsx:19-25 | the state `handleError` leaves; `Icon.HandleError` is proved to produce it |
| TraitIcon.AfterErrors | components/TraitIcon.tsx:16-25 | the state after k errors from the initial one; `ErrorsWalkTheUrls` gives its closed form |
| TraitList.EmblemCountIsMultiplicity | components/TraitList.tsx:40 | the count is the number of copies of the trait among the selected emblems |
| TraitList.SelectedIffPresent | components/TraitList.tsx:41 | a tile is highlighted iff its trait is selected |
| TraitList.NormalizedName | components/TraitList.tsx:44 | the image name has only characters in `[a-z0-9]` |
| TraitList.AgreesWithIcon | components/TraitList.tsx:44 | the image name equals the icon's normalised name, trim or not |
| TraitList.ImageUrlIdentifiesName | components/TraitList.tsx:45 | two traits share an image URL iff their normalised names agree |
| TraitList.ResetDisabledIffNoneSelected | components/TraitList.tsx:28 | reset is disabled iff no tile is highlighted |
| TraitList.EmblemCount | components/TraitList.tsx:40 | `selectedEmblems.filter(e => e === trait).length`; `EmblemCountIsMultiplicity` states it |
| TraitList.IsSelected | components/TraitList.tsx:41 | `count > 0`; `SelectedIffPresent` states it |
| TraitList.ImageUrl | components/TraitList.tsx:44-45 | the emblem image URL; `ImageUrlIdentifiesName` states when two coincide |
| TraitList.ResetDisabled | components/TraitList.tsx:28 | the reset button's `disabled`; `ResetDisabledIffNoneSelected` states it |
| MinifyData.FindSet16 | scripts/minify-data.mjs:19-24 | a set is found iff '16' or 'TFTSet16' is a key, with '16' first |
| MinifyData.CleanChampions | scripts/minify-data.mjs:29-44 | the output is never longer than the input |
| MinifyData.CleanOne | scripts/minify-data.mjs:30-44 | a single unit is kept and projected iff it is real |
| MinifyData.CleanAppend | scripts/minify-data.mjs:29-44 | the pipeline works unit by unit, keeping order |
| MinifyData.CleanSound | scripts/minify-data.mjs:30-44 | every record comes from a real unit (cost < 10, a trait, no training dummy), with four fields copied and `id` the lower-cased apiName |
| MinifyData.CleanComplete | scripts/minify-data.mjs:30-44 | every real unit appears in the output |
| MinifyData.MinifyLookup | scripts/minify-data.mjs:19-24 | '16' wins when present; with neither key nothing is produced |
| MinifyData.IsRealUnit | scripts/minify-data.mjs:30-36 | the filter callback: cost below 10, at least one trait, no `TFT_TrainingDummy` in the apiName |
| MinifyData.Clean | scripts/minify-data.mjs:37-44 | the map callback: four fields copied and `id` the lower-cased apiName; `CleanSound` states it |
| MinifyData.Minify | scripts/minify-data.mjs:19-44 | what the script would write, `None` where it returns early; `MinifyLookup` states it |
| LanguageContext.SameKeys | context/language-context.tsx:19-34 | both languages define the same keys |
| LanguageContext.T | context/language-context.tsx:41-43 | a present, non-empty translation is returned, else the key itself |
| LanguageContext.EveryKeyTranslated | context/language-context.tsx:19-43 | every table key is translated in both languages, never echoed back |
| LanguageContext.Roster | context/language-context.tsx:39 | English data for 'en', Turkish data otherwise |
| LanguageContext.UseTFT | context/language-context.tsx:52-58 | it fails with the provider message iff there is no context value |
| LanguageContext.UseTFTInsideProvider | context/language-context.tsx:36-58 | inside a provider the hook hands out the current language's roster |
| LanguageContext.Table | context/language-context.tsx:19-34 | `translations[language]`; `SameKeys` and `EveryKeyTranslated` state it |
| LanguageContext.Provide | context/language-context.tsx:36-49 | the provider's context value; `UseTFTInsideProvider` states what the hook then returns |

## Left out

- The solver with five arguments (emblem map, slot count, strategy, initial team) that
  scripts/test-solver.ts and test-solver.ts call. lib/solver.ts does not contain it, so
  only the two-argument `solveTeamComp` is modelled. The test harnesses themselves,
  with their file logging and JSON loading, are left out too.
- I/O: the file reads, writes, sizes and console messages of scripts/minify-data.mjs,
  and scripts/update-data.mjs (network fetches). `MinifyData.Minify` returns `None`
  where the script logs an error and returns.
- The `try`/`catch` of scripts/minify-data.mjs (lines 12 and 57-59). A unit without
  `traits` or `apiName`, or a set without `champions`, makes the script throw, log the
  message and write nothing. The typed `Unit` and `SetData` always carry those fields,
  so this exception path is out of scope.
- The champion JSON files. The roster is a sequence parameter.
- React hooks (`useState`, `useMemo`, context) and `next-intl`. State is explicit:
  - the previous selection is a parameter;
  - the icon is a class;
  - the missing provider is `None`.
- JSX markup, CSS class strings, `CHAMPION_STYLES`, `costColors` and the image URLs of
  champion tiles. The styles are kept as the `Style` datatype.
- The scroll areas, the hover card, the header, the skeleton and the metadata component.
  They are pixel geometry and DOM events.
- The `onError` handler of TraitList's emblem image. It hides a DOM node.
- Unicode semantics:
  - `toLowerCase` maps only A-Z;
  - `trim` and `\s` use JavaScript's white-space and line-terminator set;
  - `localeCompare` is modelled as the same order as the default `sort()`, whereas
    `localeCompare` is locale-dependent.
- Strings.StrLe: compares Unicode code points, whereas JavaScript's default `sort()`
  compares UTF-16 code units. The two orders agree only on strings inside the Basic
  Multilingual Plane (they differ when a character above U+FFFF meets one in
  U+E000-U+FFFF). Every trait and champion name in the data is inside it.
- `Array.prototype.sort` is a stable insertion sort under the comparator's "may
  precede" relation. That is the result a stable sort must produce; the engine's
  algorithm is not modelled.
- JavaScript property lookups that would hit `Object.prototype` keys ("constructor",
  "toString") in `TRAIT_RULES`, `TEAM_PLANNER_CODES`, `translations` and `data.sets`.
  Lookups see only the declared keys. The values of `data.sets` are assumed to be set
  objects, so truthiness is presence.
- `parseInt` on very long digit runs, which loses precision as a float. `ParseDecimal`
  is exact.
- Number arithmetic beyond 2^53: scores and counts are unbounded integers.
- `TeamCode.Decode` is not part of the source. It is the partner that states what the
  code means.
- Solver: the filler phase is modelled as written and proved to add nothing
  (`Solver.FillerPoolEmpty`). Its sort of the untaken champions therefore never
  influences the result.
- TeamCode: the encoder is stated over any code table. The round trip needs a
  well-formed table, which `PlannerTable.PlannerCodesWellFormed` proves for the actual one.
- TraitIcon.Icon.HandleError: React batches the state update. A second error in the
  same render would see the old index; each call is modelled as a completed update.
