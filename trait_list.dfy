/**
 * The emblem grid of components/TraitList.tsx: how many copies of each trait's emblem
 * are selected, which tiles are highlighted, the emblem image URL, and the reset button.
 */
module TraitList {
  import opened Lists
  import opened Strings
  import TraitIcon

  function Is(t: string): string -> bool {
    (e: string) => e == t
  }

  /** `selectedEmblems.filter(e => e === trait).length`. */
  function EmblemCount(selectedEmblems: seq<string>, t: string): nat {
    |Filter(selectedEmblems, Is(t))|
  }

  lemma {:induction false} FilterIsCount(s: seq<string>, t: string)
    ensures |Filter(s, Is(t))| == Count(s, t)
  {
    if s != [] {
      FilterIsCount(s[1..], t);
    }
  }

  /** The badge count is the number of copies of the emblem selected. */
  lemma EmblemCountIsMultiplicity(selectedEmblems: seq<string>, t: string)
    ensures EmblemCount(selectedEmblems, t) == multiset(selectedEmblems)[t]
  {
    FilterIsCount(selectedEmblems, t);
  }

  /** `isSelected = count > 0`. */
  predicate IsSelected(selectedEmblems: seq<string>, t: string) {
    EmblemCount(selectedEmblems, t) > 0
  }

  /** A tile is highlighted exactly when its trait is among the selected emblems. */
  lemma SelectedIffPresent(selectedEmblems: seq<string>, t: string)
    ensures IsSelected(selectedEmblems, t) <==> t in selectedEmblems
  {
    FilterIsCount(selectedEmblems, t);
  }

  /** `trait.toLowerCase().replace(/[^a-z0-9]/g, '')`. */
  function NormalizedName(t: string): (r: string)
    ensures forall c :: c in r ==> IsLowerAlnum(c)
  {
    Filter(Lower(t), IsLowerAlnum)
  }

  lemma {:induction false} SpacesVanish(s: string)
    requires forall i :: 0 <= i < |s| ==> IsRegexSpace(s[i])
    ensures Filter(Lower(s), IsLowerAlnum) == []
  {
    FilterNone(Lower(s), IsLowerAlnum);
  }

  /**
   * The grid and the icon normalise alike: the icon also trims, but every character
   * `trim` removes is one the `[^a-z0-9]` replacement removes anyway.
   */
  lemma AgreesWithIcon(t: string)
    ensures NormalizedName(t) == TraitIcon.Normalize(t)
  {
    var a := TraitIcon.TrimStart(t);
    IgnoresTrimStart(t);
    IgnoresTrimEnd(a);
    assert TraitIcon.Normalize(t) == NormalizedName(TraitIcon.TrimEnd(a));
  }

  lemma IgnoresTrimStart(t: string)
    ensures NormalizedName(t) == NormalizedName(TraitIcon.TrimStart(t))
  {
    var a := TraitIcon.TrimStart(t);
    var lead := t[..|t| - |a|];
    assert t == lead + a;
    DropSpaces(lead, a);
  }

  lemma IgnoresTrimEnd(a: string)
    ensures NormalizedName(a) == NormalizedName(TraitIcon.TrimEnd(a))
  {
    var b := TraitIcon.TrimEnd(a);
    var trail := a[|b|..];
    assert a == b + trail;
    DropSpaces2(b, trail);
  }

  /** Leading `\s` characters leave the normalised name unchanged. */
  lemma DropSpaces(lead: string, rest: string)
    requires forall i :: 0 <= i < |lead| ==> IsRegexSpace(lead[i])
    ensures NormalizedName(lead + rest) == NormalizedName(rest)
  {
    LowerAppend(lead, rest);
    FilterAppend(Lower(lead), Lower(rest), IsLowerAlnum);
    SpacesVanish(lead);
  }

  /** Trailing `\s` characters leave it unchanged too. */
  lemma DropSpaces2(rest: string, trail: string)
    requires forall i :: 0 <= i < |trail| ==> IsRegexSpace(trail[i])
    ensures NormalizedName(rest + trail) == NormalizedName(rest)
  {
    LowerAppend(rest, trail);
    FilterAppend(Lower(rest), Lower(trail), IsLowerAlnum);
    SpacesVanish(trail);
  }

  const EmblemBase := "https://raw.communitydragon.org/16.1/game/assets/maps/particles/tft/item_icons/traits/spatula/set16/tft16_emblem_"
  const EmblemSuffix := ".tft_set16.png"

  /** `imageUrl` for a trait. */
  function ImageUrl(t: string): string {
    EmblemBase + NormalizedName(t) + EmblemSuffix
  }

  /** Two traits share an emblem image exactly when their normalised names agree. */
  lemma ImageUrlIdentifiesName(a: string, b: string)
    ensures ImageUrl(a) == ImageUrl(b) <==> NormalizedName(a) == NormalizedName(b)
  {
    if ImageUrl(a) == ImageUrl(b) {
      var n := |ImageUrl(a)|;
      assert NormalizedName(a) == ImageUrl(a)[|EmblemBase|..n - |EmblemSuffix|];
      assert NormalizedName(b) == ImageUrl(b)[|EmblemBase|..n - |EmblemSuffix|];
    }
  }

  /** `disabled={selectedEmblems.length === 0}`. */
  predicate ResetDisabled(selectedEmblems: seq<string>) {
    |selectedEmblems| == 0
  }

  /** Reset is disabled exactly when no tile is highlighted. */
  lemma ResetDisabledIffNoneSelected(selectedEmblems: seq<string>)
    ensures ResetDisabled(selectedEmblems) <==> forall t :: !IsSelected(selectedEmblems, t)
  {
    if !ResetDisabled(selectedEmblems) {
      SelectedIffPresent(selectedEmblems, selectedEmblems[0]);
    } else {
      forall t ensures !IsSelected(selectedEmblems, t) {
        SelectedIffPresent(selectedEmblems, t);
      }
    }
  }
}
