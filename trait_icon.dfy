/**
 * The trait icon of components/TraitIcon.tsx: the trait name normalised to `[a-z0-9]`,
 * four candidate image URLs, and the error handler that steps through them before
 * giving up.
 */
module TraitIcon {
  import opened Wrappers
  import opened Lists
  import opened Strings

  // ----- normalisation -----

  /** `trimStart`: drops the leading `\s` characters. */
  function TrimStart(s: string): (r: string)
    ensures |r| <= |s| && r == s[|s| - |r|..]
    ensures forall k :: 0 <= k < |s| - |r| ==> IsRegexSpace(s[k])
    ensures r == [] || !IsRegexSpace(r[0])
  {
    if s != [] && IsRegexSpace(s[0]) then TrimStart(s[1..]) else s
  }

  /** `trimEnd`: drops the trailing `\s` characters. */
  function TrimEnd(s: string): (r: string)
    ensures |r| <= |s| && r == s[..|r|]
    ensures forall k :: |r| <= k < |s| ==> IsRegexSpace(s[k])
    ensures r == [] || !IsRegexSpace(r[|r| - 1])
  {
    if s != [] && IsRegexSpace(s[|s| - 1]) then TrimEnd(s[..|s| - 1]) else s
  }

  /** `String.prototype.trim`: JavaScript trims exactly the characters `\s` matches. */
  function Trim(s: string): string {
    TrimEnd(TrimStart(s))
  }

  /** `trait.trim().toLowerCase().replace(/[^a-z0-9]/g, '')`. */
  function Normalize(t: string): (r: string)
    ensures forall c :: c in r ==> IsLowerAlnum(c)
  {
    Filter(Lower(Trim(t)), IsLowerAlnum)
  }

  lemma {:induction false} LowerOfLowerAlnum(s: string)
    requires forall c :: c in s ==> IsLowerAlnum(c)
    ensures Lower(s) == s
  {
    forall i | 0 <= i < |s| ensures Lower(s)[i] == s[i] {
      assert s[i] in s;
    }
  }

  lemma TrimWithoutSpaces(s: string)
    requires forall c :: c in s ==> !IsRegexSpace(c)
    ensures Trim(s) == s
  {
    if s != [] {
      assert s[0] in s && s[|s| - 1] in s;
    }
  }

  lemma AlnumIsNotSpace(s: string)
    requires forall c :: c in s ==> IsLowerAlnum(c)
    ensures forall c :: c in s ==> !IsRegexSpace(c)
  {
  }

  /** Normalising twice changes nothing more. */
  lemma NormalizeIdempotent(t: string)
    ensures Normalize(Normalize(t)) == Normalize(t)
  {
    var n := Normalize(t);
    AlnumIsNotSpace(n);
    TrimWithoutSpaces(n);
    LowerOfLowerAlnum(n);
    FilterAll(n, IsLowerAlnum);
    calc {
      Normalize(n);
      Filter(Lower(Trim(n)), IsLowerAlnum);
      Filter(Lower(n), IsLowerAlnum);
      Filter(n, IsLowerAlnum);
      n;
    }
  }

  // ----- the candidate URLs -----

  const IconBase := "https://raw.communitydragon.org/latest/game/assets/ux/traiticons/trait_icon_"

  /** The set number and the file suffix of each pattern, in the order they are tried. */
  const Patterns: seq<(string, string)> := [("16_", ".tft_set16.png"), ("16_", ".png"), ("9_", ".png"), ("4_", ".png")]

  /** The `urls` array for a normalised trait name. */
  function CandidateUrls(name: string): (r: seq<string>)
    ensures |r| == |Patterns| == 4
  {
    seq(|Patterns|, i requires 0 <= i < |Patterns| => IconBase + Patterns[i].0 + name + Patterns[i].1)
  }

  /** Every candidate URL embeds the normalised name right after its icon directory and set number. */
  lemma UrlsEmbedName(name: string)
    ensures forall i :: 0 <= i < 4 ==>
      MatchesAt(CandidateUrls(name)[i], name, |IconBase + Patterns[i].0|)
      && CandidateUrls(name)[i][..|IconBase|] == IconBase
  {
    forall i | 0 <= i < 4
      ensures MatchesAt(CandidateUrls(name)[i], name, |IconBase + Patterns[i].0|)
      ensures CandidateUrls(name)[i][..|IconBase|] == IconBase
    {
      var u := CandidateUrls(name)[i];
      var front := IconBase + Patterns[i].0;
      assert u == front + name + Patterns[i].1;
      assert u[|front|..|front| + |name|] == name;
      assert u[..|front|][..|IconBase|] == IconBase;
    }
  }

  // ----- the error handler -----

  /** The icon's state after `handleError`: the next URL, or the error flag at the last one. */
  function AfterError(index: nat, hasError: bool): (nat, bool) {
    if index < 4 - 1 then (index + 1, hasError) else (index, true)
  }

  /** The state after `k` load errors from the initial state. */
  function AfterErrors(k: nat): (nat, bool) {
    if k == 0 then (0, false) else AfterError(AfterErrors(k - 1).0, AfterErrors(k - 1).1)
  }

  /**
   * After `k` failed loads the icon shows the URL at position min(k, 3), and it has given
   * up exactly when all four have failed.
   */
  lemma {:induction false} ErrorsWalkTheUrls(k: nat)
    ensures AfterErrors(k).0 == Min(k, 3)
    ensures AfterErrors(k).1 <==> k >= 4
  {
    if k > 0 {
      ErrorsWalkTheUrls(k - 1);
    }
  }

  class Icon {
    const urls: seq<string>
    var currentUrlIndex: nat
    var hasError: bool

    ghost predicate Valid()
      reads this
    {
      |urls| == 4 && currentUrlIndex < |urls|
    }

    /** The component's first render for `t`. */
    constructor (t: string)
      ensures Valid()
      ensures urls == CandidateUrls(Normalize(t))
      ensures currentUrlIndex == 0 && !hasError
    {
      urls := CandidateUrls(Normalize(t));
      currentUrlIndex := 0;
      hasError := false;
    }

    /** `handleError`: the index never moves back nor past the last URL, and an error is never cleared. */
    method HandleError()
      requires Valid()
      modifies this
      ensures Valid()
      ensures (currentUrlIndex, hasError) == AfterError(old(currentUrlIndex), old(hasError))
      ensures old(currentUrlIndex) <= currentUrlIndex <= 3
      ensures old(hasError) ==> hasError
    {
      if currentUrlIndex < |urls| - 1 {
        currentUrlIndex := currentUrlIndex + 1;
      } else {
        hasError := true;
      }
    }

    /** The `src` of the rendered image, or `None` once the icon has given up. */
    function Rendered(): (r: Option<string>)
      requires Valid()
      reads this
      ensures r.None? <==> hasError
      ensures r.Some? ==> r.value in urls
      ensures r.Some? ==> r.value == urls[currentUrlIndex]
    {
      if hasError then None else Some(urls[currentUrlIndex])
    }
  }
}
