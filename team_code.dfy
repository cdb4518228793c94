/**
 * The Team Planner code (lib/team-code.ts): the prefix "02", three lower-case hex
 * digits per champion with a planner code, "000" groups up to ten slots, and the set
 * identifier "TFTSet16".
 *
 * The encoder is stated over any table of planner codes; `GenerateTeamCode` applies it
 * to `TEAM_PLANNER_CODES` (module PlannerTable), whose invariants the lemmas require.
 */
module TeamCode {
  import opened Wrappers
  import opened Lists
  import opened Strings
  import opened Tft
  import opened PlannerTable

  const Prefix := "02"

  /** `TFT_SET_IDENTIFIER`. */
  const SetIdentifier := "TFTSet16"

  /** `MAX_TEAM_SLOTS`. */
  const MaxTeamSlots := 10

  /** A table of planner codes: `apiName`/code entries in declaration order. */
  type CodeTable = seq<(string, nat)>

  /** `table[apiName]`, `None` standing for `undefined`. */
  function CodeOf(table: CodeTable, apiName: string): (r: Option<nat>)
    ensures r.Some? <==> apiName in Keys(table)
    ensures r.Some? ==> (apiName, r.value) in table
  {
    var k := KeyIndex(table, apiName);
    if k < 0 then None else Some(table[k].1)
  }

  /** The apiName declared with `code`, if any: the reverse lookup a decoder needs. */
  function NameOf(table: CodeTable, code: nat): (r: Option<string>)
    ensures r.Some? ==> (r.value, code) in table
    ensures r.None? ==> forall i :: 0 <= i < |table| ==> table[i].1 != code
  {
    if table == [] then None
    else if table[0].1 == code then Some(table[0].0)
    else NameOf(table[1..], code)
  }

  // ----- encoding -----

  /** What one champion contributes: its planner code, or nothing when it has none. */
  function ContributedCodes(table: CodeTable, c: Champion): seq<nat> {
    match CodeOf(table, c.apiName)
    case Some(code) => [code]
    case None => []
  }

  /** The planner codes of the champions that have one, in input order. */
  function KnownCodes(table: CodeTable, champions: seq<Champion>): seq<nat> {
    if champions == [] then []
    else ContributedCodes(table, champions[0]) + KnownCodes(table, champions[1..])
  }

  /** The apiNames of the champions that have a planner code, in input order. */
  function KnownNames(table: CodeTable, champions: seq<Champion>): seq<string> {
    if champions == [] then []
    else
      (if CodeOf(table, champions[0].apiName).Some? then [champions[0].apiName] else [])
        + KnownNames(table, champions[1..])
  }

  /** The codes of the ten (or more) slots: the known codes, then zeros for the empty slots. */
  function SlotCodes(table: CodeTable, champions: seq<Champion>): seq<nat> {
    var known := KnownCodes(table, champions);
    known + Zeros(PaddingFor(|known|))
  }

  /** How many "000" groups the padding loop appends after `k` groups. */
  function PaddingFor(k: nat): nat {
    if k < MaxTeamSlots then MaxTeamSlots - k else 0
  }

  /** `n` empty slots. */
  function Zeros(n: nat): (r: seq<nat>)
    ensures |r| == n && forall i :: 0 <= i < n ==> r[i] == 0
  {
    if n == 0 then [] else Zeros(n - 1) + [0]
  }

  lemma {:induction false} NumeralShort(n: nat)
    requires n < 0x1000
    ensures |Numeral(n, 16)| <= 3
  {
    if n >= 16 {
      assert Numeral(n, 16) == Numeral(n / 16, 16) + [DigitChar(n % 16)];
      if n / 16 >= 16 {
        assert Numeral(n / 16, 16) == Numeral(n / 16 / 16, 16) + [DigitChar(n / 16 % 16)];
      }
    }
  }

  lemma {:induction false} PadZerosValue(s: string, len: nat)
    requires AllDigits(s, 16)
    ensures AllDigits(PadStart(s, len, '0'), 16)
    ensures ValueOf(PadStart(s, len, '0'), 16) == ValueOf(s, 16)
    decreases len - |s|
  {
    if |s| < len {
      ValueOfLeadingZero(s, 16);
      assert "0" + s == ['0'] + s;
      PadZerosValue(['0'] + s, len);
    }
  }

  /** `code.toString(16).padStart(3, '0')`: three hex digits for any code below 0x1000. */
  function HexGroup(code: nat): (r: string)
    ensures code < 0x1000 ==> |r| == 3 && AllDigits(r, 16) && ValueOf(r, 16) == code
  {
    var digits := Numeral(code, 16);
    PadZerosValue(digits, 3);
    if code < 0x1000 then NumeralShort(code); PadStart(digits, 3, '0')
    else PadStart(digits, 3, '0')
  }

  function HexGroups(codes: seq<nat>): (r: seq<string>)
    ensures |r| == |codes|
    ensures forall i :: 0 <= i < |codes| ==> r[i] == HexGroup(codes[i])
  {
    seq(|codes|, i requires 0 <= i < |codes| => HexGroup(codes[i]))
  }

  /** `Array.prototype.join('')`. */
  function Concat(groups: seq<string>): string {
    if groups == [] then "" else groups[0] + Concat(groups[1..])
  }

  /** The code `generateTeamCode` returns for `champions` under `table`. */
  function TeamCodeOf(table: CodeTable, champions: seq<Champion>): string {
    Prefix + Concat(HexGroups(SlotCodes(table, champions))) + SetIdentifier
  }

  lemma {:induction false} KnownCodesAppend(table: CodeTable, a: seq<Champion>, b: seq<Champion>)
    ensures KnownCodes(table, a + b) == KnownCodes(table, a) + KnownCodes(table, b)
  {
    if a == [] {
      assert a + b == b;
    } else {
      assert (a + b)[1..] == a[1..] + b;
      KnownCodesAppend(table, a[1..], b);
    }
  }

  lemma HexGroupsAppend(a: seq<nat>, b: seq<nat>)
    ensures HexGroups(a + b) == HexGroups(a) + HexGroups(b)
  {
  }

  /** One iteration of the `for...of` loop. */
  lemma HexCodesStep(table: CodeTable, champions: seq<Champion>, i: nat)
    requires i < |champions|
    ensures var c := CodeOf(table, champions[i].apiName);
      HexGroups(KnownCodes(table, champions[..i + 1]))
        == HexGroups(KnownCodes(table, champions[..i])) + if c.Some? then [HexGroup(c.value)] else []
  {
    var c := CodeOf(table, champions[i].apiName);
    var added := ContributedCodes(table, champions[i]);
    assert champions[..i + 1] == champions[..i] + [champions[i]];
    KnownCodesAppend(table, champions[..i], [champions[i]]);
    assert KnownCodes(table, [champions[i]]) == added;
    HexGroupsAppend(KnownCodes(table, champions[..i]), added);
    assert HexGroups(added) == if c.Some? then [HexGroup(c.value)] else [];
  }

  /** One iteration of the padding `while` loop. */
  lemma PaddingStep(known: seq<nat>, padding: nat)
    ensures HexGroups(known + Zeros(padding + 1)) == HexGroups(known + Zeros(padding)) + ["000"]
  {
    assert known + Zeros(padding + 1) == (known + Zeros(padding)) + [0];
    HexGroupsAppend(known + Zeros(padding), [0]);
    assert Numeral(0, 16) == "0";
    assert PadStart("00", 3, '0') == "000";
    assert HexGroup(0) == PadStart("0", 3, '0') == "000";
  }

  /** `generateTeamCode(champions)`: the prefix, the `for...of` loop, the padding loop, the join. */
  method GenerateTeamCode(champions: seq<Champion>) returns (code: string)
    ensures code == TeamCodeOf(PlannerCodes, champions)
  {
    var prefix := "02";
    var hexCodes := HexCodesOf(PlannerCodes, champions);
    hexCodes := PadToSlots(hexCodes, KnownCodes(PlannerCodes, champions));
    code := prefix + Concat(hexCodes) + SetIdentifier;
    JoinedSlots(PlannerCodes, champions, hexCodes);
  }

  /** Joining the padded groups between the prefix and the set identifier gives `TeamCodeOf`. */
  lemma JoinedSlots(table: CodeTable, champions: seq<Champion>, padded: seq<string>)
    requires var known := KnownCodes(table, champions);
      padded == HexGroups(known + Zeros(PaddingFor(|known|)))
    ensures "02" + Concat(padded) + SetIdentifier == TeamCodeOf(table, champions)
  {
  }

  /** The `for...of` loop: one three-digit group per champion with a code, in input order. */
  method HexCodesOf(table: CodeTable, champions: seq<Champion>) returns (hexCodes: seq<string>)
    ensures hexCodes == HexGroups(KnownCodes(table, champions))
  {
    hexCodes := [];
    assert champions[..0] == [];
    for i := 0 to |champions|
      invariant hexCodes == HexGroups(KnownCodes(table, champions[..i]))
    {
      var c := CodeOf(table, champions[i].apiName);
      HexCodesStep(table, champions, i);
      if c.Some? {
        hexCodes := hexCodes + [HexGroup(c.value)];
      }
    }
    assert champions[..|champions|] == champions;
  }

  /** The `while` loop: "000" groups appended until there are `MAX_TEAM_SLOTS`, never truncating. */
  method PadToSlots(hexCodes: seq<string>, ghost known: seq<nat>) returns (padded: seq<string>)
    requires hexCodes == HexGroups(known)
    ensures padded == HexGroups(known + Zeros(PaddingFor(|known|)))
  {
    padded := hexCodes;
    ghost var padding := 0;
    assert known + Zeros(0) == known;
    while |padded| < MaxTeamSlots
      invariant padded == HexGroups(known + Zeros(padding))
      invariant padding == 0 || |known| + padding <= MaxTeamSlots
      decreases MaxTeamSlots - |padded|
    {
      PaddingStep(known, padding);
      padded := padded + ["000"];
      padding := padding + 1;
    }
  }

  // ----- decoding, the encoder's partner -----

  /** Reads hex text as consecutive three-digit groups. */
  function ParseGroups(s: string): Option<seq<nat>>
    decreases |s|
  {
    if s == [] then Some([])
    else if |s| < 3 || !AllDigits(s[..3], 16) then None
    else match ParseGroups(s[3..])
      case None => None
      case Some(rest) => Some([ValueOf(s[..3], 16)] + rest)
  }

  /** Reads a team code back into its slot codes, or `None` when it is not one. */
  function Decode(code: string): Option<seq<nat>> {
    if |code| < |Prefix| + |SetIdentifier| || code[..|Prefix|] != Prefix
      || code[|code| - |SetIdentifier|..] != SetIdentifier
    then None
    else ParseGroups(code[|Prefix|..|code| - |SetIdentifier|])
  }

  lemma ParseCons(g: string, rest: string)
    requires |g| == 3 && AllDigits(g, 16)
    ensures ParseGroups(g + rest) == match ParseGroups(rest)
      case None => None
      case Some(r) => Some([ValueOf(g, 16)] + r)
  {
    assert (g + rest)[..3] == g;
    assert (g + rest)[3..] == rest;
  }

  lemma ConcatHexGroupsCons(codes: seq<nat>)
    requires codes != []
    ensures Concat(HexGroups(codes)) == HexGroup(codes[0]) + Concat(HexGroups(codes[1..]))
  {
    assert HexGroups(codes)[1..] == HexGroups(codes[1..]);
  }

  lemma {:induction false} ParseHexGroups(codes: seq<nat>)
    requires forall i :: 0 <= i < |codes| ==> codes[i] < 0x1000
    ensures |Concat(HexGroups(codes))| == 3 * |codes|
    ensures ParseGroups(Concat(HexGroups(codes))) == Some(codes)
  {
    if codes != [] {
      ConcatHexGroupsCons(codes);
      ParseHexGroups(codes[1..]);
      ParseCons(HexGroup(codes[0]), Concat(HexGroups(codes[1..])));
      assert codes == [codes[0]] + codes[1..];
    }
  }

  lemma {:induction false} KnownCodesValid(table: CodeTable, champions: seq<Champion>)
    requires WellFormed(table)
    ensures forall i :: 0 <= i < |KnownCodes(table, champions)| ==> ValidCode(KnownCodes(table, champions)[i])
  {
    if champions != [] {
      KnownCodesValid(table, champions[1..]);
      var c := CodeOf(table, champions[0].apiName);
      if c.Some? {
        var k :| 0 <= k < |table| && table[k] == (champions[0].apiName, c.value);
      }
    }
  }

  lemma SlotCodesBelow(table: CodeTable, champions: seq<Champion>)
    requires WellFormed(table)
    ensures forall i :: 0 <= i < |SlotCodes(table, champions)| ==> SlotCodes(table, champions)[i] < 0x1000
  {
    KnownCodesValid(table, champions);
  }

  /**
   * The code starts with "02" and ends with "TFTSet16", and with k known champions it
   * holds max(10, k) three-digit groups: padding never truncates.
   */
  lemma TeamCodeShape(table: CodeTable, champions: seq<Champion>)
    requires WellFormed(table)
    ensures var code := TeamCodeOf(table, champions);
      var k := |KnownCodes(table, champions)|;
      && code[..2] == Prefix
      && code[|code| - 8..] == SetIdentifier
      && |code| == 2 + 3 * (if k < MaxTeamSlots then MaxTeamSlots else k) + 8
  {
    var slots := SlotCodes(table, champions);
    SlotCodesBelow(table, champions);
    ParseHexGroups(slots);
    Framed(Concat(HexGroups(slots)));
    assert |slots| == |KnownCodes(table, champions)| + PaddingFor(|KnownCodes(table, champions)|);
  }

  /** What lies around the groups: "02" before, the set identifier after. */
  lemma Framed(middle: string)
    ensures var code := Prefix + middle + SetIdentifier;
      code[..2] == Prefix && code[|code| - 8..] == SetIdentifier && |code| == 2 + |middle| + 8
  {
    var code := Prefix + middle + SetIdentifier;
    assert code[..2] == Prefix;
    assert code[|code| - 8..] == SetIdentifier;
  }

  /** Decoding a generated code gives back every slot: the known codes in order, then zeros. */
  lemma TeamCodeRoundTrip(table: CodeTable, champions: seq<Champion>)
    requires WellFormed(table)
    ensures Decode(TeamCodeOf(table, champions)) == Some(SlotCodes(table, champions))
  {
    SlotCodesBelow(table, champions);
    ParseHexGroups(SlotCodes(table, champions));
    DecodeFramed(Concat(HexGroups(SlotCodes(table, champions))));
  }

  /** Decoding strips the prefix and the set identifier and parses what lies between. */
  lemma DecodeFramed(middle: string)
    ensures Decode(Prefix + middle + SetIdentifier) == ParseGroups(middle)
  {
    var code := Prefix + middle + SetIdentifier;
    assert code[..|Prefix|] == Prefix;
    assert code[|code| - |SetIdentifier|..] == SetIdentifier;
    assert code[|Prefix|..|code| - |SetIdentifier|] == middle;
  }

  /** A slot holding a champion rather than the "000" padding. */
  predicate Occupied(code: nat) { code != 0 }

  /** No planner code is 0, so dropping the "000" slots leaves exactly the known codes. */
  lemma PaddingUnambiguous(table: CodeTable, champions: seq<Champion>)
    requires WellFormed(table)
    ensures Filter(SlotCodes(table, champions), Occupied) == KnownCodes(table, champions)
  {
    var known := KnownCodes(table, champions);
    var zeros := Zeros(PaddingFor(|known|));
    assert SlotCodes(table, champions) == known + zeros;
    KnownCodesValid(table, champions);
    assert forall x :: x in known ==> Occupied(x);
    assert forall x :: x in zeros ==> !Occupied(x);
    FilterAppend(known, zeros, Occupied);
    FilterAll(known, Occupied);
    FilterNone(zeros, Occupied);
  }

  /** A champion's code names that champion and no other. */
  lemma CodeIdentifiesChampion(table: CodeTable, apiName: string)
    requires WellFormed(table) && CodeOf(table, apiName).Some?
    ensures NameOf(table, CodeOf(table, apiName).value) == Some(apiName)
  {
    var c := CodeOf(table, apiName).value;
    var k :| 0 <= k < |table| && table[k] == (apiName, c);
    var r := NameOf(table, c);
    assert r.Some?;
    var j :| 0 <= j < |table| && table[j] == (r.value, c);
    assert j == k;
  }

  /** Looking up each known code in reverse gives the champions' apiNames, in input order. */
  lemma {:induction false} KnownCodesNameChampions(table: CodeTable, champions: seq<Champion>)
    requires WellFormed(table)
    ensures |KnownCodes(table, champions)| == |KnownNames(table, champions)|
    ensures forall i :: 0 <= i < |KnownCodes(table, champions)| ==>
      NameOf(table, KnownCodes(table, champions)[i]) == Some(KnownNames(table, champions)[i])
  {
    if champions != [] {
      var codes, names := KnownCodes(table, champions[1..]), KnownNames(table, champions[1..]);
      KnownCodesNameChampions(table, champions[1..]);
      var found := CodeOf(table, champions[0].apiName);
      if found.Some? {
        CodeIdentifiesChampion(table, champions[0].apiName);
        assert KnownCodes(table, champions) == [found.value] + codes;
        assert KnownNames(table, champions) == [champions[0].apiName] + names;
      } else {
        assert KnownCodes(table, champions) == codes;
        assert KnownNames(table, champions) == names;
      }
    }
  }

  lemma KnownCodesSkip(table: CodeTable, a: seq<Champion>, c: Champion, b: seq<Champion>)
    requires CodeOf(table, c.apiName).None?
    ensures KnownCodes(table, a + [c] + b) == KnownCodes(table, a + b)
  {
    var ac := a + [c];
    calc {
      KnownCodes(table, ac + b);
      { KnownCodesAppend(table, ac, b); }
      KnownCodes(table, ac) + KnownCodes(table, b);
      { KnownCodesAppend(table, a, [c]); assert KnownCodes(table, [c]) == []; }
      KnownCodes(table, a) + KnownCodes(table, b);
      { KnownCodesAppend(table, a, b); }
      KnownCodes(table, a + b);
    }
  }

  /** A champion without a planner code changes nothing, wherever it stands. */
  lemma UnknownChampionIgnored(table: CodeTable, a: seq<Champion>, c: Champion, b: seq<Champion>)
    requires CodeOf(table, c.apiName).None?
    ensures TeamCodeOf(table, a + [c] + b) == TeamCodeOf(table, a + b)
  {
    KnownCodesSkip(table, a, c, b);
    assert SlotCodes(table, a + [c] + b) == SlotCodes(table, a + b);
  }

  /** The round trip for `TEAM_PLANNER_CODES` itself. */
  lemma GeneratedCodeRoundTrip(champions: seq<Champion>)
    ensures Decode(TeamCodeOf(PlannerCodes, champions)) == Some(SlotCodes(PlannerCodes, champions))
    ensures Filter(SlotCodes(PlannerCodes, champions), Occupied) == KnownCodes(PlannerCodes, champions)
  {
    PlannerCodesWellFormed();
    TeamCodeRoundTrip(PlannerCodes, champions);
    PaddingUnambiguous(PlannerCodes, champions);
  }
}
