/**
 * The planner code table of lib/team-code.ts and its data invariants.
 */
module PlannerTable {

  // ----- the planner code table -----

  /** Lines 9-13 of lib/team-code.ts. */
  const Codes0: seq<(string, nat)> := [
    ("TFT16_Tristana", 735),
    ("TFT16_Lulu", 736),
    ("TFT16_Teemo", 800),
    ("TFT16_Rumble", 801),
    ("TFT16_Nautilus", 802)
  ]

  /** Lines 14-18 of lib/team-code.ts. */
  const Codes1: seq<(string, nat)> := [
    ("TFT16_TwistedFate", 803),
    ("TFT16_Gangplank", 804),
    ("TFT16_Illaoi", 812),
    ("TFT16_MissFortune", 813),
    ("TFT16_Sion", 814)
  ]

  /** Lines 19-23 of lib/team-code.ts. */
  const Codes2: seq<(string, nat)> := [
    ("TFT16_Briar", 815),
    ("TFT16_Draven", 817),
    ("TFT16_Ambessa", 818),
    ("TFT16_Zoe", 819),
    ("TFT16_Leona", 820)
  ]

  /** Lines 24-28 of lib/team-code.ts. */
  const Codes3: seq<(string, nat)> := [
    ("TFT16_Aphelios", 821),
    ("TFT16_Taric", 822),
    ("TFT16_JarvanIV", 824),
    ("TFT16_Sona", 826),
    ("TFT16_Garen", 828)
  ]

  /** Lines 29-33 of lib/team-code.ts. */
  const Codes4: seq<(string, nat)> := [
    ("TFT16_Lux", 829),
    ("TFT16_Anivia", 830),
    ("TFT16_Ashe", 831),
    ("TFT16_Braum", 832),
    ("TFT16_Lissandra", 833)
  ]

  /** Lines 34-38 of lib/team-code.ts. */
  const Codes5: seq<(string, nat)> := [
    ("TFT16_Milio", 834),
    ("TFT16_Neeko", 835),
    ("TFT16_Jinx", 840),
    ("TFT16_Caitlyn", 841),
    ("TFT16_Vi", 843)
  ]

  /** Lines 39-43 of lib/team-code.ts. */
  const Codes6: seq<(string, nat)> := [
    ("TFT16_Seraphine", 844),
    ("TFT16_Yasuo", 845),
    ("TFT16_Ahri", 847),
    ("TFT16_Wukong", 848),
    ("TFT16_Shen", 849)
  ]

  /** Lines 44-48 of lib/team-code.ts. */
  const Codes7: seq<(string, nat)> := [
    ("TFT16_Malzahar", 850),
    ("TFT16_RekSai", 851),
    ("TFT16_ChoGath", 852),
    ("TFT16_KogMaw", 853),
    ("TFT16_Annie", 854)
  ]

  /** Lines 49-53 of lib/team-code.ts. */
  const Codes8: seq<(string, nat)> := [
    ("TFT16_Ornn", 855),
    ("TFT16_Kindred", 856),
    ("TFT16_Azir", 857),
    ("TFT16_Zilean", 858),
    ("TFT16_Fiddlesticks", 859)
  ]

  /** Lines 54-58 of lib/team-code.ts. */
  const Codes9: seq<(string, nat)> := [
    ("TFT16_Shyvana", 861),
    ("TFT16_Galio", 863),
    ("TFT16_TahmKench", 864),
    ("TFT16_Sejuani", 865),
    ("TFT16_Sett", 866)
  ]

  /** Lines 59-63 of lib/team-code.ts. */
  const Codes10: seq<(string, nat)> := [
    ("TFT16_Brock", 867),
    ("TFT16_THex", 869),
    ("TFT16_BelVeth", 870),
    ("TFT16_Singed", 871),
    ("TFT16_AurelionSol", 872)
  ]

  /** Lines 64-68 of lib/team-code.ts. */
  const Codes11: seq<(string, nat)> := [
    ("TFT16_Veigar", 873),
    ("TFT16_BaronNashor", 874),
    ("TFT16_Darius", 875),
    ("TFT16_Yone", 876),
    ("TFT16_Warwick", 877)
  ]

  /** Lines 69-73 of lib/team-code.ts. */
  const Codes12: seq<(string, nat)> := [
    ("TFT16_Fizz", 878),
    ("TFT16_Poppy", 879),
    ("TFT16_Kennen", 880),
    ("TFT16_Ziggs", 881),
    ("TFT16_Aatrox", 882)
  ]

  /** Lines 74-78 of lib/team-code.ts. */
  const Codes13: seq<(string, nat)> := [
    ("TFT16_Volibear", 883),
    ("TFT16_Jhin", 884),
    ("TFT16_Sylas", 18),
    ("TFT16_Ryze", 19),
    ("TFT16_Nidalee", 20)
  ]

  /** Lines 79-83 of lib/team-code.ts. */
  const Codes14: seq<(string, nat)> := [
    ("TFT16_Tryndamere", 17),
    ("TFT16_RiftHerald", 22),
    ("TFT16_Mel", 25),
    ("TFT16_Graves", 39),
    ("TFT16_Skarner", 26)
  ]

  /** Lines 84-88 of lib/team-code.ts. */
  const Codes15: seq<(string, nat)> := [
    ("TFT16_Diana", 35),
    ("TFT16_Kaisa", 27),
    ("TFT16_Renekton", 28),
    ("TFT16_Nasus", 34),
    ("TFT16_Xerath", 31)
  ]

  /** Lines 89-93 of lib/team-code.ts. */
  const Codes16: seq<(string, nat)> := [
    ("TFT16_Thresh", 33),
    ("TFT16_Gwen", 29),
    ("TFT16_Kalista", 30),
    ("TFT16_Leblanc", 23),
    ("TFT16_Viego", 36)
  ]

  /** Lines 94-98 of lib/team-code.ts. */
  const Codes17: seq<(string, nat)> := [
    ("TFT16_Ekko", 21),
    ("TFT16_Bard", 24),
    ("TFT16_Vayne", 4),
    ("TFT16_Yunara", 42),
    ("TFT16_Swain", 37)
  ]

  /** Lines 99-103 of lib/team-code.ts. */
  const Codes18: seq<(string, nat)> := [
    ("TFT16_XinZhao", 16),
    ("TFT16_Yorick", 15),
    ("TFT16_Orianna", 43),
    ("TFT16_Qiyana", 44),
    ("TFT16_Loris", 32)
  ]

  /** Lines 104-108 of lib/team-code.ts. */
  const Codes19: seq<(string, nat)> := [
    ("TFT16_Blitzcrank", 842),
    ("TFT16_DrMundo", 47),
    ("TFT16_Zaahen", 48),
    ("TFT16_Lucian", 52),
    ("TFT16_Kobuko", 53)
  ]

  /** `TEAM_PLANNER_CODES`, entries in declaration order. */
  const PlannerCodes: seq<(string, nat)> :=
    Codes0 + Codes1 + Codes2 + Codes3 + Codes4 + Codes5 + Codes6 + Codes7 + Codes8 + Codes9 + Codes10 + Codes11 + Codes12 + Codes13 + Codes14 + Codes15 + Codes16 + Codes17 + Codes18 + Codes19

  /** A code that fits three hex digits and cannot be mistaken for an empty slot. */
  predicate ValidCode(c: nat) {
    0 < c < 0x1000
  }

  predicate ValidCodes(t: seq<(string, nat)>) {
    forall i :: 0 <= i < |t| ==> ValidCode(t[i].1)
  }

  predicate DistinctCodes(t: seq<(string, nat)>) {
    forall i :: 0 <= i < |t| ==> forall j :: i < j < |t| ==> t[i].1 != t[j].1
  }

  predicate DistinctNames(t: seq<(string, nat)>) {
    forall i :: 0 <= i < |t| ==> forall j :: i < j < |t| ==> t[i].0 != t[j].0
  }

  /** Valid codes, no code twice, no apiName twice. */
  predicate WellFormed(t: seq<(string, nat)>) {
    ValidCodes(t) && DistinctCodes(t) && DistinctNames(t)
  }

  predicate DisjointCodes(a: seq<(string, nat)>, b: seq<(string, nat)>) {
    forall i, j :: 0 <= i < |a| && 0 <= j < |b| ==> a[i].1 != b[j].1
  }

  predicate DisjointNames(a: seq<(string, nat)>, b: seq<(string, nat)>) {
    forall i, j :: 0 <= i < |a| && 0 <= j < |b| ==> a[i].0 != b[j].0
  }

  /** No code and no apiName shared between two parts of the table. */
  predicate Apart(a: seq<(string, nat)>, b: seq<(string, nat)>) {
    DisjointCodes(a, b) && DisjointNames(a, b)
  }

  lemma WellFormedAppend(a: seq<(string, nat)>, b: seq<(string, nat)>)
    requires WellFormed(a) && WellFormed(b) && Apart(a, b)
    ensures WellFormed(a + b)
  {
    forall i | 0 <= i < |a + b| ensures ValidCode((a + b)[i].1) {
      if i >= |a| {
        assert (a + b)[i] == b[i - |a|];
      }
    }
    forall i, j | 0 <= i < j < |a + b| ensures (a + b)[i].1 != (a + b)[j].1 && (a + b)[i].0 != (a + b)[j].0 {
      if j < |a| {
      } else if i < |a| {
        assert (a + b)[j] == b[j - |a|];
      } else {
        assert (a + b)[i] == b[i - |a|] && (a + b)[j] == b[j - |a|];
      }
    }
  }

  lemma ApartAppend(a: seq<(string, nat)>, b: seq<(string, nat)>, c: seq<(string, nat)>)
    requires Apart(a, c) && Apart(b, c)
    ensures Apart(a + b, c)
  {
    forall i, j | 0 <= i < |a + b| && 0 <= j < |c| ensures (a + b)[i].1 != c[j].1 && (a + b)[i].0 != c[j].0 {
      if i >= |a| {
        assert (a + b)[i] == b[i - |a|];
      }
    }
  }

  // One fact about one or two parts of the table per lemma keeps each proof small.

  lemma Part0Valid() ensures ValidCodes(Codes0) {}
  lemma Part0CodesDistinct() ensures DistinctCodes(Codes0) {}
  lemma Part0NamesDistinct() ensures DistinctNames(Codes0) {}
  lemma Part1Valid() ensures ValidCodes(Codes1) {}
  lemma Part1CodesDistinct() ensures DistinctCodes(Codes1) {}
  lemma Part1NamesDistinct() ensures DistinctNames(Codes1) {}
  lemma Part2Valid() ensures ValidCodes(Codes2) {}
  lemma Part2CodesDistinct() ensures DistinctCodes(Codes2) {}
  lemma Part2NamesDistinct() ensures DistinctNames(Codes2) {}
  lemma Part3Valid() ensures ValidCodes(Codes3) {}
  lemma Part3CodesDistinct() ensures DistinctCodes(Codes3) {}
  lemma Part3NamesDistinct() ensures DistinctNames(Codes3) {}
  lemma Part4Valid() ensures ValidCodes(Codes4) {}
  lemma Part4CodesDistinct() ensures DistinctCodes(Codes4) {}
  lemma Part4NamesDistinct() ensures DistinctNames(Codes4) {}
  lemma Part5Valid() ensures ValidCodes(Codes5) {}
  lemma Part5CodesDistinct() ensures DistinctCodes(Codes5) {}
  lemma Part5NamesDistinct() ensures DistinctNames(Codes5) {}
  lemma Part6Valid() ensures ValidCodes(Codes6) {}
  lemma Part6CodesDistinct() ensures DistinctCodes(Codes6) {}
  lemma Part6NamesDistinct() ensures DistinctNames(Codes6) {}
  lemma Part7Valid() ensures ValidCodes(Codes7) {}
  lemma Part7CodesDistinct() ensures DistinctCodes(Codes7) {}
  lemma Part7NamesDistinct() ensures DistinctNames(Codes7) {}
  lemma Part8Valid() ensures ValidCodes(Codes8) {}
  lemma Part8CodesDistinct() ensures DistinctCodes(Codes8) {}
  lemma Part8NamesDistinct() ensures DistinctNames(Codes8) {}
  lemma Part9Valid() ensures ValidCodes(Codes9) {}
  lemma Part9CodesDistinct() ensures DistinctCodes(Codes9) {}
  lemma Part9NamesDistinct() ensures DistinctNames(Codes9) {}
  lemma Part10Valid() ensures ValidCodes(Codes10) {}
  lemma Part10CodesDistinct() ensures DistinctCodes(Codes10) {}
  lemma Part10NamesDistinct() ensures DistinctNames(Codes10) {}
  lemma Part11Valid() ensures ValidCodes(Codes11) {}
  lemma Part11CodesDistinct() ensures DistinctCodes(Codes11) {}
  lemma Part11NamesDistinct() ensures DistinctNames(Codes11) {}
  lemma Part12Valid() ensures ValidCodes(Codes12) {}
  lemma Part12CodesDistinct() ensures DistinctCodes(Codes12) {}
  lemma Part12NamesDistinct() ensures DistinctNames(Codes12) {}
  lemma Part13Valid() ensures ValidCodes(Codes13) {}
  lemma Part13CodesDistinct() ensures DistinctCodes(Codes13) {}
  lemma Part13NamesDistinct() ensures DistinctNames(Codes13) {}
  lemma Part14Valid() ensures ValidCodes(Codes14) {}
  lemma Part14CodesDistinct() ensures DistinctCodes(Codes14) {}
  lemma Part14NamesDistinct() ensures DistinctNames(Codes14) {}
  lemma Part15Valid() ensures ValidCodes(Codes15) {}
  lemma Part15CodesDistinct() ensures DistinctCodes(Codes15) {}
  lemma Part15NamesDistinct() ensures DistinctNames(Codes15) {}
  lemma Part16Valid() ensures ValidCodes(Codes16) {}
  lemma Part16CodesDistinct() ensures DistinctCodes(Codes16) {}
  lemma Part16NamesDistinct() ensures DistinctNames(Codes16) {}
  lemma Part17Valid() ensures ValidCodes(Codes17) {}
  lemma Part17CodesDistinct() ensures DistinctCodes(Codes17) {}
  lemma Part17NamesDistinct() ensures DistinctNames(Codes17) {}
  lemma Part18Valid() ensures ValidCodes(Codes18) {}
  lemma Part18CodesDistinct() ensures DistinctCodes(Codes18) {}
  lemma Part18NamesDistinct() ensures DistinctNames(Codes18) {}
  lemma Part19Valid() ensures ValidCodes(Codes19) {}
  lemma Part19CodesDistinct() ensures DistinctCodes(Codes19) {}
  lemma Part19NamesDistinct() ensures DistinctNames(Codes19) {}

  lemma Parts0And1Apart() ensures Apart(Codes0, Codes1) {}
  lemma Parts0And2Apart() ensures Apart(Codes0, Codes2) {}
  lemma Parts1And2Apart() ensures Apart(Codes1, Codes2) {}
  lemma Parts0And3Apart() ensures Apart(Codes0, Codes3) {}
  lemma Parts1And3Apart() ensures Apart(Codes1, Codes3) {}
  lemma Parts2And3Apart() ensures Apart(Codes2, Codes3) {}
  lemma Parts0And4Apart() ensures Apart(Codes0, Codes4) {}
  lemma Parts1And4Apart() ensures Apart(Codes1, Codes4) {}
  lemma Parts2And4Apart() ensures Apart(Codes2, Codes4) {}
  lemma Parts3And4Apart() ensures Apart(Codes3, Codes4) {}
  lemma Parts0And5Apart() ensures Apart(Codes0, Codes5) {}
  lemma Parts1And5Apart() ensures Apart(Codes1, Codes5) {}
  lemma Parts2And5Apart() ensures Apart(Codes2, Codes5) {}
  lemma Parts3And5Apart() ensures Apart(Codes3, Codes5) {}
  lemma Parts4And5Apart() ensures Apart(Codes4, Codes5) {}
  lemma Parts0And6Apart() ensures Apart(Codes0, Codes6) {}
  lemma Parts1And6Apart() ensures Apart(Codes1, Codes6) {}
  lemma Parts2And6Apart() ensures Apart(Codes2, Codes6) {}
  lemma Parts3And6Apart() ensures Apart(Codes3, Codes6) {}
  lemma Parts4And6Apart() ensures Apart(Codes4, Codes6) {}
  lemma Parts5And6Apart() ensures Apart(Codes5, Codes6) {}
  lemma Parts0And7Apart() ensures Apart(Codes0, Codes7) {}
  lemma Parts1And7Apart() ensures Apart(Codes1, Codes7) {}
  lemma Parts2And7Apart() ensures Apart(Codes2, Codes7) {}
  lemma Parts3And7Apart() ensures Apart(Codes3, Codes7) {}
  lemma Parts4And7Apart() ensures Apart(Codes4, Codes7) {}
  lemma Parts5And7Apart() ensures Apart(Codes5, Codes7) {}
  lemma Parts6And7Apart() ensures Apart(Codes6, Codes7) {}
  lemma Parts0And8Apart() ensures Apart(Codes0, Codes8) {}
  lemma Parts1And8Apart() ensures Apart(Codes1, Codes8) {}
  lemma Parts2And8Apart() ensures Apart(Codes2, Codes8) {}
  lemma Parts3And8Apart() ensures Apart(Codes3, Codes8) {}
  lemma Parts4And8Apart() ensures Apart(Codes4, Codes8) {}
  lemma Parts5And8Apart() ensures Apart(Codes5, Codes8) {}
  lemma Parts6And8Apart() ensures Apart(Codes6, Codes8) {}
  lemma Parts7And8Apart() ensures Apart(Codes7, Codes8) {}
  lemma Parts0And9Apart() ensures Apart(Codes0, Codes9) {}
  lemma Parts1And9Apart() ensures Apart(Codes1, Codes9) {}
  lemma Parts2And9Apart() ensures Apart(Codes2, Codes9) {}
  lemma Parts3And9Apart() ensures Apart(Codes3, Codes9) {}
  lemma Parts4And9Apart() ensures Apart(Codes4, Codes9) {}
  lemma Parts5And9Apart() ensures Apart(Codes5, Codes9) {}
  lemma Parts6And9Apart() ensures Apart(Codes6, Codes9) {}
  lemma Parts7And9Apart() ensures Apart(Codes7, Codes9) {}
  lemma Parts8And9Apart() ensures Apart(Codes8, Codes9) {}
  lemma Parts0And10Apart() ensures Apart(Codes0, Codes10) {}
  lemma Parts1And10Apart() ensures Apart(Codes1, Codes10) {}
  lemma Parts2And10Apart() ensures Apart(Codes2, Codes10) {}
  lemma Parts3And10Apart() ensures Apart(Codes3, Codes10) {}
  lemma Parts4And10Apart() ensures Apart(Codes4, Codes10) {}
  lemma Parts5And10Apart() ensures Apart(Codes5, Codes10) {}
  lemma Parts6And10Apart() ensures Apart(Codes6, Codes10) {}
  lemma Parts7And10Apart() ensures Apart(Codes7, Codes10) {}
  lemma Parts8And10Apart() ensures Apart(Codes8, Codes10) {}
  lemma Parts9And10Apart() ensures Apart(Codes9, Codes10) {}
  lemma Parts0And11Apart() ensures Apart(Codes0, Codes11) {}
  lemma Parts1And11Apart() ensures Apart(Codes1, Codes11) {}
  lemma Parts2And11Apart() ensures Apart(Codes2, Codes11) {}
  lemma Parts3And11Apart() ensures Apart(Codes3, Codes11) {}
  lemma Parts4And11Apart() ensures Apart(Codes4, Codes11) {}
  lemma Parts5And11Apart() ensures Apart(Codes5, Codes11) {}
  lemma Parts6And11Apart() ensures Apart(Codes6, Codes11) {}
  lemma Parts7And11Apart() ensures Apart(Codes7, Codes11) {}
  lemma Parts8And11Apart() ensures Apart(Codes8, Codes11) {}
  lemma Parts9And11Apart() ensures Apart(Codes9, Codes11) {}
  lemma Parts10And11Apart() ensures Apart(Codes10, Codes11) {}
  lemma Parts0And12Apart() ensures Apart(Codes0, Codes12) {}
  lemma Parts1And12Apart() ensures Apart(Codes1, Codes12) {}
  lemma Parts2And12Apart() ensures Apart(Codes2, Codes12) {}
  lemma Parts3And12Apart() ensures Apart(Codes3, Codes12) {}
  lemma Parts4And12Apart() ensures Apart(Codes4, Codes12) {}
  lemma Parts5And12Apart() ensures Apart(Codes5, Codes12) {}
  lemma Parts6And12Apart() ensures Apart(Codes6, Codes12) {}
  lemma Parts7And12Apart() ensures Apart(Codes7, Codes12) {}
  lemma Parts8And12Apart() ensures Apart(Codes8, Codes12) {}
  lemma Parts9And12Apart() ensures Apart(Codes9, Codes12) {}
  lemma Parts10And12Apart() ensures Apart(Codes10, Codes12) {}
  lemma Parts11And12Apart() ensures Apart(Codes11, Codes12) {}
  lemma Parts0And13Apart() ensures Apart(Codes0, Codes13) {}
  lemma Parts1And13Apart() ensures Apart(Codes1, Codes13) {}
  lemma Parts2And13Apart() ensures Apart(Codes2, Codes13) {}
  lemma Parts3And13Apart() ensures Apart(Codes3, Codes13) {}
  lemma Parts4And13Apart() ensures Apart(Codes4, Codes13) {}
  lemma Parts5And13Apart() ensures Apart(Codes5, Codes13) {}
  lemma Parts6And13Apart() ensures Apart(Codes6, Codes13) {}
  lemma Parts7And13Apart() ensures Apart(Codes7, Codes13) {}
  lemma Parts8And13Apart() ensures Apart(Codes8, Codes13) {}
  lemma Parts9And13Apart() ensures Apart(Codes9, Codes13) {}
  lemma Parts10And13Apart() ensures Apart(Codes10, Codes13) {}
  lemma Parts11And13Apart() ensures Apart(Codes11, Codes13) {}
  lemma Parts12And13Apart() ensures Apart(Codes12, Codes13) {}
  lemma Parts0And14Apart() ensures Apart(Codes0, Codes14) {}
  lemma Parts1And14Apart() ensures Apart(Codes1, Codes14) {}
  lemma Parts2And14Apart() ensures Apart(Codes2, Codes14) {}
  lemma Parts3And14Apart() ensures Apart(Codes3, Codes14) {}
  lemma Parts4And14Apart() ensures Apart(Codes4, Codes14) {}
  lemma Parts5And14Apart() ensures Apart(Codes5, Codes14) {}
  lemma Parts6And14Apart() ensures Apart(Codes6, Codes14) {}
  lemma Parts7And14Apart() ensures Apart(Codes7, Codes14) {}
  lemma Parts8And14Apart() ensures Apart(Codes8, Codes14) {}
  lemma Parts9And14Apart() ensures Apart(Codes9, Codes14) {}
  lemma Parts10And14Apart() ensures Apart(Codes10, Codes14) {}
  lemma Parts11And14Apart() ensures Apart(Codes11, Codes14) {}
  lemma Parts12And14Apart() ensures Apart(Codes12, Codes14) {}
  lemma Parts13And14Apart() ensures Apart(Codes13, Codes14) {}
  lemma Parts0And15Apart() ensures Apart(Codes0, Codes15) {}
  lemma Parts1And15Apart() ensures Apart(Codes1, Codes15) {}
  lemma Parts2And15Apart() ensures Apart(Codes2, Codes15) {}
  lemma Parts3And15Apart() ensures Apart(Codes3, Codes15) {}
  lemma Parts4And15Apart() ensures Apart(Codes4, Codes15) {}
  lemma Parts5And15Apart() ensures Apart(Codes5, Codes15) {}
  lemma Parts6And15Apart() ensures Apart(Codes6, Codes15) {}
  lemma Parts7And15Apart() ensures Apart(Codes7, Codes15) {}
  lemma Parts8And15Apart() ensures Apart(Codes8, Codes15) {}
  lemma Parts9And15Apart() ensures Apart(Codes9, Codes15) {}
  lemma Parts10And15Apart() ensures Apart(Codes10, Codes15) {}
  lemma Parts11And15Apart() ensures Apart(Codes11, Codes15) {}
  lemma Parts12And15Apart() ensures Apart(Codes12, Codes15) {}
  lemma Parts13And15Apart() ensures Apart(Codes13, Codes15) {}
  lemma Parts14And15Apart() ensures Apart(Codes14, Codes15) {}
  lemma Parts0And16Apart() ensures Apart(Codes0, Codes16) {}
  lemma Parts1And16Apart() ensures Apart(Codes1, Codes16) {}
  lemma Parts2And16Apart() ensures Apart(Codes2, Codes16) {}
  lemma Parts3And16Apart() ensures Apart(Codes3, Codes16) {}
  lemma Parts4And16Apart() ensures Apart(Codes4, Codes16) {}
  lemma Parts5And16Apart() ensures Apart(Codes5, Codes16) {}
  lemma Parts6And16Apart() ensures Apart(Codes6, Codes16) {}
  lemma Parts7And16Apart() ensures Apart(Codes7, Codes16) {}
  lemma Parts8And16Apart() ensures Apart(Codes8, Codes16) {}
  lemma Parts9And16Apart() ensures Apart(Codes9, Codes16) {}
  lemma Parts10And16Apart() ensures Apart(Codes10, Codes16) {}
  lemma Parts11And16Apart() ensures Apart(Codes11, Codes16) {}
  lemma Parts12And16Apart() ensures Apart(Codes12, Codes16) {}
  lemma Parts13And16Apart() ensures Apart(Codes13, Codes16) {}
  lemma Parts14And16Apart() ensures Apart(Codes14, Codes16) {}
  lemma Parts15And16Apart() ensures Apart(Codes15, Codes16) {}
  lemma Parts0And17Apart() ensures Apart(Codes0, Codes17) {}
  lemma Parts1And17Apart() ensures Apart(Codes1, Codes17) {}
  lemma Parts2And17Apart() ensures Apart(Codes2, Codes17) {}
  lemma Parts3And17Apart() ensures Apart(Codes3, Codes17) {}
  lemma Parts4And17Apart() ensures Apart(Codes4, Codes17) {}
  lemma Parts5And17Apart() ensures Apart(Codes5, Codes17) {}
  lemma Parts6And17Apart() ensures Apart(Codes6, Codes17) {}
  lemma Parts7And17Apart() ensures Apart(Codes7, Codes17) {}
  lemma Parts8And17Apart() ensures Apart(Codes8, Codes17) {}
  lemma Parts9And17Apart() ensures Apart(Codes9, Codes17) {}
  lemma Parts10And17Apart() ensures Apart(Codes10, Codes17) {}
  lemma Parts11And17Apart() ensures Apart(Codes11, Codes17) {}
  lemma Parts12And17Apart() ensures Apart(Codes12, Codes17) {}
  lemma Parts13And17Apart() ensures Apart(Codes13, Codes17) {}
  lemma Parts14And17Apart() ensures Apart(Codes14, Codes17) {}
  lemma Parts15And17Apart() ensures Apart(Codes15, Codes17) {}
  lemma Parts16And17Apart() ensures Apart(Codes16, Codes17) {}
  lemma Parts0And18Apart() ensures Apart(Codes0, Codes18) {}
  lemma Parts1And18Apart() ensures Apart(Codes1, Codes18) {}
  lemma Parts2And18Apart() ensures Apart(Codes2, Codes18) {}
  lemma Parts3And18Apart() ensures Apart(Codes3, Codes18) {}
  lemma Parts4And18Apart() ensures Apart(Codes4, Codes18) {}
  lemma Parts5And18Apart() ensures Apart(Codes5, Codes18) {}
  lemma Parts6And18Apart() ensures Apart(Codes6, Codes18) {}
  lemma Parts7And18Apart() ensures Apart(Codes7, Codes18) {}
  lemma Parts8And18Apart() ensures Apart(Codes8, Codes18) {}
  lemma Parts9And18Apart() ensures Apart(Codes9, Codes18) {}
  lemma Parts10And18Apart() ensures Apart(Codes10, Codes18) {}
  lemma Parts11And18Apart() ensures Apart(Codes11, Codes18) {}
  lemma Parts12And18Apart() ensures Apart(Codes12, Codes18) {}
  lemma Parts13And18Apart() ensures Apart(Codes13, Codes18) {}
  lemma Parts14And18Apart() ensures Apart(Codes14, Codes18) {}
  lemma Parts15And18Apart() ensures Apart(Codes15, Codes18) {}
  lemma Parts16And18Apart() ensures Apart(Codes16, Codes18) {}
  lemma Parts17And18Apart() ensures Apart(Codes17, Codes18) {}
  lemma Parts0And19Apart() ensures Apart(Codes0, Codes19) {}
  lemma Parts1And19Apart() ensures Apart(Codes1, Codes19) {}
  lemma Parts2And19Apart() ensures Apart(Codes2, Codes19) {}
  lemma Parts3And19Apart() ensures Apart(Codes3, Codes19) {}
  lemma Parts4And19Apart() ensures Apart(Codes4, Codes19) {}
  lemma Parts5And19Apart() ensures Apart(Codes5, Codes19) {}
  lemma Parts6And19Apart() ensures Apart(Codes6, Codes19) {}
  lemma Parts7And19Apart() ensures Apart(Codes7, Codes19) {}
  lemma Parts8And19Apart() ensures Apart(Codes8, Codes19) {}
  lemma Parts9And19Apart() ensures Apart(Codes9, Codes19) {}
  lemma Parts10And19Apart() ensures Apart(Codes10, Codes19) {}
  lemma Parts11And19Apart() ensures Apart(Codes11, Codes19) {}
  lemma Parts12And19Apart() ensures Apart(Codes12, Codes19) {}
  lemma Parts13And19Apart() ensures Apart(Codes13, Codes19) {}
  lemma Parts14And19Apart() ensures Apart(Codes14, Codes19) {}
  lemma Parts15And19Apart() ensures Apart(Codes15, Codes19) {}
  lemma Parts16And19Apart() ensures Apart(Codes16, Codes19) {}
  lemma Parts17And19Apart() ensures Apart(Codes17, Codes19) {}
  lemma Parts18And19Apart() ensures Apart(Codes18, Codes19) {}

  lemma Prefix1WellFormed()
    ensures WellFormed(Codes0 + Codes1)
  {
    Part0Valid();
    Part0CodesDistinct();
    Part0NamesDistinct();
    Part1Valid();
    Part1CodesDistinct();
    Part1NamesDistinct();
    Parts0And1Apart();
    WellFormedAppend(Codes0, Codes1);
  }

  lemma Prefix2WellFormed()
    ensures WellFormed(Codes0 + Codes1 + Codes2)
  {
    Prefix1WellFormed();
    Part2Valid();
    Part2CodesDistinct();
    Part2NamesDistinct();
    Parts0And2Apart();
    Parts1And2Apart();
    ApartAppend(Codes0, Codes1, Codes2);
    WellFormedAppend(Codes0 + Codes1, Codes2);
  }

  lemma Prefix3WellFormed()
    ensures WellFormed(Codes0 + Codes1 + Codes2 + Codes3)
  {
    Prefix2WellFormed();
    Part3Valid();
    Part3CodesDistinct();
    Part3NamesDistinct();
    Parts0And3Apart();
    Parts1And3Apart();
    Parts2And3Apart();
    ApartAppend(Codes0, Codes1, Codes3);
    ApartAppend(Codes0 + Codes1, Codes2, Codes3);
    WellFormedAppend(Codes0 + Codes1 + Codes2, Codes3);
  }

  lemma Prefix4WellFormed()
    ensures WellFormed(Codes0 + Codes1 + Codes2 + Codes3 + Codes4)
  {
    Prefix3WellFormed();
    Part4Valid();
    Part4CodesDistinct();
    Part4NamesDistinct();
    Parts0And4Apart();
    Parts1And4Apart();
    Parts2And4Apart();
    Parts3And4Apart();
    ApartAppend(Codes0, Codes1, Codes4);
    ApartAppend(Codes0 + Codes1, Codes2, Codes4);
    ApartAppend(Codes0 + Codes1 + Codes2, Codes3, Codes4);
    WellFormedAppend(Codes0 + Codes1 + Codes2 + Codes3, Codes4);
  }

  lemma Prefix5WellFormed()
    ensures WellFormed(Codes0 + Codes1 + Codes2 + Codes3 + Codes4 + Codes5)
  {
    Prefix4WellFormed();
    Part5Valid();
    Part5CodesDistinct();
    Part5NamesDistinct();
    Parts0And5Apart();
    Parts1And5Apart();
    Parts2And5Apart();
    Parts3And5Apart();
    Parts4And5Apart();
    ApartAppend(Codes0, Codes1, Codes5);
    ApartAppend(Codes0 + Codes1, Codes2, Codes5);
    ApartAppend(Codes0 + Codes1 + Codes2, Codes3, Codes5);
    ApartAppend(Codes0 + Codes1 + Codes2 + Codes3, Codes4, Codes5);
    WellFormedAppend(Codes0 + Codes1 + Codes2 + Codes3 + Codes4, Codes5);
  }

  lemma Prefix6WellFormed()
    ensures WellFormed(Codes0 + Codes1 + Codes2 + Codes3 + Codes4 + Codes5 + Codes6)
  {
    Prefix5WellFormed();
    Part6Valid();
    Part6CodesDistinct();
    Part6NamesDistinct();
    Parts0And6Apart();
    Parts1And6Apart();
    Parts2And6Apart();
    Parts3And6Apart();
    Parts4And6Apart();
    Parts5And6Apart();
    ApartAppend(Codes0, Codes1, Codes6);
    ApartAppend(Codes0 + Codes1, Codes2, Codes6);
    ApartAppend(Codes0 + Codes1 + Codes2, Codes3, Codes6);
    ApartAppend(Codes0 + Codes1 + Codes2 + Codes3, Codes4, Codes6);
    ApartAppend(Codes0 + Codes1 + Codes2 + Codes3 + Codes4, Codes5, Codes6);
    WellFormedAppend(Codes0 + Codes1 + Codes2 + Codes3 + Codes4 + Codes5, Codes6);
  }

  lemma Prefix7WellFormed()
    ensures WellFormed(Codes0 + Codes1 + Codes2 + Codes3 + Codes4 + Codes5 + Codes6 + Codes7)
  {
    Prefix6WellFormed();
    Part7Valid();
    Part7CodesDistinct();
    Part7NamesDistinct();
    Parts0And7Apart();
    Parts1And7Apart();
    Parts2And7Apart();
    Parts3And7Apart();
    Parts4And7Apart();
    Parts5And7Apart();
    Parts6And7Apart();
    ApartAppend(Codes0, Codes1, Codes7);
    ApartAppend(Codes0 + Codes1, Codes2, Codes7);
    ApartAppend(Codes0 + Codes1 + Codes2, Codes3, Codes7);
    ApartAppend(Codes0 + Codes1 + Codes2 + Codes3, Codes4, Codes7);
    ApartAppend(Codes0 + Codes1 + Codes2 + Codes3 + Codes4, Codes5, Codes7);
    ApartAppend(Codes0 + Codes1 + Codes2 + Codes3 + Codes4 + Codes5, Codes6, Codes7);
    WellFormedAppend(Codes0 + Codes1 + Codes2 + Codes3 + Codes4 + Codes5 + Codes6, Codes7);
  }

  lemma Prefix8WellFormed()
    ensures WellFormed(Codes0 + Codes1 + Codes2 + Codes3 + Codes4 + Codes5 + Codes6 + Codes7 + Codes8)
  {
    Prefix7WellFormed();
    Part8Valid();
    Part8CodesDistinct();
    Part8NamesDistinct();
    Parts0And8Apart();
    Parts1And8Apart();
    Parts2And8Apart();
    Parts3And8Apart();
    Parts4And8Apart();
    Parts5And8Apart();
    Parts6And8Apart();
    Parts7And8Apart();
    ApartAppend(Codes0, Codes1, Codes8);
    ApartAppend(Codes0 + Codes1, Codes2, Codes8);
    ApartAppend(Codes0 + Codes1 + Codes2, Codes3, Codes8);
    ApartAppend(Codes0 + Codes1 + Codes2 + Codes3, Codes4, Codes8);
    ApartAppend(Codes0 + Codes1 + Codes2 + Codes3 + Codes4, Codes5, Codes8);
    ApartAppend(Codes0 + Codes1 + Codes2 + Codes3 + Codes4 + Codes5, Codes6, Codes8);
    ApartAppend(Codes0 + Codes1 + Codes2 + Codes3 + Codes4 + Codes5 + Codes6, Codes7, Codes8);
    WellFormedAppend(Codes0 + Codes1 + Codes2 + Codes3 + Codes4 + Codes5 + Codes6 + Codes7, Codes8);
  }

  lemma Prefix9WellFormed()
    ensures WellFormed(Codes0 + Codes1 + Codes2 + Codes3 + Codes4 + Codes5 + Codes6 + Codes7 + Codes8 + Codes9)
  {
    Prefix8WellFormed();
    Part9Valid();
    Part9CodesDistinct();
    Part9NamesDistinct();
    Parts0And9Apart();
    Parts1And9Apart();
    Parts2And9Apart();
    Parts3And9Apart();
    Parts4And9Apart();
    Parts5And9Apart();
    Parts6And9Apart();
    Parts7And9Apart();
    Parts8And9Apart();
    ApartAppend(Codes0, Codes1, Codes9);
    ApartAppend(Codes0 + Codes1, Codes2, Codes9);
    ApartAppend(Codes0 + Codes1 + Codes2, Codes3, Codes9);
    ApartAppend(Codes0 + Codes1 + Codes2 + Codes3, Codes4, Codes9);
    ApartAppend(Codes0 + Codes1 + Codes2 + Codes3 + Codes4, Codes5, Codes9);
    ApartAppend(Codes0 + Codes1 + Codes2 + Codes3 + Codes4 + Codes5, Codes6, Codes9);
    ApartAppend(Codes0 + Codes1 + Codes2 + Codes3 + Codes4 + Codes5 + Codes6, Codes7, Codes9);
    ApartAppend(Codes0 + Codes1 + Codes2 + Codes3 + Codes4 + Codes5 + Codes6 + Codes7, Codes8, Codes9);
    WellFormedAppend(Codes0 + Codes1 + Codes2 + Codes3 + Codes4 + Codes5 + Codes6 + Codes7 + Codes8, Codes9);
  }

  lemma Prefix10WellFormed()
    ensures WellFormed(Codes0 + Codes1 + Codes2 + Codes3 + Codes4 + Codes5 + Codes6 + Codes7 + Codes8 + Codes9 + Codes10)
  {
    Prefix9WellFormed();
    Part10Valid();
    Part10CodesDistinct();
    Part10NamesDistinct();
    Parts0And10Apart();
    Parts1And10Apart();
    Parts2And10Apart();
    Parts3And10Apart();
    Parts4And10Apart();
    Parts5And10Apart();
    Parts6And10Apart();
    Parts7And10Apart();
    Parts8And10Apart();
    Parts9And10Apart();
    ApartAppend(Codes0, Codes1, Codes10);
    ApartAppend(Codes0 + Codes1, Codes2, Codes10);
    ApartAppend(Codes0 + Codes1 + Codes2, Codes3, Codes10);
    ApartAppend(Codes0 + Codes1 + Codes2 + Codes3, Codes4, Codes10);
    ApartAppend(Codes0 + Codes1 + Codes2 + Codes3 + Codes4, Codes5, Codes10);
    ApartAppend(Codes0 + Codes1 + Codes2 + Codes3 + Codes4 + Codes5, Codes6, Codes10);
    ApartAppend(Codes0 + Codes1 + Codes2 + Codes3 + Codes4 + Codes5 + Codes6, Codes7, Codes10);
    ApartAppend(Codes0 + Codes1 + Codes2 + Codes3 + Codes4 + Codes5 + Codes6 + Codes7, Codes8, Codes10);
    ApartAppend(Codes0 + Codes1 + Codes2 + Codes3 + Codes4 + Codes5 + Codes6 + Codes7 + Codes8, Codes9, Codes10);
    WellFormedAppend(Codes0 + Codes1 + Codes2 + Codes3 + Codes4 + Codes5 + Codes6 + Codes7 + Codes8 + Codes9, Codes10);
  }

  lemma Prefix11WellFormed()
    ensures WellFormed(Codes0 + Codes1 + Codes2 + Codes3 + Codes4 + Codes5 + Codes6 + Codes7 + Codes8 + Codes9 + Codes10 + Codes11)
  {
    Prefix10WellFormed();
    Part11Valid();
    Part11CodesDistinct();
    Part11NamesDistinct();
    Parts0And11Apart();
    Parts1And11Apart();
    Parts2And11Apart();
    Parts3And11Apart();
    Parts4And11Apart();
    Parts5And11Apart();
    Parts6And11Apart();
    Parts7And11Apart();
    Parts8And11Apart();
    Parts9And11Apart();
    Parts10And11Apart();
    ApartAppend(Codes0, Codes1, Codes11);
    ApartAppend(Codes0 + Codes1, Codes2, Codes11);
    ApartAppend(Codes0 + Codes1 + Codes2, Codes3, Codes11);
    ApartAppend(Codes0 + Codes1 + Codes2 + Codes3, Codes4, Codes11);
    ApartAppend(Codes0 + Codes1 + Codes2 + Codes3 + Codes4, Codes5, Codes11);
    ApartAppend(Codes0 + Codes1 + Codes2 + Codes3 + Codes4 + Codes5, Codes6, Codes11);
    ApartAppend(Codes0 + Codes1 + Codes2 + Codes3 + Codes4 + Codes5 + Codes6, Codes7, Codes11);
    ApartAppend(Codes0 + Codes1 + Codes2 + Codes3 + Codes4 + Codes5 + Codes6 + Codes7, Codes8, Codes11);
    ApartAppend(Codes0 + Codes1 + Codes2 + Codes3 + Codes4 + Codes5 + Codes6 + Codes7 + Codes8, Codes9, Codes11);
    ApartAppend(Codes0 + Codes1 + Codes2 + Codes3 + Codes4 + Codes5 + Codes6 + Codes7 + Codes8 + Codes9, Codes10, Codes11);
    WellFormedAppend(Codes0 + Codes1 + Codes2 + Codes3 + Codes4 + Codes5 + Codes6 + Codes7 + Codes8 + Codes9 + Codes10, Codes11);
  }

  lemma Prefix12WellFormed()
    ensures WellFormed(Codes0 + Codes1 + Codes2 + Codes3 + Codes4 + Codes5 + Codes6 + Codes7 + Codes8 + Codes9 + Codes10 + Codes11 + Codes12)
  {
    Prefix11WellFormed();
    Part12Valid();
    Part12CodesDistinct();
    Part12NamesDistinct();
    Parts0And12Apart();
    Parts1And12Apart();
    Parts2And12Apart();
    Parts3And12Apart();
    Parts4And12Apart();
    Parts5And12Apart();
    Parts6And12Apart();
    Parts7And12Apart();
    Parts8And12Apart();
    Parts9And12Apart();
    Parts10And12Apart();
    Parts11And12Apart();
    ApartAppend(Codes0, Codes1, Codes12);
    ApartAppend(Codes0 + Codes1, Codes2, Codes12);
    ApartAppend(Codes0 + Codes1 + Codes2, Codes3, Codes12);
    ApartAppend(Codes0 + Codes1 + Codes2 + Codes3, Codes4, Codes12);
    ApartAppend(Codes0 + Codes1 + Codes2 + Codes3 + Codes4, Codes5, Codes12);
    ApartAppend(Codes0 + Codes1 + Codes2 + Codes3 + Codes4 + Codes5, Codes6, Codes12);
    ApartAppend(Codes0 + Codes1 + Codes2 + Codes3 + Codes4 + Codes5 + Codes6, Codes7, Codes12);
    ApartAppend(Codes0 + Codes1 + Codes2 + Codes3 + Codes4 + Codes5 + Codes6 + Codes7, Codes8, Codes12);
    ApartAppend(Codes0 + Codes1 + Codes2 + Codes3 + Codes4 + Codes5 + Codes6 + Codes7 + Codes8, Codes9, Codes12);
    ApartAppend(Codes0 + Codes1 + Codes2 + Codes3 + Codes4 + Codes5 + Codes6 + Codes7 + Codes8 + Codes9, Codes10, Codes12);
    ApartAppend(Codes0 + Codes1 + Codes2 + Codes3 + Codes4 + Codes5 + Codes6 + Codes7 + Codes8 + Codes9 + Codes10, Codes11, Codes12);
    WellFormedAppend(Codes0 + Codes1 + Codes2 + Codes3 + Codes4 + Codes5 + Codes6 + Codes7 + Codes8 + Codes9 + Codes10 + Codes11, Codes12);
  }

  lemma Prefix13WellFormed()
    ensures WellFormed(Codes0 + Codes1 + Codes2 + Codes3 + Codes4 + Codes5 + Codes6 + Codes7 + Codes8 + Codes9 + Codes10 + Codes11 + Codes12 + Codes13)
  {
    Prefix12WellFormed();
    Part13Valid();
    Part13CodesDistinct();
    Part13NamesDistinct();
    Parts0And13Apart();
    Parts1And13Apart();
    Parts2And13Apart();
    Parts3And13Apart();
    Parts4And13Apart();
    Parts5And13Apart();
    Parts6And13Apart();
    Parts7And13Apart();
    Parts8And13Apart();
    Parts9And13Apart();
    Parts10And13Apart();
    Parts11And13Apart();
    Parts12And13Apart();
    ApartAppend(Codes0, Codes1, Codes13);
    ApartAppend(Codes0 + Codes1, Codes2, Codes13);
    ApartAppend(Codes0 + Codes1 + Codes2, Codes3, Codes13);
    ApartAppend(Codes0 + Codes1 + Codes2 + Codes3, Codes4, Codes13);
    ApartAppend(Codes0 + Codes1 + Codes2 + Codes3 + Codes4, Codes5, Codes13);
    ApartAppend(Codes0 + Codes1 + Codes2 + Codes3 + Codes4 + Codes5, Codes6, Codes13);
    ApartAppend(Codes0 + Codes1 + Codes2 + Codes3 + Codes4 + Codes5 + Codes6, Codes7, Codes13);
    ApartAppend(Codes0 + Codes1 + Codes2 + Codes3 + Codes4 + Codes5 + Codes6 + Codes7, Codes8, Codes13);
    ApartAppend(Codes0 + Codes1 + Codes2 + Codes3 + Codes4 + Codes5 + Codes6 + Codes7 + Codes8, Codes9, Codes13);
    ApartAppend(Codes0 + Codes1 + Codes2 + Codes3 + Codes4 + Codes5 + Codes6 + Codes7 + Codes8 + Codes9, Codes10, Codes13);
    ApartAppend(Codes0 + Codes1 + Codes2 + Codes3 + Codes4 + Codes5 + Codes6 + Codes7 + Codes8 + Codes9 + Codes10, Codes11, Codes13);
    ApartAppend(Codes0 + Codes1 + Codes2 + Codes3 + Codes4 + Codes5 + Codes6 + Codes7 + Codes8 + Codes9 + Codes10 + Codes11, Codes12, Codes13);
    WellFormedAppend(Codes0 + Codes1 + Codes2 + Codes3 + Codes4 + Codes5 + Codes6 + Codes7 + Codes8 + Codes9 + Codes10 + Codes11 + Codes12, Codes13);
  }

  lemma Prefix14WellFormed()
    ensures WellFormed(Codes0 + Codes1 + Codes2 + Codes3 + Codes4 + Codes5 + Codes6 + Codes7 + Codes8 + Codes9 + Codes10 + Codes11 + Codes12 + Codes13 + Codes14)
  {
    Prefix13WellFormed();
    Part14Valid();
    Part14CodesDistinct();
    Part14NamesDistinct();
    Parts0And14Apart();
    Parts1And14Apart();
    Parts2And14Apart();
    Parts3And14Apart();
    Parts4And14Apart();
    Parts5And14Apart();
    Parts6And14Apart();
    Parts7And14Apart();
    Parts8And14Apart();
    Parts9And14Apart();
    Parts10And14Apart();
    Parts11And14Apart();
    Parts12And14Apart();
    Parts13And14Apart();
    ApartAppend(Codes0, Codes1, Codes14);
    ApartAppend(Codes0 + Codes1, Codes2, Codes14);
    ApartAppend(Codes0 + Codes1 + Codes2, Codes3, Codes14);
    ApartAppend(Codes0 + Codes1 + Codes2 + Codes3, Codes4, Codes14);
    ApartAppend(Codes0 + Codes1 + Codes2 + Codes3 + Codes4, Codes5, Codes14);
    ApartAppend(Codes0 + Codes1 + Codes2 + Codes3 + Codes4 + Codes5, Codes6, Codes14);
    ApartAppend(Codes0 + Codes1 + Codes2 + Codes3 + Codes4 + Codes5 + Codes6, Codes7, Codes14);
    ApartAppend(Codes0 + Codes1 + Codes2 + Codes3 + Codes4 + Codes5 + Codes6 + Codes7, Codes8, Codes14);
    ApartAppend(Codes0 + Codes1 + Codes2 + Codes3 + Codes4 + Codes5 + Codes6 + Codes7 + Codes8, Codes9, Codes14);
    ApartAppend(Codes0 + Codes1 + Codes2 + Codes3 + Codes4 + Codes5 + Codes6 + Codes7 + Codes8 + Codes9, Codes10, Codes14);
    ApartAppend(Codes0 + Codes1 + Codes2 + Codes3 + Codes4 + Codes5 + Codes6 + Codes7 + Codes8 + Codes9 + Codes10, Codes11, Codes14);
    ApartAppend(Codes0 + Codes1 + Codes2 + Codes3 + Codes4 + Codes5 + Codes6 + Codes7 + Codes8 + Codes9 + Codes10 + Codes11, Codes12, Codes14);
    ApartAppend(Codes0 + Codes1 + Codes2 + Codes3 + Codes4 + Codes5 + Codes6 + Codes7 + Codes8 + Codes9 + Codes10 + Codes11 + Codes12, Codes13, Codes14);
    WellFormedAppend(Codes0 + Codes1 + Codes2 + Codes3 + Codes4 + Codes5 + Codes6 + Codes7 + Codes8 + Codes9 + Codes10 + Codes11 + Codes12 + Codes13, Codes14);
  }

  lemma Prefix15WellFormed()
    ensures WellFormed(Codes0 + Codes1 + Codes2 + Codes3 + Codes4 + Codes5 + Codes6 + Codes7 + Codes8 + Codes9 + Codes10 + Codes11 + Codes12 + Codes13 + Codes14 + Codes15)
  {
    Prefix14WellFormed();
    Part15Valid();
    Part15CodesDistinct();
    Part15NamesDistinct();
    Parts0And15Apart();
    Parts1And15Apart();
    Parts2And15Apart();
    Parts3And15Apart();
    Parts4And15Apart();
    Parts5And15Apart();
    Parts6And15Apart();
    Parts7And15Apart();
    Parts8And15Apart();
    Parts9And15Apart();
    Parts10And15Apart();
    Parts11And15Apart();
    Parts12And15Apart();
    Parts13And15Apart();
    Parts14And15Apart();
    ApartAppend(Codes0, Codes1, Codes15);
    ApartAppend(Codes0 + Codes1, Codes2, Codes15);
    ApartAppend(Codes0 + Codes1 + Codes2, Codes3, Codes15);
    ApartAppend(Codes0 + Codes1 + Codes2 + Codes3, Codes4, Codes15);
    ApartAppend(Codes0 + Codes1 + Codes2 + Codes3 + Codes4, Codes5, Codes15);
    ApartAppend(Codes0 + Codes1 + Codes2 + Codes3 + Codes4 + Codes5, Codes6, Codes15);
    ApartAppend(Codes0 + Codes1 + Codes2 + Codes3 + Codes4 + Codes5 + Codes6, Codes7, Codes15);
    ApartAppend(Codes0 + Codes1 + Codes2 + Codes3 + Codes4 + Codes5 + Codes6 + Codes7, Codes8, Codes15);
    ApartAppend(Codes0 + Codes1 + Codes2 + Codes3 + Codes4 + Codes5 + Codes6 + Codes7 + Codes8, Codes9, Codes15);
    ApartAppend(Codes0 + Codes1 + Codes2 + Codes3 + Codes4 + Codes5 + Codes6 + Codes7 + Codes8 + Codes9, Codes10, Codes15);
    ApartAppend(Codes0 + Codes1 + Codes2 + Codes3 + Codes4 + Codes5 + Codes6 + Codes7 + Codes8 + Codes9 + Codes10, Codes11, Codes15);
    ApartAppend(Codes0 + Codes1 + Codes2 + Codes3 + Codes4 + Codes5 + Codes6 + Codes7 + Codes8 + Codes9 + Codes10 + Codes11, Codes12, Codes15);
    ApartAppend(Codes0 + Codes1 + Codes2 + Codes3 + Codes4 + Codes5 + Codes6 + Codes7 + Codes8 + Codes9 + Codes10 + Codes11 + Codes12, Codes13, Codes15);
    ApartAppend(Codes0 + Codes1 + Codes2 + Codes3 + Codes4 + Codes5 + Codes6 + Codes7 + Codes8 + Codes9 + Codes10 + Codes11 + Codes12 + Codes13, Codes14, Codes15);
    WellFormedAppend(Codes0 + Codes1 + Codes2 + Codes3 + Codes4 + Codes5 + Codes6 + Codes7 + Codes8 + Codes9 + Codes10 + Codes11 + Codes12 + Codes13 + Codes14, Codes15);
  }

  lemma Prefix16WellFormed()
    ensures WellFormed(Codes0 + Codes1 + Codes2 + Codes3 + Codes4 + Codes5 + Codes6 + Codes7 + Codes8 + Codes9 + Codes10 + Codes11 + Codes12 + Codes13 + Codes14 + Codes15 + Codes16)
  {
    Prefix15WellFormed();
    Part16Valid();
    Part16CodesDistinct();
    Part16NamesDistinct();
    Parts0And16Apart();
    Parts1And16Apart();
    Parts2And16Apart();
    Parts3And16Apart();
    Parts4And16Apart();
    Parts5And16Apart();
    Parts6And16Apart();
    Parts7And16Apart();
    Parts8And16Apart();
    Parts9And16Apart();
    Parts10And16Apart();
    Parts11And16Apart();
    Parts12And16Apart();
    Parts13And16Apart();
    Parts14And16Apart();
    Parts15And16Apart();
    ApartAppend(Codes0, Codes1, Codes16);
    ApartAppend(Codes0 + Codes1, Codes2, Codes16);
    ApartAppend(Codes0 + Codes1 + Codes2, Codes3, Codes16);
    ApartAppend(Codes0 + Codes1 + Codes2 + Codes3, Codes4, Codes16);
    ApartAppend(Codes0 + Codes1 + Codes2 + Codes3 + Codes4, Codes5, Codes16);
    ApartAppend(Codes0 + Codes1 + Codes2 + Codes3 + Codes4 + Codes5, Codes6, Codes16);
    ApartAppend(Codes0 + Codes1 + Codes2 + Codes3 + Codes4 + Codes5 + Codes6, Codes7, Codes16);
    ApartAppend(Codes0 + Codes1 + Codes2 + Codes3 + Codes4 + Codes5 + Codes6 + Codes7, Codes8, Codes16);
    ApartAppend(Codes0 + Codes1 + Codes2 + Codes3 + Codes4 + Codes5 + Codes6 + Codes7 + Codes8, Codes9, Codes16);
    ApartAppend(Codes0 + Codes1 + Codes2 + Codes3 + Codes4 + Codes5 + Codes6 + Codes7 + Codes8 + Codes9, Codes10, Codes16);
    ApartAppend(Codes0 + Codes1 + Codes2 + Codes3 + Codes4 + Codes5 + Codes6 + Codes7 + Codes8 + Codes9 + Codes10, Codes11, Codes16);
    ApartAppend(Codes0 + Codes1 + Codes2 + Codes3 + Codes4 + Codes5 + Codes6 + Codes7 + Codes8 + Codes9 + Codes10 + Codes11, Codes12, Codes16);
    ApartAppend(Codes0 + Codes1 + Codes2 + Codes3 + Codes4 + Codes5 + Codes6 + Codes7 + Codes8 + Codes9 + Codes10 + Codes11 + Codes12, Codes13, Codes16);
    ApartAppend(Codes0 + Codes1 + Codes2 + Codes3 + Codes4 + Codes5 + Codes6 + Codes7 + Codes8 + Codes9 + Codes10 + Codes11 + Codes12 + Codes13, Codes14, Codes16);
    ApartAppend(Codes0 + Codes1 + Codes2 + Codes3 + Codes4 + Codes5 + Codes6 + Codes7 + Codes8 + Codes9 + Codes10 + Codes11 + Codes12 + Codes13 + Codes14, Codes15, Codes16);
    WellFormedAppend(Codes0 + Codes1 + Codes2 + Codes3 + Codes4 + Codes5 + Codes6 + Codes7 + Codes8 + Codes9 + Codes10 + Codes11 + Codes12 + Codes13 + Codes14 + Codes15, Codes16);
  }

  lemma Prefix17WellFormed()
    ensures WellFormed(Codes0 + Codes1 + Codes2 + Codes3 + Codes4 + Codes5 + Codes6 + Codes7 + Codes8 + Codes9 + Codes10 + Codes11 + Codes12 + Codes13 + Codes14 + Codes15 + Codes16 + Codes17)
  {
    Prefix16WellFormed();
    Part17Valid();
    Part17CodesDistinct();
    Part17NamesDistinct();
    Parts0And17Apart();
    Parts1And17Apart();
    Parts2And17Apart();
    Parts3And17Apart();
    Parts4And17Apart();
    Parts5And17Apart();
    Parts6And17Apart();
    Parts7And17Apart();
    Parts8And17Apart();
    Parts9And17Apart();
    Parts10And17Apart();
    Parts11And17Apart();
    Parts12And17Apart();
    Parts13And17Apart();
    Parts14And17Apart();
    Parts15And17Apart();
    Parts16And17Apart();
    ApartAppend(Codes0, Codes1, Codes17);
    ApartAppend(Codes0 + Codes1, Codes2, Codes17);
    ApartAppend(Codes0 + Codes1 + Codes2, Codes3, Codes17);
    ApartAppend(Codes0 + Codes1 + Codes2 + Codes3, Codes4, Codes17);
    ApartAppend(Codes0 + Codes1 + Codes2 + Codes3 + Codes4, Codes5, Codes17);
    ApartAppend(Codes0 + Codes1 + Codes2 + Codes3 + Codes4 + Codes5, Codes6, Codes17);
    ApartAppend(Codes0 + Codes1 + Codes2 + Codes3 + Codes4 + Codes5 + Codes6, Codes7, Codes17);
    ApartAppend(Codes0 + Codes1 + Codes2 + Codes3 + Codes4 + Codes5 + Codes6 + Codes7, Codes8, Codes17);
    ApartAppend(Codes0 + Codes1 + Codes2 + Codes3 + Codes4 + Codes5 + Codes6 + Codes7 + Codes8, Codes9, Codes17);
    ApartAppend(Codes0 + Codes1 + Codes2 + Codes3 + Codes4 + Codes5 + Codes6 + Codes7 + Codes8 + Codes9, Codes10, Codes17);
    ApartAppend(Codes0 + Codes1 + Codes2 + Codes3 + Codes4 + Codes5 + Codes6 + Codes7 + Codes8 + Codes9 + Codes10, Codes11, Codes17);
    ApartAppend(Codes0 + Codes1 + Codes2 + Codes3 + Codes4 + Codes5 + Codes6 + Codes7 + Codes8 + Codes9 + Codes10 + Codes11, Codes12, Codes17);
    ApartAppend(Codes0 + Codes1 + Codes2 + Codes3 + Codes4 + Codes5 + Codes6 + Codes7 + Codes8 + Codes9 + Codes10 + Codes11 + Codes12, Codes13, Codes17);
    ApartAppend(Codes0 + Codes1 + Codes2 + Codes3 + Codes4 + Codes5 + Codes6 + Codes7 + Codes8 + Codes9 + Codes10 + Codes11 + Codes12 + Codes13, Codes14, Codes17);
    ApartAppend(Codes0 + Codes1 + Codes2 + Codes3 + Codes4 + Codes5 + Codes6 + Codes7 + Codes8 + Codes9 + Codes10 + Codes11 + Codes12 + Codes13 + Codes14, Codes15, Codes17);
    ApartAppend(Codes0 + Codes1 + Codes2 + Codes3 + Codes4 + Codes5 + Codes6 + Codes7 + Codes8 + Codes9 + Codes10 + Codes11 + Codes12 + Codes13 + Codes14 + Codes15, Codes16, Codes17);
    WellFormedAppend(Codes0 + Codes1 + Codes2 + Codes3 + Codes4 + Codes5 + Codes6 + Codes7 + Codes8 + Codes9 + Codes10 + Codes11 + Codes12 + Codes13 + Codes14 + Codes15 + Codes16, Codes17);
  }

  lemma Prefix18WellFormed()
    ensures WellFormed(Codes0 + Codes1 + Codes2 + Codes3 + Codes4 + Codes5 + Codes6 + Codes7 + Codes8 + Codes9 + Codes10 + Codes11 + Codes12 + Codes13 + Codes14 + Codes15 + Codes16 + Codes17 + Codes18)
  {
    Prefix17WellFormed();
    Part18Valid();
    Part18CodesDistinct();
    Part18NamesDistinct();
    Parts0And18Apart();
    Parts1And18Apart();
    Parts2And18Apart();
    Parts3And18Apart();
    Parts4And18Apart();
    Parts5And18Apart();
    Parts6And18Apart();
    Parts7And18Apart();
    Parts8And18Apart();
    Parts9And18Apart();
    Parts10And18Apart();
    Parts11And18Apart();
    Parts12And18Apart();
    Parts13And18Apart();
    Parts14And18Apart();
    Parts15And18Apart();
    Parts16And18Apart();
    Parts17And18Apart();
    ApartAppend(Codes0, Codes1, Codes18);
    ApartAppend(Codes0 + Codes1, Codes2, Codes18);
    ApartAppend(Codes0 + Codes1 + Codes2, Codes3, Codes18);
    ApartAppend(Codes0 + Codes1 + Codes2 + Codes3, Codes4, Codes18);
    ApartAppend(Codes0 + Codes1 + Codes2 + Codes3 + Codes4, Codes5, Codes18);
    ApartAppend(Codes0 + Codes1 + Codes2 + Codes3 + Codes4 + Codes5, Codes6, Codes18);
    ApartAppend(Codes0 + Codes1 + Codes2 + Codes3 + Codes4 + Codes5 + Codes6, Codes7, Codes18);
    ApartAppend(Codes0 + Codes1 + Codes2 + Codes3 + Codes4 + Codes5 + Codes6 + Codes7, Codes8, Codes18);
    ApartAppend(Codes0 + Codes1 + Codes2 + Codes3 + Codes4 + Codes5 + Codes6 + Codes7 + Codes8, Codes9, Codes18);
    ApartAppend(Codes0 + Codes1 + Codes2 + Codes3 + Codes4 + Codes5 + Codes6 + Codes7 + Codes8 + Codes9, Codes10, Codes18);
    ApartAppend(Codes0 + Codes1 + Codes2 + Codes3 + Codes4 + Codes5 + Codes6 + Codes7 + Codes8 + Codes9 + Codes10, Codes11, Codes18);
    ApartAppend(Codes0 + Codes1 + Codes2 + Codes3 + Codes4 + Codes5 + Codes6 + Codes7 + Codes8 + Codes9 + Codes10 + Codes11, Codes12, Codes18);
    ApartAppend(Codes0 + Codes1 + Codes2 + Codes3 + Codes4 + Codes5 + Codes6 + Codes7 + Codes8 + Codes9 + Codes10 + Codes11 + Codes12, Codes13, Codes18);
    ApartAppend(Codes0 + Codes1 + Codes2 + Codes3 + Codes4 + Codes5 + Codes6 + Codes7 + Codes8 + Codes9 + Codes10 + Codes11 + Codes12 + Codes13, Codes14, Codes18);
    ApartAppend(Codes0 + Codes1 + Codes2 + Codes3 + Codes4 + Codes5 + Codes6 + Codes7 + Codes8 + Codes9 + Codes10 + Codes11 + Codes12 + Codes13 + Codes14, Codes15, Codes18);
    ApartAppend(Codes0 + Codes1 + Codes2 + Codes3 + Codes4 + Codes5 + Codes6 + Codes7 + Codes8 + Codes9 + Codes10 + Codes11 + Codes12 + Codes13 + Codes14 + Codes15, Codes16, Codes18);
    ApartAppend(Codes0 + Codes1 + Codes2 + Codes3 + Codes4 + Codes5 + Codes6 + Codes7 + Codes8 + Codes9 + Codes10 + Codes11 + Codes12 + Codes13 + Codes14 + Codes15 + Codes16, Codes17, Codes18);
    WellFormedAppend(Codes0 + Codes1 + Codes2 + Codes3 + Codes4 + Codes5 + Codes6 + Codes7 + Codes8 + Codes9 + Codes10 + Codes11 + Codes12 + Codes13 + Codes14 + Codes15 + Codes16 + Codes17, Codes18);
  }

  lemma Prefix19WellFormed()
    ensures WellFormed(Codes0 + Codes1 + Codes2 + Codes3 + Codes4 + Codes5 + Codes6 + Codes7 + Codes8 + Codes9 + Codes10 + Codes11 + Codes12 + Codes13 + Codes14 + Codes15 + Codes16 + Codes17 + Codes18 + Codes19)
  {
    Prefix18WellFormed();
    Part19Valid();
    Part19CodesDistinct();
    Part19NamesDistinct();
    Parts0And19Apart();
    Parts1And19Apart();
    Parts2And19Apart();
    Parts3And19Apart();
    Parts4And19Apart();
    Parts5And19Apart();
    Parts6And19Apart();
    Parts7And19Apart();
    Parts8And19Apart();
    Parts9And19Apart();
    Parts10And19Apart();
    Parts11And19Apart();
    Parts12And19Apart();
    Parts13And19Apart();
    Parts14And19Apart();
    Parts15And19Apart();
    Parts16And19Apart();
    Parts17And19Apart();
    Parts18And19Apart();
    ApartAppend(Codes0, Codes1, Codes19);
    ApartAppend(Codes0 + Codes1, Codes2, Codes19);
    ApartAppend(Codes0 + Codes1 + Codes2, Codes3, Codes19);
    ApartAppend(Codes0 + Codes1 + Codes2 + Codes3, Codes4, Codes19);
    ApartAppend(Codes0 + Codes1 + Codes2 + Codes3 + Codes4, Codes5, Codes19);
    ApartAppend(Codes0 + Codes1 + Codes2 + Codes3 + Codes4 + Codes5, Codes6, Codes19);
    ApartAppend(Codes0 + Codes1 + Codes2 + Codes3 + Codes4 + Codes5 + Codes6, Codes7, Codes19);
    ApartAppend(Codes0 + Codes1 + Codes2 + Codes3 + Codes4 + Codes5 + Codes6 + Codes7, Codes8, Codes19);
    ApartAppend(Codes0 + Codes1 + Codes2 + Codes3 + Codes4 + Codes5 + Codes6 + Codes7 + Codes8, Codes9, Codes19);
    ApartAppend(Codes0 + Codes1 + Codes2 + Codes3 + Codes4 + Codes5 + Codes6 + Codes7 + Codes8 + Codes9, Codes10, Codes19);
    ApartAppend(Codes0 + Codes1 + Codes2 + Codes3 + Codes4 + Codes5 + Codes6 + Codes7 + Codes8 + Codes9 + Codes10, Codes11, Codes19);
    ApartAppend(Codes0 + Codes1 + Codes2 + Codes3 + Codes4 + Codes5 + Codes6 + Codes7 + Codes8 + Codes9 + Codes10 + Codes11, Codes12, Codes19);
    ApartAppend(Codes0 + Codes1 + Codes2 + Codes3 + Codes4 + Codes5 + Codes6 + Codes7 + Codes8 + Codes9 + Codes10 + Codes11 + Codes12, Codes13, Codes19);
    ApartAppend(Codes0 + Codes1 + Codes2 + Codes3 + Codes4 + Codes5 + Codes6 + Codes7 + Codes8 + Codes9 + Codes10 + Codes11 + Codes12 + Codes13, Codes14, Codes19);
    ApartAppend(Codes0 + Codes1 + Codes2 + Codes3 + Codes4 + Codes5 + Codes6 + Codes7 + Codes8 + Codes9 + Codes10 + Codes11 + Codes12 + Codes13 + Codes14, Codes15, Codes19);
    ApartAppend(Codes0 + Codes1 + Codes2 + Codes3 + Codes4 + Codes5 + Codes6 + Codes7 + Codes8 + Codes9 + Codes10 + Codes11 + Codes12 + Codes13 + Codes14 + Codes15, Codes16, Codes19);
    ApartAppend(Codes0 + Codes1 + Codes2 + Codes3 + Codes4 + Codes5 + Codes6 + Codes7 + Codes8 + Codes9 + Codes10 + Codes11 + Codes12 + Codes13 + Codes14 + Codes15 + Codes16, Codes17, Codes19);
    ApartAppend(Codes0 + Codes1 + Codes2 + Codes3 + Codes4 + Codes5 + Codes6 + Codes7 + Codes8 + Codes9 + Codes10 + Codes11 + Codes12 + Codes13 + Codes14 + Codes15 + Codes16 + Codes17, Codes18, Codes19);
    WellFormedAppend(Codes0 + Codes1 + Codes2 + Codes3 + Codes4 + Codes5 + Codes6 + Codes7 + Codes8 + Codes9 + Codes10 + Codes11 + Codes12 + Codes13 + Codes14 + Codes15 + Codes16 + Codes17 + Codes18, Codes19);
  }

  /** Every planner code is in 1..0xfff, no two champions share a code, and no apiName is declared twice. */
  lemma PlannerCodesWellFormed()
    ensures WellFormed(PlannerCodes)
  {
    Prefix19WellFormed();
  }
}
