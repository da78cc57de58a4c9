/** The Battodo curriculum tables of the file-name decipher: the scroll
    named by a stem's first letter, and the meaning of the letter and
    two-digit codes that follow it. */
module BattodoTables {
  import opened Text

  /** `BATTODO_SCROLL_DICT`: the first letter of a stem names the scroll. */
  const ScrollDict: map<string, string> := map[
    "a" := "toyama_ryu",
    "b" := "tameshigiri",
    "c" := "shodan_uchi_waza",
    "d" := "shodan_no_waza",
    "e" := "sayu_giri",
    "f" := "sandan_uchi_waza",
    "g" := "sandan_sabaki",
    "h" := "sandan_no_waza",
    "i" := "randori_okuden",
    "j" := "nidan_no_waza",
    "k" := "kata",
    "l" := "battoho",
    "m" := "formalities"
  ]

  /** `SUBURI_SANDAN_SABAKI_CUT_TYPE`: cut letter of a Sandan Sabaki stem. */
  const SandanSabakiCutType: map<string, string> := map[
    "k" := "Kesa",
    "g" := "Kiriage",
    "y" := "Yoko"
  ]

  /** `SUBURI_SANDAN_SABAKI_FOOTWORK_TYPE`: footwork letter of a Sandan Sabaki stem. */
  const SandanSabakiFootworkType: map<string, string> := map[
    "f" := "Shuffle",
    "s" := "Step",
    "t" := "2Step"
  ]

  /** `KUMITACHI_LEVEL`: level letter of a Kumitachi stem. */
  const KumitachiLevel: map<string, string> := map[
    "k" := "Kihon",
    "i" := "Kihon Ichi",
    "n" := "Kihon Ni",
    "j" := "Jokyu",
    "g" := "Goshin",
    "r" := "Randori"
  ]

  /** `KUMITACHI_SHODAN_NO_WAZA_DEFENSE`: defense letter of a Shodan no Waza stem. */
  const ShodanNoWazaDefense: map<string, string> := map[
    "u" := "Sankaku Uke",
    "k" := "Kirigaeshi",
    "i" := "Maki Uchi",
    "a" := "Kaeshi Uchi",
    "o" := "Maki Osae",
    "h" := "Harai Uke",
    "s" := "Maki Otoshi",
    "g" := "Hiji Gote"
  ]

  /** `KUMITACHI_SANDAN_NO_WAZA_TECHNIQUE`: technique letter of a Sandan no Waza set-two stem. */
  const SandanNoWazaTechnique: map<string, string> := map[
    "j" := "Jochuge",
    "u" := "Umote Ura",
    "g" := "Gyo So"
  ]

  /** `KUMITACHI_RANDORI_OKUDEN_TECHNIQUE`: technique letter of a Randori Okuden stem. */
  const RandoriOkudenTechnique: map<string, string> := map[
    "n" := "Nagare",
    "c" := "Cut-for-Cut",
    "s" := "Shikaku",
    "a" := "Attack & Counter",
    "i" := "Ai Uchi (Simultaneous Strike)"
  ]

  /** `KUMITACHI_NIDAN_NO_WAZA_TSUKI_TECHNIQUE`: level letter of a Nidan no Waza set-one Tsuki stem. */
  const NidanNoWazaTsukiTechnique: map<string, string> := map[
    "s" := "Sayu Uke",
    "g" := "Tsukigote",
    "o" := "Joge",
    "j" := "Jokyu",
    "r" := "Randori"
  ]

  /** `KUMITACHI_NIDAN_NO_WAZA_TECHNIQUE`: technique letter of a Nidan no Waza stem. */
  const NidanNoWazaTechnique: map<string, string> := map[
    "i" := "Tsuki",
    "r" := "Inshin Irimi",
    "o" := "Soto Uchi",
    "m" := "Mawari Kaiten",
    "h" := "Harai Uke + Osae",
    "s" := "Osae + Osae",
    "k" := "Kote + Harai Uke Ura",
    "j" := "Hiji Gote + Maki Otoshi",
    "n" := "Nidan no Waza"
  ]

  /** `KATA_NAME`: two-digit code of a kata. */
  const KataName: map<string, string> := map[
    "01" := "Happo no Kamae",
    "02" := "Sanbo no Kamae",
    "03" := "Happo Giri",
    "04" := "Shodan no Kata",
    "05" := "Nidan no Kata",
    "06" := "Sandan no Kata"
  ]

  /** `KATA_TECHNIQUE`: two-digit technique code of a Battoho or Toyama Ryu stem. */
  const KataTechnique: map<string, string> := map[
    "01" := "Ipponme",
    "02" := "Nihonme",
    "03" := "Sanbonme",
    "04" := "Yonhonme",
    "05" := "Gohonme",
    "06" := "Ropponme",
    "07" := "Nanahonme",
    "08" := "Happonme"
  ]

  /** `KATA_BATTOHO_LEVEL`: two-digit level code of a Battoho stem. */
  const KataBattohoLevel: map<string, string> := map[
    "01" := "Kihon",
    "02" := "Jokyu",
    "03" := "Santen Giri",
    "04" := "Santen Mayoko",
    "05" := "Goten Giri",
    "06" := "Juji",
    "07" := "Juji Jokyu",
    "08" := "Mangetsu",
    "09" := "Combination"
  ]

  /** `KATA_TOYAMA_RYU_LEVEL`: two-digit art code of a Toyama Ryu stem. */
  const KataToyamaRyuLevel: map<string, string> := map[
    "01" := "Gunto Soho",
    "02" := "Battojutsu",
    "03" := "Battodo",
    "04" := "Battodo Jokyu",
    "05" := "Kumitachi"
  ]

  /** `TAMESHIGIRI_RANK`: two-digit rank code of a Tameshigiri stem. */
  const TameshigiriRank: map<string, string> := map[
    "01" := "Yondan",
    "02" := "Sandan",
    "03" := "Nidan",
    "04" := "Shodan",
    "05" := "Ikkyu",
    "06" := "Nikyu",
    "07" := "Sankyu",
    "08" := "Yonkyu",
    "09" := "Gokyu"
  ]

  /** `TAMESHIGIRI_TECHNIQUE`: the techniques of each rank, in curriculum order. */
  const TameshigiriTechnique: map<string, seq<string>> := map[
    "Yondan" := ["Gaiden"],
    "Sandan" := ["Furiwakegiri", "Mangetsu", "Hangetsu"],
    "Nidan" := ["Goten Giri", "Battoho Goten Giri", "Rokuten Giri", "Sayu Kiriage", "Sayu Yoko Giri"],
    "Shodan" := ["Ichimonji Giri", "Kesa Yoko Giri", "Santen Mayoko", "Battoho Santen Mayoko"],
    "Ikkyu" := ["Cumulative"],
    "Nikyu" := ["Tsubamagaeshi", "Santen Giri", "Battoho Santen Giri", "Yoko Giri"],
    "Sankyu" := ["Kiriage", "Sayu Kesa", "Battoho Jokyu"],
    "Yonkyu" := ["Kesa Giri", "Battoho Kihon"],
    "Gokyu" := ["Target stand demo"]
  ]

  /** Thirteen scrolls, one per letter `a` to `m`. */
  lemma ScrollDictLetters()
    ensures ScrollDict.Keys == {"a", "b", "c", "d", "e", "f", "g", "h", "i", "j", "k", "l", "m"}
    ensures ScrollDict["a"] == "toyama_ryu" && ScrollDict["b"] == "tameshigiri" && ScrollDict["m"] == "formalities"
  {
  }

  /** A key names a scroll exactly when it is one of the letters `a` to
      `m`. */
  lemma ScrollLetter(letter: string)
    ensures letter in ScrollDict <==> |letter| == 1 && 'a' <= letter[0] <= 'm'
  {
    ScrollDictLetters();
    if |letter| == 1 {
      assert letter == [letter[0]];
    }
  }

  /** The technique list of one rank code exists and is non-empty. */
  lemma RankHasTechniques(code: string)
    requires code in TameshigiriRank
    ensures TameshigiriRank[code] in TameshigiriTechnique && |TameshigiriTechnique[TameshigiriRank[code]]| > 0
  {
    RanksHaveTechniques();
  }

  /** Every rank has a non-empty technique list. */
  lemma RanksHaveTechniques()
    ensures forall code | code in TameshigiriRank ::
      TameshigiriRank[code] in TameshigiriTechnique && |TameshigiriTechnique[TameshigiriRank[code]]| > 0
    ensures TameshigiriRank["01"] == "Yondan" && TameshigiriRank["09"] == "Gokyu"
    ensures TameshigiriTechnique["Yondan"] == ["Gaiden"]
    ensures TameshigiriTechnique["Sandan"][0] == "Furiwakegiri"
  {
  }

  /** Kata codes run from 01 to 06, technique codes from 01 to 08. */
  lemma KataCodes()
    ensures KataName.Keys == {"01", "02", "03", "04", "05", "06"}
    ensures KataTechnique.Keys == {"01", "02", "03", "04", "05", "06", "07", "08"}
    ensures KataName["01"] == "Happo no Kamae" && KataName["06"] == "Sandan no Kata"
    ensures KataTechnique["01"] == "Ipponme" && KataTechnique["08"] == "Happonme"
  {
  }

  /** Sample letters of the Suburi and Kumitachi tables. */
  lemma LetterSamples()
    ensures SandanSabakiCutType["k"] == "Kesa" && SandanSabakiCutType["g"] == "Kiriage"
    ensures SandanSabakiFootworkType["f"] == "Shuffle"
    ensures KumitachiLevel["k"] == "Kihon" && KumitachiLevel["r"] == "Randori"
    ensures ShodanNoWazaDefense["u"] == "Sankaku Uke"
  {
  }

  /** A letter code: one lower-case ASCII letter. */
  predicate LetterCode(k: string) {
    |k| == 1 && 'a' <= k[0] <= 'z'
  }

  /** A number code: two ASCII digits. */
  predicate NumberCode(k: string) {
    |k| == 2 && IsDigit(k[0]) && IsDigit(k[1])
  }

  /** The letter tables are keyed by single letters, the number tables by
      two-digit codes. */
  lemma ScrollDictKeys()
    ensures forall k | k in ScrollDict :: LetterCode(k)
  {
  }

  lemma SandanSabakiCutTypeKeys()
    ensures forall k | k in SandanSabakiCutType :: LetterCode(k)
  {
  }

  lemma SandanSabakiFootworkTypeKeys()
    ensures forall k | k in SandanSabakiFootworkType :: LetterCode(k)
  {
  }

  lemma KumitachiLevelKeys()
    ensures forall k | k in KumitachiLevel :: LetterCode(k)
  {
  }

  lemma ShodanNoWazaDefenseKeys()
    ensures forall k | k in ShodanNoWazaDefense :: LetterCode(k)
  {
  }

  lemma SandanNoWazaTechniqueKeys()
    ensures forall k | k in SandanNoWazaTechnique :: LetterCode(k)
  {
  }

  lemma RandoriOkudenTechniqueKeys()
    ensures forall k | k in RandoriOkudenTechnique :: LetterCode(k)
  {
  }

  lemma NidanNoWazaTsukiTechniqueKeys()
    ensures forall k | k in NidanNoWazaTsukiTechnique :: LetterCode(k)
  {
  }

  lemma NidanNoWazaTechniqueKeys()
    ensures forall k | k in NidanNoWazaTechnique :: LetterCode(k)
  {
  }

  lemma KataNameKeys()
    ensures forall k | k in KataName :: NumberCode(k)
  {
  }

  lemma KataTechniqueKeys()
    ensures forall k | k in KataTechnique :: NumberCode(k)
  {
  }

  lemma KataBattohoLevelKeys()
    ensures forall k | k in KataBattohoLevel :: NumberCode(k)
  {
  }

  lemma KataToyamaRyuLevelKeys()
    ensures forall k | k in KataToyamaRyuLevel :: NumberCode(k)
  {
  }

  lemma TameshigiriRankKeys()
    ensures forall k | k in TameshigiriRank :: NumberCode(k)
  {
  }
}
