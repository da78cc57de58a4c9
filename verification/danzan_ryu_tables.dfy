/** The Danzan Ryu curriculum tables of the file-name decipher. */
module DanzanRyuTables {
  /** `DANZAN_RYU_SCROLL_DICT`: the letter after the art letter names the scroll. */
  const ScrollDict: map<string, string> := map[
    "a" := "advanced_weapons",
    "b" := "ukemi",
    "c" := "yawara_stick",
    "d" := "advanced_yawara",
    "e" := "kiai_no_maki",
    "f" := "basic_knife",
    "g" := "goshin",
    "h" := "shinyo",
    "i" := "shinin",
    "j" := "aikijutsu_nage",
    "k" := "kdm",
    "l" := "katsu_kappo",
    "m" := "daito_no_maki",
    "n" := "basic_nage",
    "o" := "oku",
    "p" := "drills",
    "q" := "kyu_shime",
    "r" := "fujin_goshin",
    "s" := "shime",
    "t" := "basic_stick",
    "u" := "basic_handgun",
    "v" := "advanced_nage",
    "w" := "shime_groundflow",
    "x" := "exercises",
    "y" := "basic_yawara",
    "z" := "multiple_attackers"
  ]

  /** `DANZAN_RYU_WEAPON_DICT`: weapon letter of an Advanced Weapons stem. */
  const WeaponDict: map<string, string> := map[
    "f" := "knife",
    "r" := "rifle",
    "t" := "stick",
    "u" := "handgun"
  ]

  /** `DANZAN_RYU_KDM_DICT`: kind letter of a Kick Defense Method stem. */
  const KdmDict: map<string, string> := map[
    "i" := "kick_defense",
    "k" := "kick",
    "p" := "punch",
    "u" := "punch_defense"
  ]

  /** `DANZAN_RYU_GOSHIN_DICT`: side letter of a Goshin stem. */
  const GoshinDict: map<string, string> := map[
    "i" := "inside",
    "o" := "outside"
  ]

  /** `DANZAN_RYU_DRILL_GROUPS`: two-digit group code of a Drills stem. */
  const DrillGroups: map<string, string> := map[
    "01" := "Footwork",
    "02" := "Striking",
    "03" := "StrikeDefense",
    "04" := "Nage",
    "05" := "SelfDefense",
    "06" := "MultipleAttackers",
    "07" := "PushPull",
    "08" := "KyuShime"
  ]

  /** Twenty-six scrolls, one per letter `a` to `z`. */
  lemma ScrollDictLetters()
    ensures forall c: char | 'a' <= c <= 'z' :: [c] in ScrollDict
  {
    forall c: char | 'a' <= c <= 'z'
      ensures [c] in ScrollDict
    {
      LetterKey(c);
    }
  }

  lemma LetterKey(c: char)
    requires 'a' <= c <= 'z'
    ensures [c] in ScrollDict
  {
  }

  /** A key names a scroll exactly when it is one lower-case letter. */
  lemma ScrollLetter(letter: string)
    ensures letter in ScrollDict <==> |letter| == 1 && 'a' <= letter[0] <= 'z'
  {
    if |letter| == 1 && 'a' <= letter[0] <= 'z' {
      assert letter == [letter[0]];
      LetterKey(letter[0]);
    }
  }

  /** Sample scrolls. */
  lemma ScrollSamples()
    ensures ScrollDict["a"] == "advanced_weapons" && ScrollDict["p"] == "drills" && ScrollDict["z"] == "multiple_attackers"
  {
  }

  /** Sample letters and codes of the smaller tables. */
  lemma TableSamples()
    ensures WeaponDict["f"] == "knife" && WeaponDict["u"] == "handgun"
    ensures KdmDict["k"] == "kick" && KdmDict["p"] == "punch"
    ensures GoshinDict["i"] == "inside" && GoshinDict["o"] == "outside"
    ensures DrillGroups["01"] == "Footwork" && DrillGroups["08"] == "KyuShime"
  {
  }

  /** The weapons are four, the kick-defense kinds four, the goshin sides
      two, and the drill groups run from 01 to 08. */
  lemma TableKeys()
    ensures WeaponDict.Keys == {"f", "r", "t", "u"}
    ensures KdmDict.Keys == {"i", "k", "p", "u"}
    ensures GoshinDict.Keys == {"i", "o"}
    ensures DrillGroups.Keys == {"01", "02", "03", "04", "05", "06", "07", "08"}
  {
  }

  /** Drill group codes are two ASCII digits. */
  lemma DrillGroupCodes()
    ensures forall k | k in DrillGroups :: |k| == 2 && '0' <= k[0] <= '9' && '0' <= k[1] <= '9'
  {
  }
}
