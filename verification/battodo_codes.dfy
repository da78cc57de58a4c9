/** Reading a Battodo stem back: a stem written from curriculum codes (the
    scroll letter, zero-padded numbers, table keys and a variation letter)
    makes each scroll handler search for exactly the names those codes stand
    for. These are the inverses of the `*Query` functions. */
module BattodoCodes {
  import opened Results
  import opened Text
  import opened Numerals
  import opened Shapes
  import opened DecipherUtils
  import opened BattodoTables
  import opened Battodo

  /** A trailing variation letter the `[a-y]` patterns accept. */
  predicate Variation(v: char) {
    'a' <= v <= 'y'
  }

  /** A trailing letter the `[a-z]` patterns accept. */
  predicate AnyLetter(v: char) {
    'a' <= v <= 'z'
  }

  /** A zero-padded number field reads back as the number. */
  lemma NumberFieldOf(stem: string, n: nat)
    requires n < 100 && |stem| >= 3 && stem[1..3] == TwoDigits(n)
    ensures IsDigit(stem[1]) && IsDigit(stem[2])
    ensures NumberField(stem) == NatToString(n)
  {
    var code := TwoDigits(n);
    assert stem[1] == code[0] && stem[2] == code[1];
    TwoDigitsRoundTrip(n);
    CanonicalTwoDigits(code);
  }

  /** `c`, `e` and `f` stems: the number comes back without its padding. */
  lemma {:induction false} NumberedRoundTrip(lead: char, scroll: string, n: nat, v: char)
    requires n < 100 && Variation(v)
    ensures NumberedQuery(lead, scroll, [lead] + TwoDigits(n) + [v]) == Ok(OneQuery("Number", NatToString(n)))
  {
    var stem := [lead] + TwoDigits(n) + [v];
    NumberFieldOf(stem, n);
    assert stem[4..] == "";
    assert Conforms(NumberedShape(lead), stem);
    TwoDigitsRoundTrip(n);
    CanonicalStripsZeros(TwoDigits(n));
  }

  /** `g` stems: the cut and footwork letters come back as their names. */
  lemma {:induction false} SandanSabakiRoundTrip(cut: string, footwork: string, v: char)
    requires cut in SandanSabakiCutType && footwork in SandanSabakiFootworkType && Variation(v)
    ensures SandanSabakiQuery("g" + cut + footwork + [v])
      == Ok(TwoQuery("Name", SandanSabakiCutType[cut], "Footwork", SandanSabakiFootworkType[footwork]))
  {
    SandanSabakiCutTypeKeys();
    SandanSabakiFootworkTypeKeys();
    var stem := "g" + cut + footwork + [v];
    assert stem[1] == cut[0] && stem[2] == footwork[0] && stem[3] == v && stem[4..] == "";
    assert [stem[1]] == cut && [stem[2]] == footwork;
    assert Conforms(SandanSabakiShape, stem);
  }

  /** `d` stems: set number and defense. */
  lemma {:induction false} ShodanNoWazaRoundTrip(n: nat, defense: string, v: char)
    requires n < 100 && defense in ShodanNoWazaDefense && Variation(v)
    ensures ShodanNoWazaQuery("d" + TwoDigits(n) + defense + [v])
      == Ok(TwoQuery("Set", NatToString(n), "Name", ShodanNoWazaDefense[defense]))
  {
    ShodanNoWazaDefenseKeys();
    var stem := "d" + TwoDigits(n) + defense + [v];
    NumberFieldOf(stem, n);
    assert stem[3] == defense[0] && stem[4] == v && stem[5..] == "";
    assert [stem[3]] == defense;
    assert Conforms(ShodanNoWazaShape, stem);
  }

  /** `h01` stems: set one, whatever follows on the line. */
  lemma {:induction false} SandanNoWazaSetOneRoundTrip(rest: string)
    requires NoNewline(rest)
    ensures SandanNoWazaQuery("h01" + rest) == Ok(OneQuery("Number", "1"))
  {
    var stem := "h01" + rest;
    assert stem[1..3] == "01" && stem[3..] == rest;
    assert Conforms(SandanNoWazaShape, stem);
  }

  /** `h02` stems: set two, technique and level. */
  lemma {:induction false} SandanNoWazaSetTwoRoundTrip(technique: string, level: string, v: char)
    requires technique in SandanNoWazaTechnique && level in KumitachiLevel && AnyLetter(v)
    ensures SandanNoWazaQuery("h02" + technique + level + [v])
      == Ok(ThreeQuery("Set", "2", "Level", KumitachiLevel[level], "Name", SandanNoWazaTechnique[technique]))
  {
    SandanNoWazaTechniqueKeys();
    KumitachiLevelKeys();
    var stem := "h02" + technique + level + [v];
    assert stem[1..3] == "02" && stem[3] == technique[0] && stem[4] == level[0] && stem[5] == v;
    assert [stem[3]] == technique && [stem[4]] == level && stem[6..] == "";
    assert Conforms(SandanNoWazaShape, stem) by {
      assert stem[3..] == technique + level + [v];
    }
    assert Conforms(SandanNoWazaSetTwoShape, stem);
    assert NumberField(stem) == "2";
  }

  /** `i` stems: set number and technique. */
  lemma {:induction false} RandoriOkudenRoundTrip(n: nat, technique: string, v: char)
    requires n < 100 && technique in RandoriOkudenTechnique && AnyLetter(v)
    ensures RandoriOkudenQuery("i" + TwoDigits(n) + technique + [v])
      == Ok(TwoQuery("Set", NatToString(n), "Name", RandoriOkudenTechnique[technique]))
  {
    RandoriOkudenTechniqueKeys();
    var stem := "i" + TwoDigits(n) + technique + [v];
    NumberFieldOf(stem, n);
    assert stem[3] == technique[0] && stem[4] == v && stem[5..] == "";
    assert [stem[3]] == technique;
    assert Conforms(RandoriOkudenShape, stem);
  }

  /** `j` stems: set number, technique and level, the level read from the
      Tsuki table for the Tsuki technique (`i`) of set one. */
  lemma {:induction false} NidanNoWazaRoundTrip(n: nat, technique: string, level: string, v: char)
    requires n < 100 && technique in NidanNoWazaTechnique && Variation(v)
    requires level in (if n == 1 && technique == "i" then NidanNoWazaTsukiTechnique else KumitachiLevel)
    ensures var levels := if n == 1 && technique == "i" then NidanNoWazaTsukiTechnique else KumitachiLevel;
      NidanNoWazaQuery("j" + TwoDigits(n) + technique + level + [v])
      == Ok(ThreeQuery("Set", NatToString(n), "Level", levels[level], "Name", NidanNoWazaTechnique[technique]))
  {
    NidanNoWazaTechniqueKeys();
    if n == 1 && technique == "i" {
      NidanNoWazaTsukiTechniqueKeys();
    } else {
      KumitachiLevelKeys();
    }
    var stem := "j" + TwoDigits(n) + technique + level + [v];
    NidanStem(n, technique, level, v);
    NidanTsukiStem(n, technique, level + [v]);
    assert stem == "j" + TwoDigits(n) + technique + (level + [v]);
    NumberFieldOf(stem, n);
    var levels := NidanLevels(stem);
    assert [stem[3]] in NidanNoWazaTechnique && [stem[4]] in levels;
    var r := NidanNoWazaQuery(stem);
    assert r.Ok?;
  }

  /** The `j` stem fits the pattern and its letters sit at positions 3 and 4. */
  lemma NidanStem(n: nat, technique: string, level: string, v: char)
    requires n < 100 && LetterCode(technique) && LetterCode(level) && Variation(v)
    ensures var stem := "j" + TwoDigits(n) + technique + level + [v];
      && Conforms(NidanNoWazaShape, stem)
      && [stem[3]] == technique && [stem[4]] == level
  {
    var stem := "j" + TwoDigits(n) + technique + level + [v];
    NumberFieldOf(stem, n);
    assert stem[3] == technique[0] && stem[4] == level[0] && stem[5] == v && stem[6..] == "";
  }

  /** A `j` stem starts `j01i` exactly for the Tsuki technique of set one. */
  lemma NidanTsukiStem(n: nat, technique: string, rest: string)
    requires n < 100 && LetterCode(technique)
    ensures var stem := "j" + TwoDigits(n) + technique + rest;
      NidanLevels(stem) == if n == 1 && technique == "i" then NidanNoWazaTsukiTechnique else KumitachiLevel
  {
    var stem := "j" + TwoDigits(n) + technique + rest;
    var code := stem[1..4];
    assert code == TwoDigits(n) + technique;
    if code == "01i" {
      assert TwoDigits(n) == code[..2] == "01";
      assert technique == code[2..] == "i";
      TwoDigitsRoundTrip(n);
      ValueTwoDigits("01");
    } else if n == 1 {
      assert TwoDigits(n) == "01";
    }
  }

  /** `k` stems: the kata code. */
  lemma {:induction false} KataRoundTrip(code: string, v: char)
    requires code in KataName && AnyLetter(v)
    ensures KataQuery("k" + code + [v]) == Ok(OneQuery("Name", KataName[code]))
  {
    KataNameKeys();
    var stem := "k" + code + [v];
    assert stem[1..3] == code && stem[3] == v && stem[4..] == "";
    assert Conforms(CodeShape('k'), stem);
  }

  /** A stem of two number codes between the lead letter and a final letter
      fits the pair pattern. */
  lemma PairStem(lead: char, first: string, second: string, v: char)
    requires NumberCode(first) && NumberCode(second) && AnyLetter(v)
    ensures var stem := [lead] + first + second + [v];
      && Conforms(PairShape(lead), stem) && stem[1..3] == first && stem[3..5] == second
  {
    var stem := [lead] + first + second + [v];
    assert stem[1..3] == first && stem[3..5] == second && stem[5] == v && stem[6..] == "";
  }

  /** `l` stems: technique and level codes. */
  lemma {:induction false} BattohoRoundTrip(technique: string, level: string, v: char)
    requires technique in KataTechnique && level in KataBattohoLevel && AnyLetter(v)
    ensures BattohoQuery("l" + technique + level + [v])
      == Ok(TwoQuery("Level", KataBattohoLevel[level], "Name", KataTechnique[technique]))
  {
    KataTechniqueKeys();
    KataBattohoLevelKeys();
    PairStem('l', technique, level, v);
  }

  /** `a` stems: technique and art codes. */
  lemma {:induction false} ToyamaRyuRoundTrip(technique: string, art: string, v: char)
    requires technique in KataTechnique && art in KataToyamaRyuLevel && AnyLetter(v)
    ensures ToyamaRyuQuery("a" + technique + art + [v])
      == Ok(TwoQuery("Art", KataToyamaRyuLevel[art], "Name", KataTechnique[technique]))
  {
    KataTechniqueKeys();
    KataToyamaRyuLevelKeys();
    PairStem('a', technique, art, v);
  }

  /** `b` stems: the rank code and the technique number `n`, counted from 1,
      select technique `n` of the rank. */
  lemma {:induction false} TameshigiriRoundTrip(code: string, n: nat, v: char)
    requires code in TameshigiriRank && AnyLetter(v)
    requires (RankHasTechniques(code); 1 <= n <= |TameshigiriTechnique[TameshigiriRank[code]]| && n < 100)
    ensures (RankHasTechniques(code); var rank := TameshigiriRank[code];
      TameshigiriQuery("b" + code + TwoDigits(n) + [v])
      == Ok(TwoQuery("Rank", rank, "Techniques", TameshigiriTechnique[rank][n - 1])))
  {
    RankHasTechniques(code);
    TameshigiriRankKeys();
    PairStem('b', code, TwoDigits(n), v);
    TwoDigitsRoundTrip(n);
  }

  /** Technique number `00` selects the rank's last technique, through
      Python's index `-1`. */
  lemma {:induction false} TameshigiriZeroIsLast(code: string, v: char)
    requires code in TameshigiriRank && AnyLetter(v)
    ensures var rank := TameshigiriRank[code];
      var list := TameshigiriTechnique[rank];
      TameshigiriQuery("b" + code + "00" + [v]) == Ok(TwoQuery("Rank", rank, "Techniques", list[|list| - 1]))
  {
    TameshigiriRankKeys();
    RanksHaveTechniques();
    PairStem('b', code, "00", v);
    assert Value("00") == 0 by {
      ValueTwoDigits("00");
    }
  }

  /** `m` stems: the number comes back without its padding. */
  lemma {:induction false} FormalitiesRoundTrip(n: nat, v: char)
    requires n < 100 && AnyLetter(v)
    ensures FormalitiesQuery("m" + TwoDigits(n) + [v]) == Ok(OneQuery("Number", NatToString(n)))
  {
    var stem := "m" + TwoDigits(n) + [v];
    NumberFieldOf(stem, n);
    assert stem[4..] == "";
    assert Conforms(CodeShape('m'), stem);
    TwoDigitsRoundTrip(n);
    CanonicalStripsZeros(TwoDigits(n));
  }
}
