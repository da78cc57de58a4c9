/** The Battodo (sword) part of the file-name decipher. A stem's first letter
    names the scroll; each scroll reads the rest of the stem with a fixed
    anchored pattern, turns its codes into curriculum names through the
    tables, and searches the scroll's items for them.

    Every `handle_*` function of the source reads the stem and then calls one
    of the `find_*` functions last, so it is modelled as a `*Query` function
    (stem to label/value pairs, with the source's errors) followed by `Find`.
    Nothing a handler raises depends on the items before that last call, so
    the split keeps the order of the errors. */
module Battodo {
  import opened Results
  import opened Text
  import opened Numerals
  import opened Shapes
  import opened DecipherUtils
  import opened BattodoTables

  /** `get_battodo_scroll_name`: the letters `a` to `m` name the thirteen
      scrolls; any other key raises KeyError. */
  function ScrollName(letter: string): (r: Result<string>)
    ensures r.Ok? ==> letter in ScrollDict && r.value == ScrollDict[letter]
    ensures r.Err? ==> letter !in ScrollDict && r.error == KeyError(letter)
  {
    Lookup(ScrollDict, letter)
  }

  /** The keys that name a scroll are exactly the single letters `a` to `m`. */
  lemma ScrollNameLetters(letter: string)
    ensures ScrollName(letter).Ok? <==> |letter| == 1 && 'a' <= letter[0] <= 'm'
    ensures ScrollName("a") == Ok("toyama_ryu") && ScrollName("b") == Ok("tameshigiri")
    ensures ScrollName("j") == Ok("nidan_no_waza")
  {
    ScrollLetter(letter);
    ScrollDictLetters();
  }

  /** The start of `_require_parts`'s message. */
  const InvalidStemPrefix := "Invalid Battodo file stem for "

  /** `_require_parts`'s error. */
  function InvalidStem(scroll: string, stem: string): Failure {
    RuntimeError(InvalidStemPrefix + scroll + ": " + stem)
  }

  /** `_require_parts`: an empty `findall` result is an error naming the
      scroll and the stem; otherwise the captures are passed on. */
  function RequireParts(m: Option<seq<string>>, stem: string, scroll: string): (r: Result<seq<string>>)
    ensures r.Ok? <==> m.Some?
    ensures r.Ok? ==> r.value == m.value
    ensures r.Err? ==> r.error == InvalidStem(scroll, stem)
  {
    match m
    case None => Err(InvalidStem(scroll, stem))
    case Some(parts) => Ok(parts)
  }

  // ---------------------------------------------------------------------------
  // Patterns
  // ---------------------------------------------------------------------------

  /** `^c([0-9]{2})([a-y]{1})$`, and the same with `f` and `e`: scroll letter,
      two-digit number, variation letter up to `y`. */
  function NumberedShape(lead: char): (p: Shape)
    ensures WellFormed(p) && GroupIs(p, 0, Digit)
  {
    Shape([Lit(lead), Digit, Digit, LetterToY], [(1, 3), (3, 4)], End)
  }

  /** `^k([0-9]{2})[a-z]$` and `^m([0-9]{2})[a-z]$`: scroll letter, two-digit
      code, variation letter. */
  function CodeShape(lead: char): (p: Shape)
    ensures WellFormed(p) && GroupIs(p, 0, Digit)
  {
    Shape([Lit(lead), Digit, Digit, Letter], [(1, 3)], End)
  }

  /** `^l([0-9]{2})([0-9]{2})[a-z]$`, and the same with `a` and `b`: scroll
      letter, two two-digit codes, variation letter. */
  function PairShape(lead: char): (p: Shape)
    ensures WellFormed(p) && GroupIs(p, 0, Digit) && GroupIs(p, 1, Digit)
  {
    Shape([Lit(lead), Digit, Digit, Digit, Digit, Letter], [(1, 3), (3, 5)], End)
  }

  /** `^g([a-z]{1})([a-z]{1})([a-y]{1})$` */
  const SandanSabakiShape := Shape([Lit('g'), Letter, Letter, LetterToY], [(1, 2), (2, 3), (3, 4)], End)

  /** `^d([0-9]{2})([a-z])[a-y]$` */
  const ShodanNoWazaShape := Shape([Lit('d'), Digit, Digit, Letter, LetterToY], [(1, 3), (3, 4)], End)

  /** `^h([0-9]{2}).*$`: the set number, then anything on one line. */
  const SandanNoWazaShape := Shape([Lit('h'), Digit, Digit], [(1, 3)], AnyThenEnd)

  /** `^h([0-9]{2})([a-z]{1})([a-z]{1})[a-z]{1}$` */
  const SandanNoWazaSetTwoShape := Shape([Lit('h'), Digit, Digit, Letter, Letter, Letter], [(1, 3), (3, 4), (4, 5)], End)

  /** `^i([0-9]{2})([a-z]{1})[a-z]{1}$` */
  const RandoriOkudenShape := Shape([Lit('i'), Digit, Digit, Letter, Letter], [(1, 3), (3, 4)], End)

  /** `^j([0-9]{2})([a-z])([a-z])[a-y]$` */
  const NidanNoWazaShape := Shape([Lit('j'), Digit, Digit, Letter, Letter, LetterToY], [(1, 3), (3, 4), (4, 5)], End)

  /** The number a two-digit field stands for, as `str(int(field))` writes
      it: the field without its leading zero. */
  function NumberField(stem: string): (r: string)
    requires 3 <= |stem| && IsDigit(stem[1]) && IsDigit(stem[2])
    ensures r == if stem[1] == '0' then [stem[2]] else stem[1..3]
  {
    CanonicalTwoDigits(stem[1..3]);
    Canonical(stem[1..3])
  }

  // ---------------------------------------------------------------------------
  // Suburi
  // ---------------------------------------------------------------------------

  /** `handle_suburi_shodan_uchi_waza` (`c`), `handle_suburi_sandan_uchi_waza`
      (`f`) and `handle_suburi_sayu_giri` (`e`): the item whose `Number` is the
      stem's two-digit number without its leading zero. */
  function NumberedQuery(lead: char, scroll: string, stem: string): (r: Result<Query>)
    ensures r.Ok? <==> Conforms(NumberedShape(lead), stem)
    ensures r.Err? ==> r.error == InvalidStem(scroll, stem)
    ensures r.Ok? ==> r.value == OneQuery("Number", StripLeadingZeros(stem[1..3]))
  {
    var p := NumberedShape(lead);
    var parts :- RequireParts(Match(p, stem), stem, scroll);
    CapturedDigits(p, stem, 0);
    CanonicalStripsZeros(parts[0]);
    Ok(OneQuery("Number", Canonical(parts[0])))
  }

  /** `handle_suburi_sandan_sabaki`: cut letter, then footwork letter, each
      looked up in its table (KeyError when absent), in that order. */
  function SandanSabakiQuery(stem: string): (r: Result<Query>)
    ensures !Conforms(SandanSabakiShape, stem) ==> r == Err(InvalidStem("sandan_sabaki", stem))
    ensures r.Ok? <==>
      Conforms(SandanSabakiShape, stem) && [stem[1]] in SandanSabakiCutType && [stem[2]] in SandanSabakiFootworkType
    ensures Conforms(SandanSabakiShape, stem) && [stem[1]] !in SandanSabakiCutType ==> r == Err(KeyError([stem[1]]))
    ensures Conforms(SandanSabakiShape, stem) && [stem[1]] in SandanSabakiCutType && [stem[2]] !in SandanSabakiFootworkType ==>
      r == Err(KeyError([stem[2]]))
    ensures r.Ok? ==>
      r.value == TwoQuery("Name", SandanSabakiCutType[[stem[1]]], "Footwork", SandanSabakiFootworkType[[stem[2]]])
  {
    var parts :- RequireParts(Match(SandanSabakiShape, stem), stem, "sandan_sabaki");
    assert parts[0] == [stem[1]] && parts[1] == [stem[2]];
    var cut :- Lookup(SandanSabakiCutType, parts[0]);
    var footwork :- Lookup(SandanSabakiFootworkType, parts[1]);
    Ok(TwoQuery("Name", cut, "Footwork", footwork))
  }

  /** `handle_suburi_scroll`. */
  function SuburiQuery(scroll: string, stem: string): (r: Result<Query>)
    ensures scroll == "shodan_uchi_waza" ==> r == NumberedQuery('c', scroll, stem)
    ensures scroll == "sandan_sabaki" ==> r == SandanSabakiQuery(stem)
    ensures scroll == "sayu_giri" ==> r == NumberedQuery('e', scroll, stem)
    ensures scroll == "sandan_uchi_waza" ==> r == NumberedQuery('f', scroll, stem)
    ensures scroll !in SuburiScrolls ==> r == Err(RuntimeError("Invalid Battodo Suburi scroll: " + scroll))
  {
    if scroll == "shodan_uchi_waza" then NumberedQuery('c', scroll, stem)
    else if scroll == "sandan_sabaki" then SandanSabakiQuery(stem)
    else if scroll == "sayu_giri" then NumberedQuery('e', scroll, stem)
    else if scroll == "sandan_uchi_waza" then NumberedQuery('f', scroll, stem)
    else Err(RuntimeError("Invalid Battodo Suburi scroll: " + scroll))
  }

  // ---------------------------------------------------------------------------
  // Kumitachi
  // ---------------------------------------------------------------------------

  /** `handle_kumitachi_shodan_no_waza`: set number and defense letter. */
  function ShodanNoWazaQuery(stem: string): (r: Result<Query>)
    ensures !Conforms(ShodanNoWazaShape, stem) ==> r == Err(InvalidStem("shodan_no_waza", stem))
    ensures r.Ok? <==> Conforms(ShodanNoWazaShape, stem) && [stem[3]] in ShodanNoWazaDefense
    ensures Conforms(ShodanNoWazaShape, stem) && [stem[3]] !in ShodanNoWazaDefense ==> r == Err(KeyError([stem[3]]))
    ensures r.Ok? ==> r.value == TwoQuery("Set", NumberField(stem), "Name", ShodanNoWazaDefense[[stem[3]]])
  {
    var parts :- RequireParts(Match(ShodanNoWazaShape, stem), stem, "shodan_no_waza");
    assert parts[0] == stem[1..3] && parts[1] == [stem[3]];
    var setNo := Canonical(parts[0]);
    var defense :- Lookup(ShodanNoWazaDefense, parts[1]);
    Ok(TwoQuery("Set", setNo, "Name", defense))
  }

  /** `handle_kumitachi_sandan_no_waza_set_one`: only the set number is read;
      whatever follows it on the line is ignored. */
  function SandanNoWazaSetOneQuery(stem: string): (r: Result<Query>)
    ensures r.Ok? <==> Conforms(SandanNoWazaShape, stem)
    ensures r.Err? ==> r.error == InvalidStem("sandan_no_waza_set_one", stem)
    ensures r.Ok? ==> r.value == OneQuery("Number", NumberField(stem))
  {
    var parts :- RequireParts(Match(SandanNoWazaShape, stem), stem, "sandan_no_waza_set_one");
    assert parts[0] == stem[1..3];
    Ok(OneQuery("Number", Canonical(parts[0])))
  }

  /** `handle_kumitachi_sandan_no_waza_set_two`: set number, technique letter
      and level letter, looked up in that order. */
  function SandanNoWazaSetTwoQuery(stem: string): (r: Result<Query>)
    ensures !Conforms(SandanNoWazaSetTwoShape, stem) ==> r == Err(InvalidStem("sandan_no_waza_set_two", stem))
    ensures r.Ok? <==>
      Conforms(SandanNoWazaSetTwoShape, stem) && [stem[3]] in SandanNoWazaTechnique && [stem[4]] in KumitachiLevel
    ensures Conforms(SandanNoWazaSetTwoShape, stem) && [stem[3]] !in SandanNoWazaTechnique ==> r == Err(KeyError([stem[3]]))
    ensures Conforms(SandanNoWazaSetTwoShape, stem) && [stem[3]] in SandanNoWazaTechnique && [stem[4]] !in KumitachiLevel ==>
      r == Err(KeyError([stem[4]]))
    ensures r.Ok? ==>
      r.value == ThreeQuery("Set", NumberField(stem), "Level", KumitachiLevel[[stem[4]]], "Name", SandanNoWazaTechnique[[stem[3]]])
  {
    var parts :- RequireParts(Match(SandanNoWazaSetTwoShape, stem), stem, "sandan_no_waza_set_two");
    assert parts[0] == stem[1..3] && parts[1] == [stem[3]] && parts[2] == [stem[4]];
    var setNo := Canonical(parts[0]);
    var technique :- Lookup(SandanNoWazaTechnique, parts[1]);
    var level :- Lookup(KumitachiLevel, parts[2]);
    Ok(ThreeQuery("Set", setNo, "Level", level, "Name", technique))
  }

  /** The message of an unknown Sandan no Waza set, before the set code
      (kept in two pieces so that its first letter is cheap to see). */
  const UnknownSetNumber := "Kumitachi " + "Sandan No Waza unknown set number: "

  /** `handle_kumitachi_sandan_no_waza`: the raw two-digit set code chooses
      set one (`01`) or set two (`02`); any other code is an error. */
  function SandanNoWazaQuery(stem: string): (r: Result<Query>)
    ensures !Conforms(SandanNoWazaShape, stem) ==> r == Err(InvalidStem("sandan_no_waza", stem))
    ensures Conforms(SandanNoWazaShape, stem) && stem[1..3] == "01" ==> r == Ok(OneQuery("Number", "1"))
    ensures Conforms(SandanNoWazaShape, stem) && stem[1..3] == "02" ==> r == SandanNoWazaSetTwoQuery(stem)
    ensures Conforms(SandanNoWazaShape, stem) && stem[1..3] != "01" && stem[1..3] != "02" ==>
      r == Err(RuntimeError(UnknownSetNumber + stem[1..3]))
  {
    var parts :- RequireParts(Match(SandanNoWazaShape, stem), stem, "sandan_no_waza");
    assert parts[0] == stem[1..3];
    if parts[0] == "01" then
      assert stem[1] == '0' && stem[2] == '1';
      SandanNoWazaSetOneQuery(stem)
    else if parts[0] == "02" then SandanNoWazaSetTwoQuery(stem)
    else Err(RuntimeError(UnknownSetNumber + parts[0]))
  }

  /** `handle_kumitachi_randori_okuden`: set number and technique letter. */
  function RandoriOkudenQuery(stem: string): (r: Result<Query>)
    ensures !Conforms(RandoriOkudenShape, stem) ==> r == Err(InvalidStem("randori_okuden", stem))
    ensures r.Ok? <==> Conforms(RandoriOkudenShape, stem) && [stem[3]] in RandoriOkudenTechnique
    ensures Conforms(RandoriOkudenShape, stem) && [stem[3]] !in RandoriOkudenTechnique ==> r == Err(KeyError([stem[3]]))
    ensures r.Ok? ==> r.value == TwoQuery("Set", NumberField(stem), "Name", RandoriOkudenTechnique[[stem[3]]])
  {
    var parts :- RequireParts(Match(RandoriOkudenShape, stem), stem, "randori_okuden");
    assert parts[0] == stem[1..3] && parts[1] == [stem[3]];
    var setNo := Canonical(parts[0]);
    var technique :- Lookup(RandoriOkudenTechnique, parts[1]);
    Ok(TwoQuery("Set", setNo, "Name", technique))
  }

  /** The one Nidan no Waza technique whose level comes from the Tsuki table
      (in set one). */
  lemma TsukiLetter(key: string)
    requires key in NidanNoWazaTechnique
    ensures NidanNoWazaTechnique[key] == "Tsuki" <==> key == "i"
  {
  }

  /** The Tsuki table is used exactly for the stems that start `j01i`. */
  lemma NidanTsukiCase(stem: string)
    requires Conforms(NidanNoWazaShape, stem) && [stem[3]] in NidanNoWazaTechnique
    ensures (NumberField(stem) == "1" && NidanNoWazaTechnique[[stem[3]]] == "Tsuki") <==> stem[1..4] == "01i"
  {
    assert InClass(stem[1], NidanNoWazaShape.classes[1]) && InClass(stem[2], NidanNoWazaShape.classes[2]);
    TsukiLetter([stem[3]]);
    assert stem[1..4] == [stem[1], stem[2], stem[3]];
    assert NumberField(stem) == "1" <==> stem[1] == '0' && stem[2] == '1';
  }

  /** The level table a Nidan no Waza stem reads its level letter from. */
  function NidanLevels(stem: string): map<string, string>
    requires |stem| >= 4
  {
    if stem[1..4] == "01i" then NidanNoWazaTsukiTechnique else KumitachiLevel
  }

  /** `handle_kumitachi_nidan_no_waza`: set number, technique letter, then a
      level letter read from the Tsuki table for the Tsuki technique of set
      one and from the common level table otherwise. */
  function NidanNoWazaQuery(stem: string): (r: Result<Query>)
    ensures !Conforms(NidanNoWazaShape, stem) ==> r == Err(InvalidStem("nidan_no_waza", stem))
    ensures Conforms(NidanNoWazaShape, stem) && [stem[3]] !in NidanNoWazaTechnique ==> r == Err(KeyError([stem[3]]))
    ensures r.Ok? ==> Conforms(NidanNoWazaShape, stem) && [stem[3]] in NidanNoWazaTechnique
    ensures Conforms(NidanNoWazaShape, stem) && [stem[3]] in NidanNoWazaTechnique ==>
      var levels := NidanLevels(stem);
      && (r.Ok? <==> [stem[4]] in levels)
      && (r.Err? ==> r.error == KeyError([stem[4]]))
      && (r.Ok? ==> r.value == ThreeQuery("Set", NumberField(stem), "Level", levels[[stem[4]]], "Name", NidanNoWazaTechnique[[stem[3]]]))
  {
    var parts :- RequireParts(Match(NidanNoWazaShape, stem), stem, "nidan_no_waza");
    assert parts[0] == stem[1..3] && parts[1] == [stem[3]] && parts[2] == [stem[4]];
    var setNo := Canonical(parts[0]);
    var technique :- Lookup(NidanNoWazaTechnique, parts[1]);
    var levels := if setNo == "1" && technique == "Tsuki" then NidanNoWazaTsukiTechnique else KumitachiLevel;
    NidanTsukiCase(stem);
    var level :- Lookup(levels, parts[2]);
    Ok(ThreeQuery("Set", setNo, "Level", level, "Name", technique))
  }

  /** `handle_kumitachi_scroll`. */
  function KumitachiQuery(scroll: string, stem: string): (r: Result<Query>)
    ensures scroll == "shodan_no_waza" ==> r == ShodanNoWazaQuery(stem)
    ensures scroll == "sandan_no_waza" ==> r == SandanNoWazaQuery(stem)
    ensures scroll == "randori_okuden" ==> r == RandoriOkudenQuery(stem)
    ensures scroll == "nidan_no_waza" ==> r == NidanNoWazaQuery(stem)
    ensures scroll !in KumitachiScrolls ==> r == Err(RuntimeError("Invalid Battodo Kumitachi scroll: " + scroll))
  {
    if scroll == "shodan_no_waza" then ShodanNoWazaQuery(stem)
    else if scroll == "sandan_no_waza" then SandanNoWazaQuery(stem)
    else if scroll == "randori_okuden" then RandoriOkudenQuery(stem)
    else if scroll == "nidan_no_waza" then NidanNoWazaQuery(stem)
    else Err(RuntimeError("Invalid Battodo Kumitachi scroll: " + scroll))
  }

  // ---------------------------------------------------------------------------
  // Kata, tameshigiri and formalities
  // ---------------------------------------------------------------------------

  /** `handle_kata`: the raw two-digit code names the kata. */
  function KataQuery(stem: string): (r: Result<Query>)
    ensures !Conforms(CodeShape('k'), stem) ==> r == Err(InvalidStem("kata", stem))
    ensures r.Ok? <==> Conforms(CodeShape('k'), stem) && stem[1..3] in KataName
    ensures Conforms(CodeShape('k'), stem) && stem[1..3] !in KataName ==> r == Err(KeyError(stem[1..3]))
    ensures r.Ok? ==> r.value == OneQuery("Name", KataName[stem[1..3]])
  {
    var parts :- RequireParts(Match(CodeShape('k'), stem), stem, "kata");
    var kata :- Lookup(KataName, parts[0]);
    Ok(OneQuery("Name", kata))
  }

  /** `handle_battoho`: technique code, then level code. */
  function BattohoQuery(stem: string): (r: Result<Query>)
    ensures !Conforms(PairShape('l'), stem) ==> r == Err(InvalidStem("battoho", stem))
    ensures r.Ok? <==> Conforms(PairShape('l'), stem) && stem[1..3] in KataTechnique && stem[3..5] in KataBattohoLevel
    ensures Conforms(PairShape('l'), stem) && stem[1..3] !in KataTechnique ==> r == Err(KeyError(stem[1..3]))
    ensures Conforms(PairShape('l'), stem) && stem[1..3] in KataTechnique && stem[3..5] !in KataBattohoLevel ==>
      r == Err(KeyError(stem[3..5]))
    ensures r.Ok? ==> r.value == TwoQuery("Level", KataBattohoLevel[stem[3..5]], "Name", KataTechnique[stem[1..3]])
  {
    var parts :- RequireParts(Match(PairShape('l'), stem), stem, "battoho");
    var technique :- Lookup(KataTechnique, parts[0]);
    var level :- Lookup(KataBattohoLevel, parts[1]);
    Ok(TwoQuery("Level", level, "Name", technique))
  }

  /** `handle_toyama_ryu`: technique code, then art code. */
  function ToyamaRyuQuery(stem: string): (r: Result<Query>)
    ensures !Conforms(PairShape('a'), stem) ==> r == Err(InvalidStem("toyama_ryu", stem))
    ensures r.Ok? <==> Conforms(PairShape('a'), stem) && stem[1..3] in KataTechnique && stem[3..5] in KataToyamaRyuLevel
    ensures Conforms(PairShape('a'), stem) && stem[1..3] !in KataTechnique ==> r == Err(KeyError(stem[1..3]))
    ensures Conforms(PairShape('a'), stem) && stem[1..3] in KataTechnique && stem[3..5] !in KataToyamaRyuLevel ==>
      r == Err(KeyError(stem[3..5]))
    ensures r.Ok? ==> r.value == TwoQuery("Art", KataToyamaRyuLevel[stem[3..5]], "Name", KataTechnique[stem[1..3]])
  {
    var parts :- RequireParts(Match(PairShape('a'), stem), stem, "toyama_ryu");
    var technique :- Lookup(KataTechnique, parts[0]);
    var art :- Lookup(KataToyamaRyuLevel, parts[1]);
    Ok(TwoQuery("Art", art, "Name", technique))
  }

  /** `handle_kata_scroll`. */
  function KataScrollQuery(scroll: string, stem: string): (r: Result<Query>)
    ensures scroll == "kata" ==> r == KataQuery(stem)
    ensures scroll == "battoho" ==> r == BattohoQuery(stem)
    ensures scroll == "toyama_ryu" ==> r == ToyamaRyuQuery(stem)
    ensures scroll !in KataScrolls ==> r == Err(RuntimeError("Invalid Battodo Kata scroll: " + scroll))
  {
    if scroll == "kata" then KataQuery(stem)
    else if scroll == "battoho" then BattohoQuery(stem)
    else if scroll == "toyama_ryu" then ToyamaRyuQuery(stem)
    else Err(RuntimeError("Invalid Battodo Kata scroll: " + scroll))
  }

  /** `lookup_tameshigiri_technique`: technique `n` of the rank counted from 1,
      with Python's indexing of `n - 1`, so 0 selects the last technique. */
  function TameshigiriTechniqueOf(rank: string, n: int): (r: Result<string>)
    ensures rank !in TameshigiriTechnique ==> r == Err(KeyError(rank))
    ensures rank in TameshigiriTechnique ==>
      var list := TameshigiriTechnique[rank];
      && (r.Ok? <==> 1 - |list| <= n <= |list|)
      && (1 <= n <= |list| ==> r == Ok(list[n - 1]))
      && (n == 0 && |list| > 0 ==> r == Ok(list[|list| - 1]))
      && (r.Err? ==> r.error == IndexError)
  {
    var list :- Lookup(TameshigiriTechnique, rank);
    PyIndex(list, n - 1)
  }

  /** `handle_tameshigiri`: rank code, then technique number within the rank. */
  function TameshigiriQuery(stem: string): (r: Result<Query>)
    ensures !Conforms(PairShape('b'), stem) ==> r == Err(InvalidStem("tameshigiri", stem))
    ensures Conforms(PairShape('b'), stem) && stem[1..3] !in TameshigiriRank ==> r == Err(KeyError(stem[1..3]))
    ensures r.Ok? ==> Conforms(PairShape('b'), stem) && stem[1..3] in TameshigiriRank
    ensures Conforms(PairShape('b'), stem) && stem[1..3] in TameshigiriRank ==>
      var rank := TameshigiriRank[stem[1..3]];
      var technique := TameshigiriTechniqueOf(rank, Value(stem[3..5]));
      && (r.Ok? <==> technique.Ok?)
      && (r.Err? ==> r.error == IndexError)
      && (r.Ok? ==> r.value == TwoQuery("Rank", rank, "Techniques", technique.value))
  {
    var parts :- RequireParts(Match(PairShape('b'), stem), stem, "tameshigiri");
    CapturedDigits(PairShape('b'), stem, 1);
    var rank :- Lookup(TameshigiriRank, parts[0]);
    RanksHaveTechniques();
    var technique :- TameshigiriTechniqueOf(rank, Value(parts[1]));
    Ok(TwoQuery("Rank", rank, "Techniques", technique))
  }

  /** `handle_formalities`: the item whose `Number` is the stem's two-digit
      number without its leading zero. */
  function FormalitiesQuery(stem: string): (r: Result<Query>)
    ensures r.Ok? <==> Conforms(CodeShape('m'), stem)
    ensures r.Err? ==> r.error == InvalidStem("formalities", stem)
    ensures r.Ok? ==> r.value == OneQuery("Number", StripLeadingZeros(stem[1..3]))
  {
    var p := CodeShape('m');
    var parts :- RequireParts(Match(p, stem), stem, "formalities");
    CapturedDigits(p, stem, 0);
    CanonicalStripsZeros(parts[0]);
    Ok(OneQuery("Number", Canonical(parts[0])))
  }

  // ---------------------------------------------------------------------------
  // Dispatch
  // ---------------------------------------------------------------------------

  const SuburiScrolls: set<string> := {"shodan_uchi_waza", "sandan_sabaki", "sayu_giri", "sandan_uchi_waza"}
  const KumitachiScrolls: set<string> := {"shodan_no_waza", "sandan_no_waza", "randori_okuden", "nidan_no_waza"}
  const KataScrolls: set<string> := {"kata", "battoho", "toyama_ryu"}

  /** Every scroll `pick_battodo_scroll_handler` accepts. */
  const Scrolls: set<string> := SuburiScrolls + KumitachiScrolls + KataScrolls + {"tameshigiri", "formalities"}

  /** The two scrolls outside the groups are in none of them. */
  lemma LoneScrolls()
    ensures "tameshigiri" !in SuburiScrolls && "tameshigiri" !in KumitachiScrolls && "tameshigiri" !in KataScrolls
    ensures "formalities" !in SuburiScrolls && "formalities" !in KumitachiScrolls && "formalities" !in KataScrolls
  {
    assert "tameshigiri"[0] == 't' && "formalities"[0] == 'f';
  }

  /** The three groups share no scroll. */
  lemma GroupsDisjoint()
    ensures SuburiScrolls !! KumitachiScrolls
    ensures SuburiScrolls !! KataScrolls
    ensures KumitachiScrolls !! KataScrolls
  {
    SuburiKumitachiDisjoint();
  }

  lemma SuburiKumitachiDisjoint()
    ensures SuburiScrolls !! KumitachiScrolls
  {
    forall x | x in SuburiScrolls
      ensures x !in KumitachiScrolls
    {
      assert x[7] == 'u' || x[7] == 's' || x[7] == 'r';
    }
  }

  /** The stem reading of `pick_battodo_scroll_handler`: the scroll's group
      handler, or an error for an unknown scroll. */
  function ScrollQuery(scroll: string, stem: string): (r: Result<Query>)
    ensures scroll in SuburiScrolls ==> r == SuburiQuery(scroll, stem)
    ensures scroll in KumitachiScrolls ==> r == KumitachiQuery(scroll, stem)
    ensures scroll in KataScrolls ==> r == KataScrollQuery(scroll, stem)
    ensures scroll == "tameshigiri" ==> r == TameshigiriQuery(stem)
    ensures scroll == "formalities" ==> r == FormalitiesQuery(stem)
    ensures scroll !in Scrolls ==> r == Err(RuntimeError("Invalid Battodo scroll: " + scroll))
  {
    LoneScrolls();
    GroupsDisjoint();
    if scroll in SuburiScrolls then SuburiQuery(scroll, stem)
    else if scroll in KumitachiScrolls then KumitachiQuery(scroll, stem)
    else if scroll in KataScrolls then KataScrollQuery(scroll, stem)
    else if scroll == "tameshigiri" then TameshigiriQuery(stem)
    else if scroll == "formalities" then FormalitiesQuery(stem)
    else Err(RuntimeError("Invalid Battodo scroll: " + scroll))
  }

  /** `pick_battodo_scroll_handler`: read the stem, then search the items. */
  function PickScrollHandler(scroll: string, stem: string, items: seq<Item>): (r: Result<nat>)
    ensures ScrollQuery(scroll, stem).Err? ==> r == Err(ScrollQuery(scroll, stem).error)
    ensures r.Ok? ==> ScrollQuery(scroll, stem).Ok? && Locates(items, ScrollQuery(scroll, stem).value.conds, r.value)
    ensures ScrollQuery(scroll, stem).Ok? && AllHaveLabels(items, ScrollQuery(scroll, stem).value.conds) ==>
      (r.Ok? <==> exists j | 0 <= j < |items| :: Satisfies(items[j], ScrollQuery(scroll, stem).value.conds))
  {
    var q :- ScrollQuery(scroll, stem);
    Find(q, items)
  }

  /** The scrolls the first letter of a stem can name are exactly the scrolls
      the dispatcher accepts. */
  lemma ScrollLettersAccepted()
    ensures ScrollDict.Values == Scrolls
  {
    ScrollDictLetters();
    assert ScrollDict["a"] == "toyama_ryu" && ScrollDict["c"] == "shodan_uchi_waza";
    assert ScrollDict.Values == {ScrollDict["a"], ScrollDict["b"], ScrollDict["c"], ScrollDict["d"], ScrollDict["e"],
                                 ScrollDict["f"], ScrollDict["g"], ScrollDict["h"], ScrollDict["i"], ScrollDict["j"],
                                 ScrollDict["k"], ScrollDict["l"], ScrollDict["m"]};
  }

  /** The pattern the scroll checks first. */
  function LeadShape(scroll: string): Shape {
    match scroll
    case "shodan_uchi_waza" => NumberedShape('c')
    case "sandan_uchi_waza" => NumberedShape('f')
    case "sayu_giri" => NumberedShape('e')
    case "sandan_sabaki" => SandanSabakiShape
    case "shodan_no_waza" => ShodanNoWazaShape
    case "sandan_no_waza" => SandanNoWazaShape
    case "randori_okuden" => RandoriOkudenShape
    case "nidan_no_waza" => NidanNoWazaShape
    case "kata" => CodeShape('k')
    case "formalities" => CodeShape('m')
    case "battoho" => PairShape('l')
    case "toyama_ryu" => PairShape('a')
    case _ => PairShape('b')
  }

  /** The letter table and the patterns agree: the scroll a letter names
      expects that letter at the head of the stem. */
  lemma LeadLettersAgree(letter: string)
    requires letter in ScrollDict
    ensures |letter| == 1
    ensures LeadShape(ScrollDict[letter]).classes[0] == Lit(letter[0])
  {
    ScrollDictLetters();
    if letter == "a" || letter == "b" {
      LeadLettersAgreeKata(letter);
    } else if letter in {"c", "d", "e", "f"} {
      LeadLettersAgreeLow(letter);
    } else {
      LeadLettersAgreeHigh(letter);
    }
  }

  lemma LeadLettersAgreeKata(letter: string)
    requires letter == "a" || letter == "b"
    ensures letter in ScrollDict && LeadShape(ScrollDict[letter]).classes[0] == Lit(letter[0])
  {
    if letter == "a" {
      assert ScrollDict[letter] == "toyama_ryu";
    } else {
      assert ScrollDict[letter] == "tameshigiri";
    }
  }

  lemma LeadLettersAgreeLow(letter: string)
    requires letter in {"c", "d", "e", "f"}
    ensures letter in ScrollDict && LeadShape(ScrollDict[letter]).classes[0] == Lit(letter[0])
  {
  }

  lemma LeadLettersAgreeHigh(letter: string)
    requires letter in {"g", "h", "i", "j", "k", "l", "m"}
    ensures letter in ScrollDict && LeadShape(ScrollDict[letter]).classes[0] == Lit(letter[0])
  {
  }

  /** A stem that does not fit its scroll's pattern is rejected with the
      scroll's name, whatever the items. */
  lemma BadStemRejected(scroll: string, stem: string)
    requires scroll in Scrolls && !Conforms(LeadShape(scroll), stem)
    ensures ScrollQuery(scroll, stem) == Err(InvalidStem(scroll, stem))
  {
    LoneScrolls();
    if scroll in SuburiScrolls {
      SuburiBadStem(scroll, stem);
    } else if scroll in KumitachiScrolls {
      KumitachiBadStem(scroll, stem);
    } else if scroll in KataScrolls {
      KataBadStem(scroll, stem);
    } else {
      LoneBadStem(scroll, stem);
    }
  }

  lemma LoneBadStem(scroll: string, stem: string)
    requires scroll == "tameshigiri" || scroll == "formalities"
    requires !Conforms(LeadShape(scroll), stem)
    ensures ScrollQuery(scroll, stem) == Err(InvalidStem(scroll, stem))
  {
    LoneScrolls();
    if scroll == "tameshigiri" {
      TameshigiriLead();
    } else {
      FormalitiesLead();
    }
  }

  lemma TameshigiriLead()
    ensures LeadShape("tameshigiri") == PairShape('b')
  {
  }

  lemma FormalitiesLead()
    ensures LeadShape("formalities") == CodeShape('m')
  {
  }

  lemma SuburiBadStem(scroll: string, stem: string)
    requires scroll in SuburiScrolls && !Conforms(LeadShape(scroll), stem)
    ensures SuburiQuery(scroll, stem) == Err(InvalidStem(scroll, stem))
  {
    if scroll == "shodan_uchi_waza" {
      assert LeadShape(scroll) == NumberedShape('c');
    } else if scroll == "sandan_sabaki" {
      assert LeadShape(scroll) == SandanSabakiShape;
    } else if scroll == "sayu_giri" {
      assert LeadShape(scroll) == NumberedShape('e');
    } else {
      assert LeadShape(scroll) == NumberedShape('f');
    }
  }

  lemma KumitachiBadStem(scroll: string, stem: string)
    requires scroll in KumitachiScrolls && !Conforms(LeadShape(scroll), stem)
    ensures KumitachiQuery(scroll, stem) == Err(InvalidStem(scroll, stem))
  {
    if scroll == "shodan_no_waza" {
      assert LeadShape(scroll) == ShodanNoWazaShape;
    } else if scroll == "sandan_no_waza" {
      assert LeadShape(scroll) == SandanNoWazaShape;
    } else if scroll == "randori_okuden" {
      assert LeadShape(scroll) == RandoriOkudenShape;
    } else {
      assert LeadShape(scroll) == NidanNoWazaShape;
    }
  }

  lemma KataBadStem(scroll: string, stem: string)
    requires scroll in KataScrolls && !Conforms(LeadShape(scroll), stem)
    ensures KataScrollQuery(scroll, stem) == Err(InvalidStem(scroll, stem))
  {
    if scroll == "kata" {
      assert LeadShape(scroll) == CodeShape('k');
    } else if scroll == "battoho" {
      assert LeadShape(scroll) == PairShape('l');
    } else {
      assert LeadShape(scroll) == PairShape('a');
    }
  }

  /** The errors a scroll's own handler raises: a missing key, an index out
      of range, the message of a stem that does not fit, or that of an
      unknown Sandan no Waza set. */
  predicate StemFailure(e: Failure) {
    e.KeyError? || e.IndexError?
    || (e.RuntimeError? && (StartsWith(e.message, InvalidStemPrefix) || StartsWith(e.message, UnknownSetNumber)))
  }

  lemma InvalidStemFailure(scroll: string, stem: string)
    ensures StemFailure(InvalidStem(scroll, stem))
  {
    StartsWithLonger(InvalidStemPrefix, scroll);
    StartsWithLonger(InvalidStemPrefix + scroll, ": ");
    StartsWithLonger(InvalidStemPrefix + scroll + ": ", stem);
    StartsWithTrans(InvalidStemPrefix + scroll + ": " + stem, InvalidStemPrefix + scroll + ": ", InvalidStemPrefix + scroll);
    StartsWithTrans(InvalidStemPrefix + scroll + ": " + stem, InvalidStemPrefix + scroll, InvalidStemPrefix);
  }

  /** The scroll dispatcher's own message is not a stem error. */
  lemma RejectionNotStemFailure(scroll: string)
    ensures !StemFailure(RuntimeError("Invalid Battodo scroll: " + scroll))
  {
    var m := "Invalid Battodo scroll: " + scroll;
    assert m[0] == 'I' && m[16] == 's';
    assert InvalidStemPrefix[16] == 'f';
    assert UnknownSetNumber[0] == 'K';
  }

  /** An accepted scroll fails only with a stem error. */
  lemma ScrollFailures(scroll: string, stem: string)
    requires scroll in Scrolls
    ensures ScrollQuery(scroll, stem).Err? ==> StemFailure(ScrollQuery(scroll, stem).error)
  {
    LoneScrolls();
    InvalidStemFailure(scroll, stem);
    if scroll in SuburiScrolls {
      SuburiFailures(scroll, stem);
    } else if scroll in KumitachiScrolls {
      KumitachiFailures(scroll, stem);
    } else if scroll in KataScrolls {
      KataFailures(scroll, stem);
    }
  }

  lemma SuburiFailures(scroll: string, stem: string)
    requires scroll in SuburiScrolls
    ensures SuburiQuery(scroll, stem).Err? ==> StemFailure(SuburiQuery(scroll, stem).error)
  {
    InvalidStemFailure(scroll, stem);
    InvalidStemFailure("sandan_sabaki", stem);
  }

  lemma KumitachiFailures(scroll: string, stem: string)
    requires scroll in KumitachiScrolls
    ensures KumitachiQuery(scroll, stem).Err? ==> StemFailure(KumitachiQuery(scroll, stem).error)
  {
    InvalidStemFailure(scroll, stem);
    if scroll == "sandan_no_waza" {
      SandanNoWazaFailures(stem);
    }
  }

  lemma SandanNoWazaFailures(stem: string)
    ensures SandanNoWazaQuery(stem).Err? ==> StemFailure(SandanNoWazaQuery(stem).error)
  {
    InvalidStemFailure("sandan_no_waza", stem);
    SetTwoFailures(stem);
    if Conforms(SandanNoWazaShape, stem) {
      UnknownSetFailure(stem[1..3]);
    }
  }

  lemma SetTwoFailures(stem: string)
    ensures SandanNoWazaSetTwoQuery(stem).Err? ==> StemFailure(SandanNoWazaSetTwoQuery(stem).error)
  {
    InvalidStemFailure("sandan_no_waza_set_two", stem);
  }

  lemma UnknownSetFailure(code: string)
    ensures StemFailure(RuntimeError(UnknownSetNumber + code))
  {
    StartsWithLonger(UnknownSetNumber, code);
  }

  lemma KataFailures(scroll: string, stem: string)
    requires scroll in KataScrolls
    ensures KataScrollQuery(scroll, stem).Err? ==> StemFailure(KataScrollQuery(scroll, stem).error)
  {
    InvalidStemFailure(scroll, stem);
  }

  /** `pick_battodo_scroll_handler` rejects a scroll name, with its own
      message, exactly when it is not one of the thirteen. */
  lemma ScrollRejected(scroll: string, stem: string)
    ensures ScrollQuery(scroll, stem) == Err(RuntimeError("Invalid Battodo scroll: " + scroll)) <==> scroll !in Scrolls
  {
    RejectionNotStemFailure(scroll);
    if scroll in Scrolls {
      ScrollFailures(scroll, stem);
    }
  }

  // ---------------------------------------------------------------------------
  // Database update
  // ---------------------------------------------------------------------------

  /** `update_ddb`: read the scroll's record, locate the item the stem names,
      and add the URL to that item's variations; the record returned is the
      one written back. */
  function UpdateDdb(scroll: string, stem: string, resp: QueryResponse, url: string): (r: Result<ScrollRecord>)
    ensures resp.status != HttpOk ==> r == Err(RuntimeError("Database query failed"))
    ensures resp.status == HttpOk && |resp.records| == 0 ==> r == Err(RuntimeError("Scroll not found"))
    ensures resp.status == HttpOk && |resp.records| > 0 && ScrollQuery(scroll, stem).Err? ==>
      r == Err(ScrollQuery(scroll, stem).error)
    ensures resp.status == HttpOk && |resp.records| > 0 ==>
      var pick := PickScrollHandler(scroll, stem, resp.records[0].items);
      && (pick.Err? ==> r == Err(pick.error))
      && (pick.Ok? ==> r == SetVariations(resp.records[0], pick.value, url))
    ensures r.Ok? ==>
      && resp.status == HttpOk && |resp.records| > 0 && ScrollQuery(scroll, stem).Ok?
      && exists off ::
        && Locates(resp.records[0].items, ScrollQuery(scroll, stem).value.conds, off)
        && OnlyVariationsChanged(resp.records[0], r.value, off)
        && HasVariation(r.value, off, url)
  {
    var rec :- QueriedRecord(resp, "Scroll not found");
    var off :- PickScrollHandler(scroll, stem, rec.items);
    var updated :- SetVariations(rec, off, url);
    assert Locates(rec.items, ScrollQuery(scroll, stem).value.conds, off);
    Ok(updated)
  }

  /** When every item carries the labels the stem's query compares, the
      update writes into the first item that matches: it succeeds exactly
      when `handle_variations` accepts that item's list. */
  lemma UpdateDdbWrites(scroll: string, stem: string, resp: QueryResponse, url: string, off: nat)
    requires resp.status == HttpOk && |resp.records| > 0 && ScrollQuery(scroll, stem).Ok?
    requires AllHaveLabels(resp.records[0].items, ScrollQuery(scroll, stem).value.conds)
    requires Locates(resp.records[0].items, ScrollQuery(scroll, stem).value.conds, off)
    ensures UpdateDdb(scroll, stem, resp, url) == SetVariations(resp.records[0], off, url)
  {
    var items := resp.records[0].items;
    var conds := ScrollQuery(scroll, stem).value.conds;
    var pick := PickScrollHandler(scroll, stem, items);
    assert Satisfies(items[off], conds);
    LocatesUnique(items, conds, pick.value, off);
  }

  /** `handle_battodo`: the stub of the URL names the scroll by its first
      letter; the record written back must be acknowledged with HTTP 200.
      The database is the `query` oracle and the status of the write. */
  function HandleBattodo(url: string, query: string -> QueryResponse, putStatus: int): (r: Result<ScrollRecord>)
    ensures GetStub(url) == "" ==> r == Err(RuntimeError("Invalid battodo URL: no file stub"))
    ensures GetStub(url) != "" && [GetStub(url)[0]] !in ScrollDict ==> r == Err(KeyError([GetStub(url)[0]]))
    ensures GetStub(url) != "" && [GetStub(url)[0]] in ScrollDict ==>
      var scroll := ScrollDict[[GetStub(url)[0]]];
      var written := UpdateDdb(scroll, GetStub(url), query(scroll), url);
      && (written.Err? ==> r == Err(written.error))
      && (written.Ok? && putStatus != HttpOk ==> r == Err(RuntimeError("Failed to update the database")))
      && (written.Ok? && putStatus == HttpOk ==> r == written)
  {
    var stub := GetStub(url);
    if stub == "" then Err(RuntimeError("Invalid battodo URL: no file stub"))
    else
      var scroll :- ScrollName([stub[0]]);
      var record :- UpdateDdb(scroll, stub, query(scroll), url);
      if putStatus != HttpOk then Err(RuntimeError("Failed to update the database"))
      else Ok(record)
  }
}
