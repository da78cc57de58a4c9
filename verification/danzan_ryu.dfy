/** The Danzan Ryu (jujitsu) part of the file-name decipher. The stem's art
    letter is removed, the next letter names the scroll, and each scroll reads
    its fields by position from what is left.

    Unlike Battodo, most handlers index the stem directly, so a short stem
    raises IndexError and an unknown code letter KeyError; no scroll name is
    rejected, because every name without its own handler falls to the
    simple-table handler. As in `Battodo`, each handler is a `*Query`
    followed by `Find`. */
module DanzanRyu {
  import opened Results
  import opened Text
  import opened Numerals
  import opened Shapes
  import opened DecipherUtils
  import opened DanzanRyuTables

  /** `get_danzan_ryu_scroll_name`: every letter `a` to `z` names a scroll;
      any other key raises KeyError. */
  function ScrollName(letter: string): (r: Result<string>)
    ensures r.Ok? ==> letter in ScrollDict && r.value == ScrollDict[letter]
    ensures r.Err? ==> letter !in ScrollDict && r.error == KeyError(letter)
  {
    Lookup(ScrollDict, letter)
  }

  /** The keys that name a scroll are exactly the single letters `a` to `z`. */
  lemma ScrollNameLetters(letter: string)
    ensures ScrollName(letter).Ok? <==> |letter| == 1 && 'a' <= letter[0] <= 'z'
    ensures ScrollName("a") == Ok("advanced_weapons") && ScrollName("p") == Ok("drills")
  {
    ScrollLetter(letter);
    ScrollSamples();
  }

  /** `s[i]` for a non-negative index, as a one-character string; IndexError
      past the end. */
  function At(s: string, i: nat): (r: Result<string>)
    ensures r.Ok? <==> i < |s|
    ensures r.Ok? ==> r.value == [s[i]]
    ensures r.Err? ==> r.error == IndexError
  {
    var c :- PyIndex(s, i);
    Ok([c])
  }

  /** `handle_basic_weapons`: after dropping the scroll letter, the next two
      characters are the set and the technique number. */
  function BasicWeaponsQuery(stem: string): (r: Result<Query>)
    ensures r.Ok? <==> |stem| >= 3
    ensures r.Err? ==> r.error == IndexError
    ensures r.Ok? ==> r.value == TwoQuery("Set", [stem[1]], "Number", [stem[2]])
  {
    var itemStem := RemoveChar(stem, 0);
    var setNo :- At(itemStem, 0);
    var number :- At(itemStem, 1);
    Ok(TwoQuery("Set", setNo, "Number", number))
  }

  /** `handle_advanced_weapons`, `handle_kdm` and `handle_goshin`: the letter
      at index 1 is looked up in the scroll's table and stored under `field`;
      the character at index 2 is the `Number`. Index 1 is read, then looked
      up, then index 2 is read. */
  function CodedQuery(table: map<string, string>, field: string, stem: string): (r: Result<Query>)
    ensures |stem| < 2 ==> r == Err(IndexError)
    ensures |stem| >= 2 && [stem[1]] !in table ==> r == Err(KeyError([stem[1]]))
    ensures |stem| == 2 && [stem[1]] in table ==> r == Err(IndexError)
    ensures r.Ok? <==> |stem| >= 3 && [stem[1]] in table
    ensures r.Ok? ==> r.value == TwoQuery(field, table[[stem[1]]], "Number", [stem[2]])
  {
    var code :- At(stem, 1);
    var name :- Lookup(table, code);
    var number :- At(stem, 2);
    Ok(TwoQuery(field, name, "Number", number))
  }

  /** `handle_shime`: ground-flow number and technique number by position. */
  function ShimeQuery(stem: string): (r: Result<Query>)
    ensures r.Ok? <==> |stem| >= 3
    ensures r.Err? ==> r.error == IndexError
    ensures r.Ok? ==> r.value == TwoQuery("GroundFlowNumber", [stem[1]], "Number", [stem[2]])
  {
    var flow :- At(stem, 1);
    var number :- At(stem, 2);
    Ok(TwoQuery("GroundFlowNumber", flow, "Number", number))
  }

  /** `handle_daito_no_maki`: the group is the character at index 1 and the
      number the first run of digits anywhere in the stem (which may include
      that same character). */
  function DaitoNoMakiQuery(stem: string): (r: Result<Query>)
    ensures r.Ok? <==> |stem| >= 2 && exists i | 0 <= i < |stem| :: IsDigit(stem[i])
    ensures r.Err? ==> r.error == IndexError
    ensures r.Ok? ==> FirstDigitRun(stem).Ok? && r.value == TwoQuery("Group", [stem[1]], "Number", FirstDigitRun(stem).value)
  {
    var group :- At(stem, 1);
    var number :- FirstDigitRun(stem);
    Ok(TwoQuery("Group", group, "Number", number))
  }

  /** `handle_shime_groundflow`: the character at index 1 is the `Number`. */
  function ShimeGroundflowQuery(stem: string): (r: Result<Query>)
    ensures r.Ok? <==> |stem| >= 2
    ensures r.Err? ==> r.error == IndexError
    ensures r.Ok? ==> r.value == OneQuery("Number", [stem[1]])
  {
    var number :- At(stem, 1);
    Ok(OneQuery("Number", number))
  }

  /** `handle_katsu_kappo`: of the first run of digits, the first two
      characters (fewer if the run is shorter) are the `Section` and the last
      one is the `Number`. */
  function KatsuKappoQuery(stem: string): (r: Result<Query>)
    ensures r.Ok? <==> exists i | 0 <= i < |stem| :: IsDigit(stem[i])
    ensures r.Err? ==> r.error == IndexError
    ensures r.Ok? ==>
      var run := FirstDigitRun(stem).value;
      && |run| > 0
      && r.value == TwoQuery("Section", if |run| < 2 then run else run[..2], "Number", [run[|run| - 1]])
  {
    var run :- FirstDigitRun(stem);
    FirstDigitRunSpec(stem);
    var section := PyPrefix(run, 2);
    Ok(TwoQuery("Section", section, "Number", [run[|run| - 1]]))
  }

  /** `^p([0-9]{2})([0-9]{2})([0-9]{2})([a-y]{1})$`: group code, set number,
      technique number, variation letter. */
  const DrillsShape := Shape([Lit('p'), Digit, Digit, Digit, Digit, Digit, Digit, LetterToY],
                             [(1, 3), (3, 5), (5, 7), (7, 8)], End)

  /** `handle_drills`: the group code names the group; set and technique
      numbers lose their leading zero. A stem that does not fit makes
      `names[0]` raise IndexError. */
  function DrillsQuery(stem: string): (r: Result<Query>)
    ensures !Conforms(DrillsShape, stem) ==> r == Err(IndexError)
    ensures Conforms(DrillsShape, stem) && stem[1..3] !in DrillGroups ==> r == Err(KeyError(stem[1..3]))
    ensures r.Ok? <==> Conforms(DrillsShape, stem) && stem[1..3] in DrillGroups
    ensures r.Ok? ==>
      r.value == ThreeQuery("Group", DrillGroups[stem[1..3]], "Set", StripLeadingZeros(stem[3..5]),
                            "Number", StripLeadingZeros(stem[5..7]))
  {
    var names := Match(DrillsShape, stem);
    if names.None? then Err(IndexError)
    else
      var parts := names.value;
      assert GroupIs(DrillsShape, 1, Digit) && GroupIs(DrillsShape, 2, Digit);
      CapturedDigits(DrillsShape, stem, 1);
      CapturedDigits(DrillsShape, stem, 2);
      var group :- Lookup(DrillGroups, parts[0]);
      CanonicalStripsZeros(parts[1]);
      CanonicalStripsZeros(parts[2]);
      Ok(ThreeQuery("Group", group, "Set", Canonical(parts[1]), "Number", Canonical(parts[2])))
  }

  /** `handle_simple_table_model`: after dropping the scroll letter, the first
      run of digits is the `Number`, leading zeros kept. */
  function SimpleTableQuery(stem: string): (r: Result<Query>)
    ensures r.Ok? <==> exists i | 1 <= i < |stem| :: IsDigit(stem[i])
    ensures r.Err? ==> r.error == IndexError
    ensures r.Ok? ==> FirstDigitRun(stem[1..]).Ok? && r.value == OneQuery("Number", FirstDigitRun(stem[1..]).value)
  {
    var itemStem := RemoveChar(stem, 0);
    assert |stem| > 0 ==> itemStem == stem[1..];
    assert forall i | 1 <= i < |stem| :: stem[i] == itemStem[i - 1];
    var number :- FirstDigitRun(itemStem);
    Ok(OneQuery("Number", number))
  }

  /** The scrolls with a handler of their own. */
  const HandledScrolls: set<string> := {"basic_stick", "basic_knife", "basic_handgun", "advanced_weapons", "kdm",
                                        "shime", "goshin", "daito_no_maki", "shime_groundflow", "katsu_kappo", "drills"}

  /** The stem reading of `pick_danzan_ryu_scroll_handler`. No scroll name
      is rejected: reading a stem fails only by an index past the end of the
      stem or a code missing from a table. */
  function ScrollQuery(scroll: string, stem: string): (r: Result<Query>)
    ensures r.Err? ==> r.error == IndexError || r.error.KeyError?
    ensures scroll in {"basic_stick", "basic_knife", "basic_handgun"} ==> r == BasicWeaponsQuery(stem)
    ensures scroll == "advanced_weapons" ==> r == CodedQuery(WeaponDict, "Weapon", stem)
    ensures scroll == "kdm" ==> r == CodedQuery(KdmDict, "DrillType", stem)
    ensures scroll == "shime" ==> r == ShimeQuery(stem)
    ensures scroll == "goshin" ==> r == CodedQuery(GoshinDict, "Enter", stem)
    ensures scroll == "daito_no_maki" ==> r == DaitoNoMakiQuery(stem)
    ensures scroll == "shime_groundflow" ==> r == ShimeGroundflowQuery(stem)
    ensures scroll == "katsu_kappo" ==> r == KatsuKappoQuery(stem)
    ensures scroll == "drills" ==> r == DrillsQuery(stem)
    ensures scroll !in HandledScrolls ==> r == SimpleTableQuery(stem)
  {
    if scroll in {"basic_stick", "basic_knife", "basic_handgun"} then BasicWeaponsQuery(stem)
    else if scroll == "advanced_weapons" then CodedQuery(WeaponDict, "Weapon", stem)
    else if scroll == "kdm" then CodedQuery(KdmDict, "DrillType", stem)
    else if scroll == "shime" then ShimeQuery(stem)
    else if scroll == "goshin" then CodedQuery(GoshinDict, "Enter", stem)
    else if scroll == "daito_no_maki" then DaitoNoMakiQuery(stem)
    else if scroll == "shime_groundflow" then ShimeGroundflowQuery(stem)
    else if scroll == "katsu_kappo" then KatsuKappoQuery(stem)
    else if scroll == "drills" then DrillsQuery(stem)
    else SimpleTableQuery(stem)
  }

  /** `pick_danzan_ryu_scroll_handler`: read the stem, then search the items. */
  function PickScrollHandler(scroll: string, stem: string, items: seq<Item>): (r: Result<nat>)
    ensures ScrollQuery(scroll, stem).Err? ==> r == Err(ScrollQuery(scroll, stem).error)
    ensures r.Ok? ==> ScrollQuery(scroll, stem).Ok? && Locates(items, ScrollQuery(scroll, stem).value.conds, r.value)
    ensures ScrollQuery(scroll, stem).Ok? && AllHaveLabels(items, ScrollQuery(scroll, stem).value.conds) ==>
      (r.Ok? <==> exists j | 0 <= j < |items| :: Satisfies(items[j], ScrollQuery(scroll, stem).value.conds))
  {
    var q :- ScrollQuery(scroll, stem);
    Find(q, items)
  }

  /** `update_ddb`: read the scroll's record, locate the item the stem names,
      and add the URL to that item's variations. */
  function UpdateDdb(scroll: string, stem: string, resp: QueryResponse, url: string): (r: Result<ScrollRecord>)
    ensures resp.status != HttpOk ==> r == Err(RuntimeError("Database query failed"))
    ensures resp.status == HttpOk && |resp.records| == 0 ==> r == Err(RuntimeError("Scroll not found"))
    ensures resp.status == HttpOk && |resp.records| > 0 && ScrollQuery(scroll, stem).Err? ==>
      r == Err(ScrollQuery(scroll, stem).error)
    ensures resp.status == HttpOk && |resp.records| > 0 ==>
      var pick := PickScrollHandler(scroll, stem, resp.records[0].items);
      && (pick.Err? ==> r == Err(pick.error))
      && (pick.Ok? ==> r == SetVariations(resp.records[0], pick.value, url))
    ensures r.Ok? ==>
      && resp.status == HttpOk && |resp.records| > 0 && ScrollQuery(scroll, stem).Ok?
      && exists off ::
        && Locates(resp.records[0].items, ScrollQuery(scroll, stem).value.conds, off)
        && OnlyVariationsChanged(resp.records[0], r.value, off)
        && HasVariation(r.value, off, url)
  {
    var rec :- QueriedRecord(resp, "Scroll not found");
    var off :- PickScrollHandler(scroll, stem, rec.items);
    var updated :- SetVariations(rec, off, url);
    assert Locates(rec.items, ScrollQuery(scroll, stem).value.conds, off);
    Ok(updated)
  }

  /** When every item carries the labels the stem's query compares, the
      update writes into the first item that matches: it succeeds exactly
      when `handle_variations` accepts that item's list. */
  lemma UpdateDdbWrites(scroll: string, stem: string, resp: QueryResponse, url: string, off: nat)
    requires resp.status == HttpOk && |resp.records| > 0 && ScrollQuery(scroll, stem).Ok?
    requires AllHaveLabels(resp.records[0].items, ScrollQuery(scroll, stem).value.conds)
    requires Locates(resp.records[0].items, ScrollQuery(scroll, stem).value.conds, off)
    ensures UpdateDdb(scroll, stem, resp, url) == SetVariations(resp.records[0], off, url)
  {
    var items := resp.records[0].items;
    var conds := ScrollQuery(scroll, stem).value.conds;
    var pick := PickScrollHandler(scroll, stem, items);
    assert Satisfies(items[off], conds);
    LocatesUnique(items, conds, pick.value, off);
  }

  /** `handle_danzan_ryu`: the file stub keeps its case; its first character
      (the art letter) is removed and the next one names the scroll. */
  function HandleDanzanRyu(url: string, query: string -> QueryResponse, putStatus: int): (r: Result<ScrollRecord>)
    ensures |GetFileStub(url)| < 2 ==> r == Err(IndexError)
    ensures |GetFileStub(url)| >= 2 && [GetFileStub(url)[1]] !in ScrollDict ==> r == Err(KeyError([GetFileStub(url)[1]]))
    ensures |GetFileStub(url)| >= 2 && [GetFileStub(url)[1]] in ScrollDict ==>
      var stem := GetFileStub(url)[1..];
      var scroll := ScrollDict[[stem[0]]];
      var written := UpdateDdb(scroll, stem, query(scroll), url);
      && (written.Err? ==> r == Err(written.error))
      && (written.Ok? && putStatus != HttpOk ==> r == Err(RuntimeError("Failed to update the database")))
      && (written.Ok? && putStatus == HttpOk ==> r == written)
  {
    var stub := GetFileStub(url);
    var stem := RemoveChar(stub, 0);
    assert |stub| > 0 ==> stem == stub[1..];
    var code :- At(stem, 0);
    var scroll :- ScrollName(code);
    var record :- UpdateDdb(scroll, stem, query(scroll), url);
    if putStatus != HttpOk then Err(RuntimeError("Failed to update the database"))
    else Ok(record)
  }
}
