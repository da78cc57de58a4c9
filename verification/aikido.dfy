/** The Aikido part of the file-name decipher. The lower-cased stub starts
    with `a` and a two-digit scroll number; the scroll's own pattern pulls the
    technique number out of the stub.

    The Aikido tables (the scroll numbers and the per-scroll patterns) are
    not part of this model: they are parameters. A pattern is represented by
    what `re.findall` returns for it, one string per match. */
module Aikido {
  import opened Results
  import opened Text
  import opened Numerals
  import opened Shapes
  import opened DecipherUtils

  /** `re.findall` with one scroll's pattern: the captured string of every
      match, in order. */
  type Finder = string -> seq<string>

  /** `int(s)` on the strings the patterns capture: a non-empty run of ASCII
      digits has its value; anything else raises ValueError. */
  function ParseInt(s: string): (r: Result<nat>)
    ensures r.Ok? <==> |s| > 0 && IsDigits(s)
    ensures r.Ok? ==> r.value == Value(s) && NatToString(r.value) == StripLeadingZeros(s)
    ensures r.Err? ==> r.error.ValueError?
  {
    if |s| > 0 && IsDigits(s) then
      CanonicalStripsZeros(s);
      Ok(Value(s))
    else Err(ValueError("invalid literal for int() with base 10: " + s))
  }

  /** The reading of `locate_technique_in_json` before its search: the
      scroll's pattern must match exactly once, and the match, without its
      leading zeros, is the `Number`. */
  function TechniqueQuery(regex: map<string, Finder>, scroll: string, stem: string): (r: Result<Query>)
    ensures scroll !in regex ==> r == Err(KeyError(scroll))
    ensures scroll in regex && |regex[scroll](stem)| == 0 ==>
      r == Err(RuntimeError("Could not find aikido pattern for " + scroll + " in " + stem))
    ensures scroll in regex && |regex[scroll](stem)| > 1 ==> r == Err(RuntimeError(scroll + " not yet implemented"))
    ensures r.Ok? <==>
      && scroll in regex && |regex[scroll](stem)| == 1
      && |regex[scroll](stem)[0]| > 0 && IsDigits(regex[scroll](stem)[0])
    ensures r.Ok? ==> r.value == OneQuery("Number", StripLeadingZeros(regex[scroll](stem)[0]))
  {
    var finder :- Lookup(regex, scroll);
    var parts := finder(stem);
    if |parts| == 0 then Err(RuntimeError("Could not find aikido pattern for " + scroll + " in " + stem))
    else if |parts| == 1 then
      var n :- ParseInt(parts[0]);
      Ok(OneQuery("Number", NatToString(n)))
    else Err(RuntimeError(scroll + " not yet implemented"))
  }

  /** `locate_technique_in_json`. */
  function LocateTechnique(regex: map<string, Finder>, scroll: string, stem: string, items: seq<Item>): (r: Result<nat>)
    ensures TechniqueQuery(regex, scroll, stem).Err? ==> r == Err(TechniqueQuery(regex, scroll, stem).error)
    ensures r.Ok? ==>
      TechniqueQuery(regex, scroll, stem).Ok? && Locates(items, TechniqueQuery(regex, scroll, stem).value.conds, r.value)
    ensures TechniqueQuery(regex, scroll, stem).Ok? && AllHaveLabels(items, TechniqueQuery(regex, scroll, stem).value.conds) ==>
      (r.Ok? <==> exists j | 0 <= j < |items| :: Satisfies(items[j], TechniqueQuery(regex, scroll, stem).value.conds))
  {
    var q :- TechniqueQuery(regex, scroll, stem);
    Find(q, items)
  }

  /** `^a([0-9]{2}).*$`: the art letter and the two-digit scroll number. */
  const StubShape := Shape([Lit('a'), Digit, Digit], [(1, 3)], AnyThenEnd)

  /** The scroll selection of `handle_aikido`: the stub must fit the pattern,
      and the integer value of its scroll number is looked up (a missing
      number raises KeyError, shown with the number in decimal). */
  function ScrollOf(scrolls: map<nat, string>, stub: string): (r: Result<string>)
    ensures !Conforms(StubShape, stub) ==> r == Err(RuntimeError("Invalid aikido stub pattern: " + stub))
    ensures Conforms(StubShape, stub) ==> IsDigits(stub[1..3])
    ensures Conforms(StubShape, stub) && Value(stub[1..3]) !in scrolls ==> r == Err(KeyError(NatToString(Value(stub[1..3]))))
    ensures r.Ok? <==> Conforms(StubShape, stub) && Value(stub[1..3]) in scrolls
    ensures r.Ok? ==> r.value == scrolls[Value(stub[1..3])]
  {
    match Match(StubShape, stub)
    case None => Err(RuntimeError("Invalid aikido stub pattern: " + stub))
    case Some(parts) =>
      CapturedDigits(StubShape, stub, 0);
      // two captured digits always parse
      var n := Value(parts[0]);
      if n in scrolls then Ok(scrolls[n]) else Err(KeyError(NatToString(n)))
  }

  /** A stub written as `a`, a zero-padded scroll number and anything on one
      line selects that scroll. */
  lemma {:induction false} ScrollOfRoundTrip(scrolls: map<nat, string>, n: nat, rest: string)
    requires n < 100 && n in scrolls && NoNewline(rest)
    ensures ScrollOf(scrolls, "a" + TwoDigits(n) + rest) == Ok(scrolls[n])
  {
    var stub := "a" + TwoDigits(n) + rest;
    assert stub[1..3] == TwoDigits(n) && stub[3..] == rest;
    assert Conforms(StubShape, stub);
    TwoDigitsRoundTrip(n);
  }

  /** `update_ddb`: read the scroll's record, locate the technique, and add
      the URL to its variations. */
  function UpdateDdb(regex: map<string, Finder>, scroll: string, stem: string, resp: QueryResponse, url: string): (r: Result<ScrollRecord>)
    ensures resp.status != HttpOk ==> r == Err(RuntimeError("Database query failed"))
    ensures resp.status == HttpOk && |resp.records| == 0 ==> r == Err(RuntimeError("Scroll not found in database"))
    ensures resp.status == HttpOk && |resp.records| > 0 && TechniqueQuery(regex, scroll, stem).Err? ==>
      r == Err(TechniqueQuery(regex, scroll, stem).error)
    ensures resp.status == HttpOk && |resp.records| > 0 ==>
      var found := LocateTechnique(regex, scroll, stem, resp.records[0].items);
      && (found.Err? ==> r == Err(found.error))
      && (found.Ok? ==> r == SetVariations(resp.records[0], found.value, url))
    ensures r.Ok? ==>
      && resp.status == HttpOk && |resp.records| > 0 && TechniqueQuery(regex, scroll, stem).Ok?
      && exists off ::
        && Locates(resp.records[0].items, TechniqueQuery(regex, scroll, stem).value.conds, off)
        && OnlyVariationsChanged(resp.records[0], r.value, off)
        && HasVariation(r.value, off, url)
  {
    var rec :- QueriedRecord(resp, "Scroll not found in database");
    var off :- LocateTechnique(regex, scroll, stem, rec.items);
    var updated :- SetVariations(rec, off, url);
    assert Locates(rec.items, TechniqueQuery(regex, scroll, stem).value.conds, off);
    Ok(updated)
  }

  /** When every item carries the labels the technique query compares, the
      update writes into the first item that matches: it succeeds exactly
      when `handle_variations` accepts that item's list. */
  lemma UpdateDdbWrites(regex: map<string, Finder>, scroll: string, stem: string, resp: QueryResponse, url: string, off: nat)
    requires resp.status == HttpOk && |resp.records| > 0 && TechniqueQuery(regex, scroll, stem).Ok?
    requires AllHaveLabels(resp.records[0].items, TechniqueQuery(regex, scroll, stem).value.conds)
    requires Locates(resp.records[0].items, TechniqueQuery(regex, scroll, stem).value.conds, off)
    ensures UpdateDdb(regex, scroll, stem, resp, url) == SetVariations(resp.records[0], off, url)
  {
    var items := resp.records[0].items;
    var conds := TechniqueQuery(regex, scroll, stem).value.conds;
    var found := LocateTechnique(regex, scroll, stem, items);
    assert Satisfies(items[off], conds);
    LocatesUnique(items, conds, found.value, off);
  }

  /** `handle_aikido`: the stub is the lower-cased file name without its
      extension (`get_stub`); the whole stub is passed on as the stem. */
  function HandleAikido(url: string, scrolls: map<nat, string>, regex: map<string, Finder>,
                        query: string -> QueryResponse, putStatus: int): (r: Result<ScrollRecord>)
    ensures ScrollOf(scrolls, GetStub(url)).Err? ==> r == Err(ScrollOf(scrolls, GetStub(url)).error)
    ensures ScrollOf(scrolls, GetStub(url)).Ok? ==>
      var scroll := ScrollOf(scrolls, GetStub(url)).value;
      var written := UpdateDdb(regex, scroll, GetStub(url), query(scroll), url);
      && (written.Err? ==> r == Err(written.error))
      && (written.Ok? && putStatus != HttpOk ==> r == Err(RuntimeError("Failed to update the database")))
      && (written.Ok? && putStatus == HttpOk ==> r == written)
  {
    var stub := GetStub(url);
    var scroll :- ScrollOf(scrolls, stub);
    var record :- UpdateDdb(regex, scroll, stub, query(scroll), url);
    if putStatus != HttpOk then Err(RuntimeError("Failed to update the database"))
    else Ok(record)
  }
}
