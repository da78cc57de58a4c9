/** The shared helpers of the file-name decipher lambda (`utils.py`): locating
    one curriculum item by label/value pairs, the two notions of a URL's stem,
    the variations merge, the technique-list rewrite, and the pure part of the
    DynamoDB read-modify-write that the three art modules share. */
module DecipherUtils {
  import opened Results
  import opened Text
  import opened StrOrder
  import opened Sorting
  import opened Dedupe

  const VariationsKey := "Variations"
  /** A stem ending in this letter empties a technique's variations. */
  const RemoveAllVariations := "z"
  const HttpOk := 200

  /** A value stored in a curriculum item: a string field (`Number`, `Name`,
      ...) or the list of video URLs under `Variations`. */
  datatype Field = Str(text: string) | UrlList(urls: seq<string>)

  /** One curriculum item as DynamoDB returns it. */
  type Item = map<string, Field>

  /** A label and the string value it must hold. */
  type Condition = (string, string)

  // ---------------------------------------------------------------------------
  // Locating an item
  // ---------------------------------------------------------------------------

  /** Every label/value pair holds in `item`. */
  predicate Satisfies(item: Item, conds: seq<Condition>) {
    forall k | 0 <= k < |conds| :: conds[k].0 in item && item[conds[k].0] == Str(conds[k].1)
  }

  /** `item` has every label, so comparing it cannot raise KeyError. */
  predicate HasLabels(item: Item, conds: seq<Condition>) {
    forall k | 0 <= k < |conds| :: conds[k].0 in item
  }

  predicate AllHaveLabels(items: seq<Item>, conds: seq<Condition>) {
    forall j | 0 <= j < |items| :: HasLabels(items[j], conds)
  }

  /** `i` is the least index of an item satisfying `conds`. */
  predicate Locates(items: seq<Item>, conds: seq<Condition>, i: int) {
    && 0 <= i < |items|
    && Satisfies(items[i], conds)
    && forall j | 0 <= j < i :: !Satisfies(items[j], conds)
  }

  /** At most one index is the least matching one. */
  lemma {:induction false} LocatesUnique(items: seq<Item>, conds: seq<Condition>, i: int, j: int)
    requires Locates(items, conds, i) && Locates(items, conds, j)
    ensures i == j
  {
  }

  /** `item[l1] == v1 and item[l2] == v2 and ...`, evaluated left to right:
      a false comparison stops before the next label is looked up, and a
      missing label raises KeyError. */
  function ItemMatches(item: Item, conds: seq<Condition>): (r: Result<bool>)
    ensures r == Ok(true) <==> Satisfies(item, conds)
    ensures HasLabels(item, conds) ==> r.Ok?
    ensures r.Err? ==> exists k | 0 <= k < |conds| :: conds[k].0 !in item && r.error == KeyError(conds[k].0)
  {
    if |conds| == 0 then Ok(true)
    else
      var f :- Lookup(item, conds[0].0);
      if f != Str(conds[0].1) then Ok(false)
      else
        var rest := ItemMatches(item, conds[1..]);
        assert forall k | 0 <= k < |conds| - 1 :: conds[1..][k] == conds[k + 1];
        rest
  }

  /** The loop of the `find_*_item_offset` functions, from `start` on. */
  function FindFrom(conds: seq<Condition>, items: seq<Item>, start: nat, notFound: string): (r: Result<nat>)
    requires start <= |items|
    ensures r.Ok? ==> start <= r.value < |items| && Satisfies(items[r.value], conds)
    ensures r.Ok? ==> forall j | start <= j < r.value :: !Satisfies(items[j], conds)
    ensures r.Err? ==> r.error == RuntimeError(notFound) || exists k | 0 <= k < |conds| :: r.error == KeyError(conds[k].0)
    ensures (forall j | start <= j < |items| :: HasLabels(items[j], conds)) ==>
      && (r.Ok? <==> exists j | start <= j < |items| :: Satisfies(items[j], conds))
      && (r.Err? ==> r.error == RuntimeError(notFound))
    decreases |items| - start
  {
    if start == |items| then Err(RuntimeError(notFound))
    else
      var m :- ItemMatches(items[start], conds);
      if m then Ok(start) else FindFrom(conds, items, start + 1, notFound)
  }

  /** The least index whose item holds every pair; RuntimeError(`notFound`)
      when none does. */
  function FindOffset(conds: seq<Condition>, items: seq<Item>, notFound: string): (r: Result<nat>)
    ensures r.Ok? ==> Locates(items, conds, r.value)
    ensures r.Err? ==> r.error == RuntimeError(notFound) || exists k | 0 <= k < |conds| :: r.error == KeyError(conds[k].0)
    ensures AllHaveLabels(items, conds) ==>
      && (r.Ok? <==> exists j | 0 <= j < |items| :: Satisfies(items[j], conds))
      && (r.Err? ==> r.error == RuntimeError(notFound))
  {
    FindFrom(conds, items, 0, notFound)
  }

  /** `find_one_datapoint_item_offset`. */
  function FindOne(label1: string, value1: string, items: seq<Item>): (r: Result<nat>)
    ensures r.Ok? ==> r.value < |items| && label1 in items[r.value] && items[r.value][label1] == Str(value1)
    ensures r.Ok? ==> forall j | 0 <= j < r.value :: !(label1 in items[j] && items[j][label1] == Str(value1))
    ensures (forall j | 0 <= j < |items| :: label1 in items[j]) ==>
      && (r.Ok? <==> exists j | 0 <= j < |items| :: items[j][label1] == Str(value1))
      && (r.Err? ==> r.error == RuntimeError("Could not find valid offset values for label/value: " + label1 + "/" + value1))
    ensures r.Err? && r.error.KeyError? ==> r.error.key == label1
  {
    var conds := [(label1, value1)];
    var r := FindOffset(conds, items, "Could not find valid offset values for label/value: " + label1 + "/" + value1);
    assert forall j | 0 <= j < |items| :: Satisfies(items[j], conds) <==> (label1 in items[j] && items[j][label1] == Str(value1));
    assert (forall j | 0 <= j < |items| :: label1 in items[j]) ==> AllHaveLabels(items, conds);
    r
  }

  /** `find_two_datapoints_item_offset`. */
  function FindTwo(label1: string, value1: string, label2: string, value2: string, items: seq<Item>): (r: Result<nat>)
    ensures r.Ok? ==> Locates(items, [(label1, value1), (label2, value2)], r.value)
    ensures AllHaveLabels(items, [(label1, value1), (label2, value2)]) ==>
      && (r.Ok? <==> exists j | 0 <= j < |items| :: Satisfies(items[j], [(label1, value1), (label2, value2)]))
      && (r.Err? ==> r.error == RuntimeError("Could not find valid offset values for 2 labels/values"))
  {
    FindOffset([(label1, value1), (label2, value2)], items, "Could not find valid offset values for 2 labels/values")
  }

  /** `find_three_datapoints_item_offset`. */
  function FindThree(label1: string, value1: string, label2: string, value2: string,
                     label3: string, value3: string, items: seq<Item>): (r: Result<nat>)
    ensures r.Ok? ==> Locates(items, [(label1, value1), (label2, value2), (label3, value3)], r.value)
    ensures AllHaveLabels(items, [(label1, value1), (label2, value2), (label3, value3)]) ==>
      && (r.Ok? <==> exists j | 0 <= j < |items| :: Satisfies(items[j], [(label1, value1), (label2, value2), (label3, value3)]))
      && (r.Err? ==> r.error == RuntimeError("Could not find valid offset values for 3 labels/values"))
  {
    FindOffset([(label1, value1), (label2, value2), (label3, value3)], items,
               "Could not find valid offset values for 3 labels/values")
  }

  /** What a scroll handler searches for once it has read the stem: the
      label/value pairs and the message raised when no item holds them all. */
  datatype Query = Query(conds: seq<Condition>, notFound: string)

  function OneQuery(label1: string, value1: string): Query {
    Query([(label1, value1)], "Could not find valid offset values for label/value: " + label1 + "/" + value1)
  }

  function TwoQuery(label1: string, value1: string, label2: string, value2: string): Query {
    Query([(label1, value1), (label2, value2)], "Could not find valid offset values for 2 labels/values")
  }

  function ThreeQuery(label1: string, value1: string, label2: string, value2: string,
                      label3: string, value3: string): Query {
    Query([(label1, value1), (label2, value2), (label3, value3)],
          "Could not find valid offset values for 3 labels/values")
  }

  /** Running a query: the least matching offset. */
  function Find(q: Query, items: seq<Item>): (r: Result<nat>)
    ensures r.Ok? ==> Locates(items, q.conds, r.value)
    ensures AllHaveLabels(items, q.conds) ==>
      && (r.Ok? <==> exists j | 0 <= j < |items| :: Satisfies(items[j], q.conds))
      && (r.Err? ==> r.error == RuntimeError(q.notFound))
  {
    FindOffset(q.conds, items, q.notFound)
  }

  /** The three `find_*` functions are the three query shapes. */
  lemma FindIsQuery(items: seq<Item>, l1: string, v1: string, l2: string, v2: string, l3: string, v3: string)
    ensures FindOne(l1, v1, items) == Find(OneQuery(l1, v1), items)
    ensures FindTwo(l1, v1, l2, v2, items) == Find(TwoQuery(l1, v1, l2, v2), items)
    ensures FindThree(l1, v1, l2, v2, l3, v3, items) == Find(ThreeQuery(l1, v1, l2, v2, l3, v3), items)
  {
  }

  // ---------------------------------------------------------------------------
  // Stems
  // ---------------------------------------------------------------------------

  /** `get_file_stub`: the last `/` segment of the URL, cut at its first `.`,
      case kept. */
  function GetFileStub(url: string): (r: string)
    ensures '/' !in r && '.' !in r
  {
    FirstPiece(LastPiece(url, '/'), '.')
  }

  /** The file stub sits right after the last `/` (or at the start) and ends
      at the end of the URL or at a `.`. */
  lemma {:induction false} GetFileStubPlace(url: string)
    ensures var r := GetFileStub(url);
      exists i :: && OccursAt(url, r, i)
                  && (i == 0 || url[i - 1] == '/')
                  && '/' !in url[i..]
                  && (i + |r| == |url| || url[i + |r|] == '.')
  {
    var seg := LastPiece(url, '/');
    var r := FirstPiece(seg, '.');
    var i := |url| - |seg|;
    assert url[i..] == seg;
    assert url[i..i + |r|] == seg[..|r|];
    assert OccursAt(url, r, i);
  }

  /** `get_file_stub` is literally `url.split("/")[-1].split(".")[0]`. */
  lemma {:induction false} GetFileStubIsSplit(url: string)
    ensures var segs := Split(url, '/');
      GetFileStub(url) == Split(segs[|segs| - 1], '.')[0]
  {
    SplitEnds(url, '/');
    SplitEnds(LastPiece(url, '/'), '.');
  }

  /** The stub letter of a URL, where one exists: the last character of its
      file stub. */
  function LetterOf(url: string): Option<char> {
    var stub := GetFileStub(url);
    if |stub| == 0 then None else Some(stub[|stub| - 1])
  }

  /** `get_hls_url_stub_letter`: `[-1]` of the file stub, IndexError when the
      stub is empty. */
  function StubLetter(url: string): (r: Result<char>)
    ensures r.Ok? <==> GetFileStub(url) != ""
    ensures r.Ok? ==> EndsWith(GetFileStub(url), [r.value]) && LetterOf(url) == Some(r.value)
    ensures r.Err? ==> r.error == IndexError && LetterOf(url).None?
  {
    var stub := GetFileStub(url);
    assert |stub| > 0 ==> stub[|stub| - 1..] == [stub[|stub| - 1]];
    PyIndex(stub, -1)
  }

  /** `s[:n] + s[n + 1:]` with Python's slice clamping. */
  function RemoveChar(s: string, n: int): (r: string)
    ensures 0 <= n < |s| ==> |r| == |s| - 1
    ensures 0 <= n < |s| ==> forall i | 0 <= i < |r| :: r[i] == if i < n then s[i] else s[i + 1]
    ensures n >= |s| ==> r == s
  {
    PyPrefix(s, n) + PySuffix(s, n + 1)
  }

  /** Removing the character at `n` and putting it back restores the string. */
  lemma {:induction false} RemoveCharInverse(s: string, n: nat)
    requires n < |s|
    ensures RemoveChar(s, n)[..n] + [s[n]] + RemoveChar(s, n)[n..] == s
  {
    var r := RemoveChar(s, n);
    assert r == s[..n] + s[n + 1..];
    assert r[..n] == s[..n] && r[n..] == s[n + 1..];
  }

  /** The piece of `convert_to_camel_case`'s generator: an empty piece becomes
      "_" because `"".capitalize()` is falsy. */
  function CamelPiece(x: string): (r: string)
    ensures x == "" ==> r == "_"
    ensures x != "" ==> r == Capitalize(x)
  {
    if Capitalize(x) == "" then "_" else Capitalize(x)
  }

  function CamelPieces(parts: seq<string>): (r: seq<string>)
    ensures |r| == |parts|
    ensures forall i | 0 <= i < |parts| :: r[i] == CamelPiece(parts[i])
  {
    if |parts| == 0 then [] else [CamelPiece(parts[0])] + CamelPieces(parts[1..])
  }

  /** `convert_to_camel_case`. */
  function ConvertToCamelCase(s: string): (r: string)
  {
    Concat(CamelPieces(Split(s, '_')))
  }

  /** `s` without any `c`. */
  function Without(s: string, c: char): (r: string)
    ensures c !in r
    ensures forall d | d !in s :: d !in r
  {
    if |s| == 0 then "" else (if s[0] == c then "" else [s[0]]) + Without(s[1..], c)
  }

  lemma {:induction false} LowerConcat(a: string, b: string)
    ensures Lower(a + b) == Lower(a) + Lower(b)
  {
    assert forall i | 0 <= i < |a + b| :: Lower(a + b)[i] == (Lower(a) + Lower(b))[i];
  }

  lemma {:induction false} WithoutConcat(a: string, b: string, c: char)
    ensures Without(a + b, c) == Without(a, c) + Without(b, c)
    decreases |a|
  {
    if |a| > 0 {
      WithoutConcat(a[1..], b, c);
      assert (a + b)[0] == a[0];
      assert (a + b)[1..] == a[1..] + b;
    } else {
      assert a + b == b;
    }
  }

  lemma {:induction false} WithoutAbsent(s: string, c: char)
    requires c !in s
    ensures Without(s, c) == s
    decreases |s|
  {
    if |s| > 0 {
      WithoutAbsent(s[1..], c);
      assert s == [s[0]] + s[1..];
    }
  }

  /** A string without tab, CR and LF is left alone by their removal. */
  lemma WithoutNone(s: string)
    ensures '\t' !in s && '\r' !in s && '\n' !in s ==> Without(Without(Without(s, '\t'), '\r'), '\n') == s
  {
    if '\t' !in s && '\r' !in s && '\n' !in s {
      WithoutAbsent(s, '\t');
      WithoutAbsent(s, '\r');
      WithoutAbsent(s, '\n');
    }
  }

  /** Dropping the separators around one separator-free piece. */
  lemma {:induction false} WithoutAround(pre: string, c: char, post: string)
    requires c !in pre
    ensures Without(pre + [c] + post, c) == pre + Without(post, c)
  {
    var tail := [c] + post;
    assert pre + [c] + post == pre + tail;
    WithoutConcat(pre, tail, c);
    WithoutAbsent(pre, c);
    WithoutConcat([c], post, c);
    assert [c][1..] == "";
    assert Without(tail, c) == Without(post, c);
  }

  /** Concatenating the split pieces is `s` without its separators. */
  lemma {:induction false} ConcatSplit(s: string, c: char)
    ensures Concat(Split(s, c)) == Without(s, c)
    decreases |s|
  {
    match IndexOf(s, c)
    case None =>
      assert Split(s, c) == [s];
      assert Concat([s]) == s + Concat([]);
      WithoutAbsent(s, c);
    case Some(i) =>
      var pre, post := s[..i], s[i + 1..];
      var rest := Split(post, c);
      assert Split(s, c) == [pre] + rest;
      assert ([pre] + rest)[1..] == rest;
      ConcatSplit(post, c);
      assert s == pre + [c] + post;
      WithoutAround(pre, c, post);
  }

  lemma {:induction false} LowerCamelPieces(parts: seq<string>)
    requires forall i | 0 <= i < |parts| :: parts[i] != ""
    ensures Lower(Concat(CamelPieces(parts))) == Lower(Concat(parts))
    decreases |parts|
  {
    if |parts| > 0 {
      var p := parts[0];
      LowerCamelPieces(parts[1..]);
      assert CamelPieces(parts)[1..] == CamelPieces(parts[1..]);
      LowerConcat(Capitalize(p), Concat(CamelPieces(parts[1..])));
      LowerConcat(p, Concat(parts[1..]));
      assert Capitalize(p) == [ToUpper(p[0])] + Lower(p[1..]);
      assert p == [p[0]] + p[1..];
      LowerConcat([ToUpper(p[0])], Lower(p[1..]));
      LowerConcat([p[0]], p[1..]);
      assert Lower(Lower(p[1..])) == Lower(p[1..]);
    }
  }

  /** When no piece is empty (no leading, trailing or doubled `_`), camel
      casing only drops the underscores and changes case. */
  lemma {:induction false} CamelCaseDropsUnderscores(s: string)
    requires forall i | 0 <= i < |Split(s, '_')| :: Split(s, '_')[i] != ""
    ensures Lower(ConvertToCamelCase(s)) == Lower(Without(s, '_'))
    ensures '_' !in ConvertToCamelCase(s)
  {
    LowerCamelPieces(Split(s, '_'));
    ConcatSplit(s, '_');
    NoUnderscoreInCamel(Split(s, '_'));
  }

  lemma {:induction false} NoUnderscoreInCamel(parts: seq<string>)
    requires forall i | 0 <= i < |parts| :: parts[i] != "" && '_' !in parts[i]
    ensures '_' !in Concat(CamelPieces(parts))
    decreases |parts|
  {
    if |parts| > 0 {
      NoUnderscoreInCamel(parts[1..]);
      assert CamelPieces(parts)[1..] == CamelPieces(parts[1..]);
      var p := parts[0];
      var c := Capitalize(p);
      forall k | 0 <= k < |c|
        ensures c[k] != '_'
      {
        if k == 0 {
          assert p[0] != '_';
        } else {
          assert c[k] == Lower(p[1..])[k - 1] == ToLower(p[k]);
          assert p[k] != '_';
        }
      }
    }
  }
  // ---------------------------------------------------------------------------
  // get_stub: urlparse(...).path, last segment, lower-cased, Path(...).stem
  // ---------------------------------------------------------------------------

  predicate IsAsciiLetter(c: char) {
    IsAsciiLower(c) || IsAsciiUpper(c)
  }

  /** Characters `urlsplit` allows in a scheme. */
  predicate IsSchemeChar(c: char) {
    IsAsciiLetter(c) || IsDigit(c) || c == '+' || c == '-' || c == '.'
  }

  /** Schemes for which `urlparse` splits `;params` off the last segment. */
  const UsesParams: set<string> :=
    {"", "ftp", "hdl", "prospero", "http", "imap", "https", "shttp", "rtsp", "rtsps",
     "rtspu", "sip", "sips", "mms", "sftp", "tel"}

  /** `urlsplit`'s first step: leading C0 control characters and spaces are
      stripped. */
  function LStripControls(url: string): (r: string)
    ensures EndsWith(url, r)
    ensures r == "" || r[0] > ' '
    ensures forall k | 0 <= k < |url| - |r| :: url[k] <= ' '
  {
    if |url| > 0 && url[0] <= ' ' then LStripControls(url[1..]) else url
  }

  /** `urlsplit`'s clean-up: after the strip, every tab, CR and LF is
      removed; `CleanUrlKeeps` and `WithoutConcat` say that everything else
      stays, in order. */
  function CleanUrl(url: string): (r: string)
    ensures '\t' !in r && '\r' !in r && '\n' !in r
    ensures '\t' !in url && '\r' !in url && '\n' !in url ==> r == LStripControls(url)
  {
    var s := LStripControls(url);
    WithoutNone(s);
    Without(Without(Without(s, '\t'), '\r'), '\n')
  }

  /** Removing one character keeps the count of every other one. */
  lemma {:induction false} WithoutCounts(s: string, c: char, d: char)
    requires d != c
    ensures multiset(Without(s, c))[d] == multiset(s)[d]
    decreases |s|
  {
    if |s| > 0 {
      WithoutCounts(s[1..], c, d);
      assert s == [s[0]] + s[1..];
    }
  }

  /** The clean-up keeps every character other than tab, CR and LF as often
      as it occurs after the strip. */
  lemma CleanUrlKeeps(url: string, d: char)
    requires d != '\t' && d != '\r' && d != '\n'
    ensures multiset(CleanUrl(url))[d] == multiset(LStripControls(url))[d]
  {
    var s := LStripControls(url);
    WithoutCounts(s, '\t', d);
    WithoutCounts(Without(s, '\t'), '\r', d);
    WithoutCounts(Without(Without(s, '\t'), '\r'), '\n', d);
  }

  /** Whether `url` has a scheme ending at the colon at `i`: a non-empty
      prefix of scheme characters that starts with an ASCII letter. */
  predicate SchemeEndsAt(url: string, i: int) {
    0 < i < |url| && url[i] == ':' && IsAsciiLetter(url[0]) && forall k | 0 <= k < i :: IsSchemeChar(url[k])
  }

  /** A colon ending a scheme is the first colon, so there is at most one. */
  lemma SchemeEndsOnce(url: string, i: int, j: int)
    requires SchemeEndsAt(url, i) && SchemeEndsAt(url, j)
    ensures i == j
  {
    assert forall k | 0 <= k < i :: url[k] != ':';
    assert forall k | 0 <= k < j :: url[k] != ':';
  }

  /** `urlsplit`'s scheme step: when the text before the first `:` is
      non-empty, starts with an ASCII letter and holds only scheme
      characters, it is the scheme (lower-cased) and the rest follows the
      colon; otherwise there is no scheme and the URL is kept whole
      (`SchemeSplitOff` places the scheme, `SchemeFound` is the converse). */
  function SplitScheme(url: string): (r: (string, string))
    ensures EndsWith(url, r.1)
    ensures r.0 == "" ==> r.1 == url
  {
    match IndexOf(url, ':')
    case None => ("", url)
    case Some(i) =>
      if i > 0 && IsAsciiLetter(url[0]) && forall k | 0 <= k < i :: IsSchemeChar(url[k])
      then (Lower(url[..i]), url[i + 1..])
      else ("", url)
  }

  /** A scheme split off ends at a scheme colon; it is the text before that
      colon, lower-cased, and the rest is the text after it. */
  lemma SchemeSplitOff(url: string)
    ensures var r := SplitScheme(url);
      r.0 != "" ==> SchemeEndsAt(url, |r.0|) && r.0 == Lower(url[..|r.0|]) && r.1 == url[|r.0| + 1..]
  {
  }

  /** Wherever a scheme ends, `SplitScheme` finds it. */
  lemma SchemeFound(url: string, i: int)
    requires SchemeEndsAt(url, i)
    ensures SplitScheme(url) == (Lower(url[..i]), url[i + 1..])
  {
    assert url[i] in url;
    match IndexOf(url, ':')
    case None =>
    case Some(j) =>
      assert forall k | 0 <= k < i :: url[k] != ':';
      forall k | 0 <= k < j ensures url[k] != ':' {
        assert url[..j][k] == url[k];
      }
  }

  predicate IsNetlocEnd(c: char) {
    c == '/' || c == '?' || c == '#'
  }

  /** First index at or after `k` holding `/`, `?` or `#`, else `|s|`. */
  function NetlocEnd(s: string, k: nat): (r: nat)
    requires k <= |s|
    ensures k <= r <= |s|
    ensures forall j | k <= j < r :: !IsNetlocEnd(s[j])
    ensures r < |s| ==> IsNetlocEnd(s[r])
    decreases |s| - k
  {
    if k == |s| || IsNetlocEnd(s[k]) then k else NetlocEnd(s, k + 1)
  }

  /** A suffix lacks whatever the whole string lacks. */
  lemma SuffixLacks(s: string, t: string, c: char)
    requires c !in s && EndsWith(s, t)
    ensures c !in t
  {
    forall k | 0 <= k < |t| ensures t[k] != c {
      assert t[k] == s[|s| - |t| + k];
    }
  }

  /** Where the path starts in what follows the scheme: after the netloc
      when the text starts with `//`, else at once. */
  function PathStart(rest: string): (r: nat)
    ensures r <= |rest|
    ensures !StartsWith(rest, "//") ==> r == 0
    ensures StartsWith(rest, "//") ==> 2 <= r && (r == |rest| || IsNetlocEnd(rest[r]))
    ensures StartsWith(rest, "//") ==> forall j | 2 <= j < r :: !IsNetlocEnd(rest[j])
  {
    if StartsWith(rest, "//") then NetlocEnd(rest, 2) else 0
  }

  /** `path` is the run of `rest` from the path start up to the first `?`
      or `#`, or to the end. */
  predicate PathOf(rest: string, path: string) {
    var start := PathStart(rest);
    && start + |path| <= |rest| && rest[start..start + |path|] == path
    && '?' !in path && '#' !in path
    && (start + |path| == |rest| || rest[start + |path|] == '?' || rest[start + |path|] == '#')
  }

  /** The `path` part of what follows the scheme: from the path start up
      to the first `?` or `#`, or to the end. */
  function PathPart(rest: string): (r: string)
    ensures '#' !in r && '?' !in r
  {
    var noFragment := FirstPiece(rest[PathStart(rest)..], '#');
    PiecesLack(noFragment, '?', '#');
    FirstPiece(noFragment, '?')
  }

  /** The path part lacks whatever `rest` lacks. */
  lemma PathPartLacks(rest: string, c: char)
    requires c !in rest
    ensures c !in PathPart(rest)
  {
    var afterNetloc := rest[PathStart(rest)..];
    SuffixLacks(rest, afterNetloc, c);
    PiecesLack(afterNetloc, '#', c);
    PiecesLack(FirstPiece(afterNetloc, '#'), '?', c);
  }

  /** The scheme and the `path` component of `urlparse(url)`, before
      `;params` are split off; `SplitUrlPath` places the path in the URL. */
  function SplitUrl(url: string): (r: (string, string))
    ensures r.0 == SplitScheme(CleanUrl(url)).0
    ensures '#' !in r.1 && '?' !in r.1 && '\n' !in r.1
  {
    var clean := CleanUrl(url);
    var (scheme, rest) := SplitScheme(clean);
    SuffixLacks(clean, rest, '\n');
    PathPartLacks(rest, '\n');
    (scheme, PathPart(rest))
  }

  /** The path is the run of the URL (after its scheme) that starts after
      the netloc and stops at the first `?` or `#`. */
  lemma SplitUrlPath(url: string)
    ensures PathOf(SplitScheme(CleanUrl(url)).1, SplitUrl(url).1)
  {
    var rest := SplitScheme(CleanUrl(url)).1;
    PathOfPieces(rest);
  }

  lemma PathOfPieces(rest: string)
    ensures PathOf(rest, PathPart(rest))
  {
    var start := PathStart(rest);
    var after := rest[start..];
    var path := PathPart(rest);
    assert path == FirstPiece(FirstPiece(after, '#'), '?');
    QueryCut(after);
    assert |path| <= |after| && path == after[..|path|];
    assert forall k | 0 <= k < |path| :: rest[start..start + |path|][k] == after[k];
    if |path| < |after| {
      assert rest[start + |path|] == after[|path|];
    }
  }

  /** Cutting at the first `#` and then at the first `?` cuts at the first
      of either. */
  lemma QueryCut(s: string)
    ensures var p := FirstPiece(FirstPiece(s, '#'), '?');
      && |p| <= |s| && p == s[..|p|] && '?' !in p && '#' !in p
      && (|p| == |s| || s[|p|] == '?' || s[|p|] == '#')
  {
    var f := FirstPiece(s, '#');
    var p := FirstPiece(f, '?');
    PiecesLack(f, '?', '#');
    assert p == s[..|p|];
    if |p| < |f| {
      assert s[|p|] == f[|p|];
    }
  }

  /** Where the last `/`-segment of `path` starts. */
  function SegmentStart(path: string): (r: nat)
    ensures r <= |path|
    ensures r == 0 || path[r - 1] == '/'
    ensures '/' !in path[r..]
  {
    match LastIndexOf(path, '/')
    case None => 0
    case Some(i) => i + 1
  }

  /** The last `/`-segment of a path, cut at its first `;` when `params`;
      `SegmentPlace` places it in the path. */
  function Segment(path: string, params: bool): (r: string)
    ensures '/' !in r
    ensures params ==> ';' !in r
  {
    var seg := path[SegmentStart(path)..];
    if params then FirstPiece(seg, ';') else seg
  }

  /** The segment starts after the path's last `/` and runs to the end of
      the path, or, when `params`, to its first `;` after that. */
  lemma SegmentPlace(path: string, params: bool)
    ensures var r := Segment(path, params);
      && SegmentStart(path) + |r| <= |path|
      && r == path[SegmentStart(path)..][..|r|]
      && (!params ==> SegmentStart(path) + |r| == |path|)
      && (params ==> SegmentStart(path) + |r| == |path| || path[SegmentStart(path) + |r|] == ';')
  {
  }

  /** The segment is what `split("/")[-1]` gives, cut at `;` when
      `params`. */
  lemma SegmentIsLastPiece(path: string, params: bool)
    ensures Segment(path, params) == if params then FirstPiece(LastPiece(path, '/'), ';') else LastPiece(path, '/')
  {
    LastPieceAt(path, '/', SegmentStart(path));
  }

  /** `urlparse(url).path.split("/")[-1]` (by `SegmentIsLastPiece`): the
      text after the last `/` of the path, up to its first `;` when the
      scheme uses `;params`, else to the end of the path (`PathNamePlace`). */
  function PathName(url: string): (r: string)
    ensures '/' !in r && '#' !in r && '?' !in r && '\n' !in r
    ensures SplitUrl(url).0 in UsesParams ==> ';' !in r
  {
    var parts := SplitUrl(url);
    var r := Segment(parts.1, parts.0 in UsesParams);
    SegmentLacks(parts.1, parts.0 in UsesParams);
    r
  }

  /** The file name is the text of the path after its last `/`, running to
      the end of the path or, for a scheme that uses `;params`, to a `;`. */
  lemma PathNamePlace(url: string)
    ensures var path := SplitUrl(url).1; var r := PathName(url);
      && SegmentStart(path) + |r| <= |path| && r == path[SegmentStart(path)..][..|r|]
      && (SegmentStart(path) + |r| == |path| || (SplitUrl(url).0 in UsesParams && path[SegmentStart(path) + |r|] == ';'))
  {
    var parts := SplitUrl(url);
    SegmentPlace(parts.1, parts.0 in UsesParams);
  }

  /** The segment lacks `#`, `?` and newline when the path does. */
  lemma SegmentLacks(path: string, params: bool)
    requires '#' !in path && '?' !in path && '\n' !in path
    ensures '#' !in Segment(path, params) && '?' !in Segment(path, params) && '\n' !in Segment(path, params)
  {
    var r := Segment(path, params);
    var k := SegmentStart(path);
    SegmentPlace(path, params);
    forall j | 0 <= j < |r| ensures r[j] == path[k + j] {
      assert r[j] == path[k..][j];
    }
  }

  /** `PurePosixPath(name).stem` for a name without `/`: the name "." has the
      empty name; otherwise the text before the last `.`, unless that dot is
      the first or the last character. */
  function Stem(name: string): (r: string)
    ensures name == "." ==> r == ""
    ensures name != "." ==> StartsWith(name, r)
    ensures name != "." ==>
      (r == name <==> (|name| > 0 && name[|name| - 1] == '.') || forall k | 0 < k < |name| - 1 :: name[k] != '.')
    ensures name != "." && r != name ==>
      0 < |r| && |r| + 1 < |name| && name[|r|] == '.' && '.' !in name[|r| + 1..]
  {
    if name == "." then ""
    else match LastIndexOf(name, '.')
      case None => name
      case Some(i) => if 0 < i < |name| - 1 then name[..i] else name
  }

  /** `get_stub`: the lower-cased last path segment without its final
      extension; scheme, host, query and fragment are ignored. */
  function GetStub(url: string): (r: string)
    ensures '/' !in r && '#' !in r && '?' !in r && '\n' !in r
    ensures forall k | 0 <= k < |r| :: !IsAsciiUpper(r[k])
  {
    var seg := PathName(url);
    var name := Lower(seg);
    LowerNotIn(seg, '\n');
    LowerNotIn(seg, '/');
    LowerNotIn(seg, '#');
    LowerNotIn(seg, '?');
    StemKeeps(name);
    Stem(name)
  }

  /** The stem is a prefix of the name, so it lacks what the name lacks. */
  lemma StemKeeps(name: string)
    ensures forall d | d !in name :: d !in Stem(name)
    ensures forall k | 0 <= k < |Stem(name)| :: Stem(name)[k] == name[k]
  {
  }

  /** For a bare file name (no scheme, host, query, fragment, `;`, tab, CR, LF or leading
      control character), the
      stub is the lower-cased name without its final extension. */
  lemma {:induction false} GetStubOfName(name: string)
    requires ':' !in name && '/' !in name && '#' !in name && '?' !in name && ';' !in name
    requires '\t' !in name && '\r' !in name && '\n' !in name
    requires name == "" || name[0] > ' '
    ensures GetStub(name) == Stem(Lower(name))
  {
    SplitUrlOfName(name);
    assert "" in UsesParams;
    assert SegmentStart(name) == 0;
    assert name[0..] == name;
    FirstPieceAt(name, ';', |name|);
    assert name[..|name|] == name;
    assert PathName(name) == name;
  }

  /** A name without tab, CR, LF or leading control character is left alone
      by the clean-up. */
  lemma {:induction false} CleanUrlOfName(name: string)
    requires '\t' !in name && '\r' !in name && '\n' !in name
    requires name == "" || name[0] > ' '
    ensures CleanUrl(name) == name
  {
    assert LStripControls(name) == name;
    WithoutAbsent(name, '\t');
    WithoutAbsent(name, '\r');
    WithoutAbsent(name, '\n');
  }

  lemma {:induction false} SplitUrlOfName(name: string)
    requires ':' !in name && '/' !in name && '#' !in name && '?' !in name
    requires '\t' !in name && '\r' !in name && '\n' !in name
    requires name == "" || name[0] > ' '
    ensures SplitUrl(name) == ("", name)
  {
    CleanUrlOfName(name);
    assert SplitScheme(name) == ("", name);
    assert |name| < 2 || name[0] != '/';
  }

  /** Whether `s` can be a URL scheme: an ASCII letter, then scheme
      characters. */
  predicate IsScheme(s: string) {
    |s| > 0 && IsAsciiLetter(s[0]) && forall k | 0 <= k < |s| :: IsSchemeChar(s[k])
  }

  /** Whether `s` holds none of the characters the clean-up removes. */
  predicate Unbroken(s: string) {
    '\t' !in s && '\r' !in s && '\n' !in s
  }

  /** For a URL `scheme://host/dir/name;params?query#fragment` (the shape of
      the `.m3u8` URLs the lambda receives), the stub is the lower-cased
      file name without its final extension: scheme, host, directories,
      `;params` (for schemes that use them), query and fragment are all
      ignored. */
  lemma GetStubOfUrl(scheme: string, host: string, dir: string, name: string, params: string, tail: string)
    requires IsScheme(scheme)
    requires '/' !in host && '?' !in host && '#' !in host && '[' !in host && ']' !in host
    requires dir == "" || dir[|dir| - 1] == '/'
    requires '?' !in dir && '#' !in dir
    requires '/' !in name && '?' !in name && '#' !in name && ';' !in name
    requires params == "" || (Lower(scheme) in UsesParams && params[0] == ';')
    requires '/' !in params && '?' !in params && '#' !in params
    requires tail == "" || tail[0] == '?' || tail[0] == '#'
    requires Unbroken(host) && Unbroken(dir) && Unbroken(name) && Unbroken(params) && Unbroken(tail)
    ensures GetStub(scheme + "://" + host + "/" + dir + name + params + tail) == Stem(Lower(name))
  {
    var head := scheme + "://" + host;
    var path := "/" + dir + name + params;
    Associate(head, "/" + dir, name);
    Associate(head, "/" + dir + name, params);
    assert head + "/" + dir == head + ("/" + dir);
    SplitUrlOf(scheme, host, path, tail);
    SegmentOfPath(dir, name, params, Lower(scheme) in UsesParams);
  }

  /** The scheme and path `urlparse` finds in `scheme://host/path?query`. */
  lemma SplitUrlOf(scheme: string, host: string, path: string, tail: string)
    requires IsScheme(scheme)
    requires '/' !in host && '?' !in host && '#' !in host
    requires |path| > 0 && path[0] == '/' && '?' !in path && '#' !in path
    requires tail == "" || tail[0] == '?' || tail[0] == '#'
    requires Unbroken(host) && Unbroken(path) && Unbroken(tail)
    ensures SplitUrl(scheme + "://" + host + path + tail) == (Lower(scheme), path)
  {
    var rest := "//" + host + (path + tail);
    assert scheme + "://" + host + path + tail == scheme + ":" + rest;
    SchemeUrl(scheme, rest);
    NetlocSkip(host, path + tail);
    QueryCutAt(path, tail);
  }

  /** A scheme holds none of the characters the clean-up removes. */
  lemma SchemeUnbroken(scheme: string)
    requires IsScheme(scheme)
    ensures Unbroken(scheme)
  {
    forall k | 0 <= k < |scheme| ensures scheme[k] != '\t' && scheme[k] != '\r' && scheme[k] != '\n' {
      assert IsSchemeChar(scheme[k]);
    }
  }

  /** A URL that starts with a scheme and a colon, and holds none of the
      characters the clean-up removes, splits there. */
  lemma SchemeUrl(scheme: string, rest: string)
    requires IsScheme(scheme) && Unbroken(rest)
    ensures CleanUrl(scheme + ":" + rest) == scheme + ":" + rest
    ensures SplitScheme(scheme + ":" + rest) == (Lower(scheme), rest)
  {
    var url := scheme + ":" + rest;
    SchemeUnbroken(scheme);
    UnbrokenConcat(scheme, ":" + rest);
    assert url[0] == scheme[0];
    CleanUrlOfName(url);
    SchemeAt(scheme, rest);
  }

  lemma UnbrokenConcat(a: string, b: string)
    requires Unbroken(a) && Unbroken(b)
    ensures Unbroken(a + b)
  {
    forall k | 0 <= k < |a + b| ensures (a + b)[k] != '\t' && (a + b)[k] != '\r' && (a + b)[k] != '\n' {
      if k < |a| {
        assert (a + b)[k] == a[k];
      } else {
        assert (a + b)[k] == b[k - |a|];
      }
    }
  }

  /** The scheme of `scheme:rest` ends at its colon. */
  lemma SchemeAt(scheme: string, rest: string)
    requires IsScheme(scheme)
    ensures SplitScheme(scheme + ":" + rest) == (Lower(scheme), rest)
  {
    var url := scheme + ":" + rest;
    assert url[0] == scheme[0];
    assert forall k | 0 <= k < |scheme| :: url[k] == scheme[k];
    assert SchemeEndsAt(url, |scheme|);
    SchemeFound(url, |scheme|);
    assert url[..|scheme|] == scheme;
    assert url[|scheme| + 1..] == rest;
  }

  /** After `//`, the netloc runs up to the next `/`. */
  lemma NetlocSkip(host: string, after: string)
    requires '/' !in host && '?' !in host && '#' !in host
    requires |after| > 0 && after[0] == '/'
    ensures PathStart("//" + host + after) == 2 + |host|
    ensures ("//" + host + after)[2 + |host|..] == after
  {
    var rest := "//" + host + after;
    assert rest[..2] == "//";
    var r := PathStart(rest);
    assert rest[2 + |host|] == '/';
    assert forall j | 0 <= j < |host| :: rest[2 + j] == host[j];
    assert rest[2 + |host|..] == after;
  }

  /** A path without `?` or `#`, followed by nothing or by a query or
      fragment, is cut off exactly. */
  lemma QueryCutAt(path: string, tail: string)
    requires '?' !in path && '#' !in path
    requires tail == "" || tail[0] == '?' || tail[0] == '#'
    ensures FirstPiece(FirstPiece(path + tail, '#'), '?') == path
  {
    var s := path + tail;
    var q := FirstPiece(FirstPiece(s, '#'), '?');
    QueryCut(s);
    assert forall j | 0 <= j < |path| :: s[j] == path[j];
    assert |path| < |s| ==> s[|path|] == tail[0];
    assert forall j | 0 <= j < |q| :: q[j] != '?' && q[j] != '#';
    assert q == s[..|path|] == path;
  }

  /** The last segment of `/dir/name;params`, cut at `;` when the scheme
      uses params, is the name. */
  lemma SegmentOfPath(dir: string, name: string, params: string, uses: bool)
    requires dir == "" || dir[|dir| - 1] == '/'
    requires '/' !in name && ';' !in name && '/' !in params
    requires params == "" || (uses && params[0] == ';')
    ensures Segment("/" + dir + name + params, uses) == name
  {
    var path := "/" + dir + name + params;
    var k := SegmentStart(path);
    assert path[|dir|] == '/';
    forall j | k <= j < |path| ensures path[j] != '/' {
      assert path[j] == path[k..][j - k];
    }
    forall j | 1 + |dir| <= j < |path| ensures path[j] != '/' {
      assert path[j] == (name + params)[j - 1 - |dir|];
    }
    assert path[k..] == name + params;
    if uses {
      FirstPieceAt(name + params, ';', |name|);
      assert (name + params)[..|name|] == name;
    }
  }

  /** `extract_stub_list`. */
  function ExtractStubList(urls: seq<string>): (r: seq<string>)
    ensures |r| == |urls|
    ensures forall i | 0 <= i < |urls| :: r[i] == GetStub(urls[i])
  {
    if |urls| == 0 then [] else [GetStub(urls[0])] + ExtractStubList(urls[1..])
  }

  /** `sort_url_by_stub`: a stable sort of the URLs by their stubs. */
  function SortUrlByStub(urls: seq<string>): (r: seq<string>)
    ensures multiset(r) == multiset(urls)
    ensures SortedBy(r, GetStub)
  {
    SortBy(urls, GetStub)
  }

  // ---------------------------------------------------------------------------
  // handle_variations
  // ---------------------------------------------------------------------------

  /** `handle_variations`: the new URL first, then each current URL whose stub
      letter has not been seen, the whole list sorted by stub. */
  function HandleVariations(current: seq<string>, url: string): (r: Result<seq<string>>)
    ensures |current| == 0 ==> r == Ok([url])
    ensures |current| > 0 ==>
      (r.Ok? <==> LetterOf(url).Some? && forall i | 0 <= i < |current| :: LetterOf(current[i]).Some?)
    ensures r.Err? ==> r.error == IndexError
    ensures r.Ok? ==> url in r.value
    ensures r.Ok? ==> forall x | x in r.value :: x == url || x in current
    ensures r.Ok? ==> DistinctBy(r.value, LetterOf)
    ensures r.Ok? ==> SortedBy(r.value, GetStub)
  {
    if |current| == 0 then Ok([url])
    else
      var letter :- StubLetter(url);
      match DedupBy(current, {letter}, LetterOf)
      case None => Err(IndexError)
      case Some(kept) =>
        DedupBySubset(current, {letter}, LetterOf);
        Ok(Merge(url, kept))
  }

  /** The new URL put in front of the kept ones, sorted by stub: when no kept
      URL shares the new one's letter, the letters stay distinct. */
  function Merge(url: string, kept: seq<string>): (r: seq<string>)
    requires LetterOf(url).Some? && DistinctBy(kept, LetterOf)
    requires forall k | 0 <= k < |kept| :: LetterOf(kept[k]) != LetterOf(url)
    ensures forall x :: x in r <==> x == url || x in kept
    ensures DistinctBy(r, LetterOf)
    ensures SortedBy(r, GetStub)
  {
    var merged := [url] + kept;
    ConsDistinct(url, kept, LetterOf);
    SortByDistinct(merged, GetStub, LetterOf);
    SortByMembers(merged, GetStub);
    SortUrlByStub(merged)
  }

  /** The merged list holds the new URL and exactly the first URL of each
      other stub letter from the current list. */
  lemma {:induction false} HandleVariationsMembers(current: seq<string>, url: string)
    requires |current| > 0 && HandleVariations(current, url).Ok?
    ensures var r := HandleVariations(current, url).value;
      forall x :: x in r <==> x == url || exists i :: KeptAt(current, {LetterOf(url).value}, LetterOf, i) && current[i] == x
  {
    var letter := StubLetter(url).value;
    var kept := DedupBy(current, {letter}, LetterOf).value;
    DedupByMembers(current, {letter}, LetterOf);
    var merged := [url] + kept;
    SortByMembers(merged, GetStub);
    assert forall x :: x in merged <==> x == url || x in kept;
  }

  /** No URL but the new one keeps the new URL's stub letter. */
  lemma {:induction false} HandleVariationsReplacesLetter(current: seq<string>, url: string)
    requires |current| > 0 && HandleVariations(current, url).Ok?
    ensures var r := HandleVariations(current, url).value;
      forall k | 0 <= k < |r| && r[k] != url :: LetterOf(r[k]) != LetterOf(url)
  {
    DistinctByOthers(HandleVariations(current, url).value, url, LetterOf);
  }

  // ---------------------------------------------------------------------------
  // The technique list
  // ---------------------------------------------------------------------------

  /** `update_technique_list` on the list itself: replace every URL with the
      new URL's stub, or append it, then sort by stub. */
  function UpdateVariations(urls: seq<string>, url: string): (r: seq<string>)
    ensures multiset(r) == multiset(ReplaceOrAppendBy(urls, url, GetStub))
    ensures SortedBy(r, GetStub)
  {
    SortUrlByStub(ReplaceOrAppendBy(urls, url, GetStub))
  }

  /** After the update the new URL is present, it is the only URL with its
      stub, every other URL comes from the old list, and every old URL with
      a different stub is kept; the length grows by one exactly when no old
      URL had the new stub. */
  lemma {:induction false} UpdateVariationsContents(urls: seq<string>, url: string)
    ensures var r := UpdateVariations(urls, url);
      && url in r
      && (forall x | x in r :: GetStub(x) == GetStub(url) ==> x == url)
      && (forall x | x in r :: x == url || (x in urls && GetStub(x) != GetStub(url)))
      && (forall x | x in urls && GetStub(x) != GetStub(url) :: x in r)
    ensures |UpdateVariations(urls, url)| ==
      if exists i | 0 <= i < |urls| :: GetStub(urls[i]) == GetStub(url) then |urls| else |urls| + 1
  {
    SortedReplaceContents(urls, url, GetStub);
  }

  /** Adding the same URL twice changes nothing more. */
  lemma {:induction false} UpdateVariationsIdempotent(urls: seq<string>, url: string)
    ensures UpdateVariations(UpdateVariations(urls, url), url) == UpdateVariations(urls, url)
  {
    var r := UpdateVariations(urls, url);
    UpdateVariationsContents(urls, url);
    ReplaceOrAppendPresent(r, url, GetStub);
    SortBySorted(r, GetStub);
  }

  /** `reset_technique_list`: `Variations` becomes the empty list. */
  function ResetTechniqueList(data: Item): (r: Item)
    ensures r.Keys == data.Keys + {VariationsKey}
    ensures r[VariationsKey] == UrlList([])
    ensures forall k | k in data && k != VariationsKey :: r[k] == data[k]
  {
    data[VariationsKey := UrlList([])]
  }

  /** `data[key] = f` on an item that already has `key`. */
  function SetField(data: Item, key: string, f: Field): (r: Item)
    requires key in data
    ensures r.Keys == data.Keys && key in r && r[key] == f
    ensures forall k | k in data && k != key :: r[k] == data[k]
  {
    data[key := f]
  }

  /** `update_technique_list` on an item: a missing `Variations` raises
      KeyError, a `Variations` that is not a list fails. */
  function UpdateTechniqueList(data: Item, url: string): (r: Result<Item>)
    ensures r.Ok? <==> VariationsKey in data && data[VariationsKey].UrlList?
    ensures VariationsKey !in data ==> r == Err(KeyError(VariationsKey))
    ensures r.Ok? ==> r.value.Keys == data.Keys && VariationsKey in r.value
    ensures r.Ok? ==> r.value[VariationsKey] == UrlList(UpdateVariations(data[VariationsKey].urls, url))
    ensures r.Ok? ==> forall k | k in data && k != VariationsKey :: r.value[k] == data[k]
  {
    var v :- Lookup(data, VariationsKey);
    if v.UrlList? then
      Ok(SetField(data, VariationsKey, UrlList(UpdateVariations(v.urls, url))))
    else Err(TypeError("Variations is not a list"))
  }

  /** `handle_technique_list`: a stem ending in "z" empties the list,
      anything else adds the URL. */
  function HandleTechniqueList(stem: string, data: Item, url: string): (r: Result<Item>)
    ensures EndsWith(stem, RemoveAllVariations) ==> r.Ok? && VariationsKey in r.value && r.value[VariationsKey] == UrlList([])
    ensures !EndsWith(stem, RemoveAllVariations) ==> r == UpdateTechniqueList(data, url)
    ensures r.Ok? ==> r.value.Keys == data.Keys + {VariationsKey}
    ensures r.Ok? ==> forall k | k in data && k != VariationsKey :: r.value[k] == data[k]
  {
    if EndsWith(stem, RemoveAllVariations) then Ok(ResetTechniqueList(data))
    else UpdateTechniqueList(data, url)
  }

  // ---------------------------------------------------------------------------
  // The shared DynamoDB read-modify-write
  // ---------------------------------------------------------------------------

  /** The scroll record a query returns: its name and the curriculum items
      stored under `map.Items`. */
  datatype ScrollRecord = ScrollRecord(name: string, items: seq<Item>)

  /** What `table.query` returns: the HTTP status and the matching records
      (`Count` is their number). */
  datatype QueryResponse = QueryResponse(status: int, records: seq<ScrollRecord>)

  /** The checks of `update_ddb` before the item is located: a status other
      than 200 and an empty result both fail. */
  function QueriedRecord(resp: QueryResponse, notFound: string): (r: Result<ScrollRecord>)
    ensures resp.status != HttpOk ==> r == Err(RuntimeError("Database query failed"))
    ensures resp.status == HttpOk && |resp.records| == 0 ==> r == Err(RuntimeError(notFound))
    ensures resp.status == HttpOk && |resp.records| > 0 ==> r == Ok(resp.records[0])
  {
    if resp.status != HttpOk then Err(RuntimeError("Database query failed"))
    else if |resp.records| == 0 then Err(RuntimeError(notFound))
    else Ok(resp.records[0])
  }

  /** `after` differs from `before` only in the `Variations` of item `off`. */
  predicate OnlyVariationsChanged(before: ScrollRecord, after: ScrollRecord, off: nat) {
    && after.name == before.name
    && |after.items| == |before.items|
    && off < |before.items|
    && (forall j | 0 <= j < |before.items| && j != off :: after.items[j] == before.items[j])
    && after.items[off].Keys == before.items[off].Keys
    && (forall k | k in before.items[off] && k != VariationsKey :: after.items[off][k] == before.items[off][k])
  }

  /** Item `off` of `rec` lists `url` among its variations. */
  predicate HasVariation(rec: ScrollRecord, off: nat, url: string) {
    && off < |rec.items|
    && VariationsKey in rec.items[off]
    && rec.items[off][VariationsKey].UrlList?
    && url in rec.items[off][VariationsKey].urls
  }

  /** The write-back of `update_ddb`: item `off`'s `Variations` becomes
      `handle_variations` of its current value. An offset past the end raises
      IndexError, a missing `Variations` KeyError. */
  function SetVariations(rec: ScrollRecord, off: nat, url: string): (r: Result<ScrollRecord>)
    ensures off >= |rec.items| ==> r == Err(IndexError)
    ensures off < |rec.items| && VariationsKey !in rec.items[off] ==> r == Err(KeyError(VariationsKey))
    ensures off < |rec.items| && VariationsKey in rec.items[off] && !rec.items[off][VariationsKey].UrlList? ==>
      r == Err(TypeError("Variations is not a list"))
    ensures off < |rec.items| && VariationsKey in rec.items[off] && rec.items[off][VariationsKey].UrlList? ==>
      && (r.Ok? <==> HandleVariations(rec.items[off][VariationsKey].urls, url).Ok?)
      && (r.Err? ==> r.error == HandleVariations(rec.items[off][VariationsKey].urls, url).error)
    ensures r.Ok? ==> OnlyVariationsChanged(rec, r.value, off) && HasVariation(r.value, off, url)
    ensures r.Ok? ==>
      && rec.items[off][VariationsKey].UrlList?
      && HandleVariations(rec.items[off][VariationsKey].urls, url).Ok?
      && r.value.items[off][VariationsKey] == UrlList(HandleVariations(rec.items[off][VariationsKey].urls, url).value)
  {
    var item :- PyIndex(rec.items, off);
    var current :- Lookup(item, VariationsKey);
    if !current.UrlList? then Err(TypeError("Variations is not a list"))
    else
      var merged :- HandleVariations(current.urls, url);
      Ok(rec.(items := rec.items[off := item[VariationsKey := UrlList(merged)]]))
  }
}
