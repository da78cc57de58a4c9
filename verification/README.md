# Suigetsukan lambdas: a Dafny model

The Suigetsukan dojo website keeps its curriculum in DynamoDB. There is one
table per art, one record per scroll, and one item per technique. Each
item carries a `Variations` list of video URLs. Several AWS Lambda
functions maintain this data. This project models their core:

- **The file-name decipher.** A MediaConvert/SNS notification brings the URL
  of a newly published video. The video's file name encodes the art, the
  scroll and the technique, for example `b0101a` or `p010105a`. The lambda:
  1. takes the URL out of the notification;
  2. lower-cases the file stub and reads the art from its first letter;
  3. reads the scroll, then decodes the rest of the stub with the scroll's
     pattern and code tables (Battodo, Danzan Ryu, Aikido);
  4. finds the first item whose fields match the decoded values;
  5. adds the URL to that item's variations, keeping one URL per variation
     letter, sorted by stub;
  6. writes the record back.
- **The Cognito user-management REST API.** Administrators list the users
  and approve, promote, deny, close or delete them. Each action changes the
  user's groups and sends mail to the user and to the administrators.
- **The post-confirmation trigger.** A newly confirmed user is put into the
  `unapproved` group and the administrators are told.
- **The billing REST API.** It reports this month's and last month's AWS
  costs and the forecast for the rest of the month.

The SDK calls (DynamoDB, Cognito, SES, Cost Explorer), the JSON parser and
the clock are not modelled as code. They appear in the model as:

- parameters: the query response, the status of the write, the parsed
  body, today's date, the Cost Explorer responses;
- or, for Cognito, an abstract user pool (`CognitoPool.Pool`): a sequence
  of accounts, each with its groups. The pool's invariant is that user
  names are unique.

Python's exceptions are the `Failure` values of `Results`, and the order in
which the source raises them is kept. Python dictionary lookups are
`Results.Lookup`, which fails with `KeyError` on a missing key. `s[i]` is
`Text.PyIndex`, with negative indexing and `IndexError`.

The anchored `re.findall` patterns all have a fixed shape. `Shapes` models
them: a class per position, the captured groups, and a tail that is either
nothing or "anything on one line". As in Python, `$` also matches before a
final newline.

Where the code and the repository's tests disagree, the model follows the
code:

- `tests/test_utils.py:72-74` and `tests/test_utils.py:81-83` expect a
  ValueError "no file stub". In the code, `get_file_stub` returns the empty
  string and `get_hls_url_stub_letter` raises IndexError
  (`DecipherUtils.StubLetter`).
- The Battodo handler reads the scroll letter from `stub[0]`. That is the
  art letter `b` the lambda routed on, so through `lambda_handler` every
  Battodo video goes to the `tameshigiri` scroll
  (`DecipherApp.BattodoOnlyTameshigiri`). The per-scroll decoders are
  modelled and proved on their own.
- `HTTP_NO_CONTENT`, which the Cognito REST API's OPTIONS reply uses, is
  not defined in `common/constants.py` (lines 12-16 define only 200, 400
  and 401). As written, the import at `cognito-rest-api/app.py:12-24`
  fails with ImportError when the module loads, so that lambda serves no
  request at all. The model describes the evidently intended lambda and
  uses 204, the No Content status of section 15.3.5 of RFC 9110.
- `tests/test_cognito_rest_api.py:48-50` sends `GET /list` with no
  `requestContext` and expects 200. The code (`cognito-rest-api/app.py:496-498`)
  checks the authorizer first and answers 401, and so does
  `CognitoRest.Handler`.

Modules, one per source file plus shared helpers:

| module | models |
|---|---|
| `Results` | exceptions as `Failure`, `Result`/`Option`, dict lookup |
| `Text` | `split`, `lower`, `capitalize`, slicing and indexing with Python's rules |
| `Numerals` | `str(int(...))` on digit strings, zero-padded codes |
| `StrOrder`, `Sorting` | string order, Python's stable `list.sort(key=...)` |
| `Dedupe` | the first-of-each-letter loop of `handle_variations` |
| `Shapes` | the fixed-shape anchored regular expressions and `\d+` |
| `DecipherUtils` | `utils.py` |
| `BattodoTables`, `DanzanRyuTables` | `common/battodo_mappings.py`, `common/danzan_ryu_mappings.py` |
| `Battodo`, `BattodoCodes` | `battodo.py` and its stem round trips |
| `DanzanRyu`, `DanzanRyuCodes` | `danzan_ryu.py` and its stem round trips |
| `Aikido` | `aikido.py` |
| `DecipherApp` | the decipher's `app.py` |
| `CognitoPool` | the pool and the helpers both Cognito lambdas share |
| `CognitoRest` | the Cognito REST API's `app.py` |
| `PostConfirmation` | the post-confirmation trigger's `app.py` |
| `Billing` | the billing REST API's `app.py` |

## Model

| member | source | states |
|---|---|---|
| Results.Lookup | lambdas/file-name-decipher/battodo.py:43-51 | a dict lookup succeeds exactly when the key is present, with its value; otherwise KeyError naming the key |
| Text.PyIndex | lambdas/file-name-decipher/app.py:23 | `s[i]` succeeds exactly for `-len(s) <= i < len(s)`, counting negative indices from the end; otherwise IndexError |
| Text.Split | lambdas/file-name-decipher/utils.py:108-109 | `split` on one character gives at least one piece, and no piece contains the separator |
| Text.JoinSplit | lambdas/file-name-decipher/utils.py:108-109 | joining the pieces of `split(c)` with `c` gives the string back |
| Text.FirstPiece | lambdas/file-name-decipher/utils.py:109 | `split(c)[0]` is the longest prefix without `c`, ended by `c` or the end of the string |
| Text.LastPiece | lambdas/file-name-decipher/utils.py:108 | `split(c)[-1]` is the longest suffix without `c`, preceded by `c` or the start of the string |
| Text.SplitEnds | lambdas/file-name-decipher/utils.py:108-109 | the first and last elements of `Split` are exactly `FirstPiece` and `LastPiece` |
| Text.Lower | lambdas/file-name-decipher/utils.py:144 | `lower()` keeps the length, maps each character on its own and leaves no ASCII capital |
| Text.Capitalize | lambdas/file-name-decipher/utils.py:132 | `capitalize()` upper-cases the first character and lower-cases the rest |
| Text.PyPrefix | lambdas/file-name-decipher/utils.py:120 | `s[:n]` with clamping: the first `n` characters, the whole string past the end, `len + n` of them for negative `n` |
| Text.PySuffix | lambdas/file-name-decipher/utils.py:121 | `s[n:]` with the same clamping rules |
| Numerals.NatToString | lambdas/billing-rest-api/app.py:58 | `str(n)` is a non-empty digit string with no leading zero unless `n` is 0 |
| Numerals.ValueOfNatToString | lambdas/billing-rest-api/app.py:58 | reading `str(n)` back gives `n` |
| Numerals.CanonicalStripsZeros | lambdas/file-name-decipher/battodo.py:54-65 | `str(int(s))` on a digit string drops its leading zeros, keeping one digit |
| Numerals.CanonicalRoundTrip | lambdas/file-name-decipher/battodo.py:54-65 | a numeral without a leading zero is what `str` prints for its value |
| Numerals.TwoDigitsRoundTrip | lambdas/file-name-decipher/battodo.py:54-65 | a zero-padded two-digit code reads back as its number, and `str(int(...))` of it is the unpadded number |
| Numerals.StripLeadingZeros | lambdas/file-name-decipher/battodo.py:64 | the result is a suffix of the input, non-empty for non-empty input, with no leading zero unless it is a single digit |
| Sorting.SortBy | lambdas/file-name-decipher/utils.py:147-155 | `list.sort(key=...)` is a permutation of its input, sorted by key |
| Sorting.SortByStable | lambdas/file-name-decipher/utils.py:154 | Python's sort is stable: the elements with any one key keep their relative order |
| Sorting.SortBySorted | lambdas/file-name-decipher/utils.py:154 | sorting an already sorted list changes nothing |
| Sorting.SortByMembers | lambdas/file-name-decipher/utils.py:154 | sorting keeps exactly the same elements |
| Sorting.SortByDistinct | lambdas/file-name-decipher/utils.py:99 | sorting never makes two elements share a variation letter |
| Sorting.ReplaceOrAppendBy | lambdas/file-name-decipher/utils.py:195-204 | when some element has the new element's key, every such element is replaced and the length kept; otherwise the new element is appended |
| Sorting.ReplaceOrAppendContents | lambdas/file-name-decipher/utils.py:195-204 | afterwards the new element is present and alone with its key; every other element is an old one with another key, and every such old element stays |
| Sorting.SortedReplaceContents | lambdas/file-name-decipher/utils.py:195-206 | the same contents and length hold after the final sort |
| Sorting.ReplaceOrAppendPresent | lambdas/file-name-decipher/utils.py:195-204 | replacing with an element that is already alone with its key changes nothing |
| Dedupe.DedupBy | lambdas/file-name-decipher/utils.py:87-97 | the elements kept have pairwise distinct letters, none of them already seen; the loop fails exactly when some element has no letter |
| Dedupe.DedupByMembers | lambdas/file-name-decipher/utils.py:91-97 | the elements kept are exactly those at the positions where a letter occurs for the first time |
| Dedupe.DedupBySubset | lambdas/file-name-decipher/utils.py:91-97 | every element kept comes from the input |
| Shapes.Match | lambdas/file-name-decipher/battodo.py:37-40 | an anchored fixed-shape `findall` finds a match exactly when the string fits the pattern, and then returns each group's characters |
| Shapes.CapturedDigits | lambdas/file-name-decipher/battodo.py:60-61 | a group made of `[0-9]` positions captures a string of digits |
| Shapes.FirstDigitRun | lambdas/file-name-decipher/danzan_ryu.py:189 | `findall(r"\d+", s)[0]` succeeds exactly when `s` has a digit; otherwise IndexError |
| Shapes.FirstDigitRunSpec | lambdas/file-name-decipher/danzan_ryu.py:189 | the run found is non-empty and all digits, with no digit before it and none right after it |
| Shapes.FirstDigitRunOf | lambdas/file-name-decipher/danzan_ryu.py:246-248 | with a digit-free prefix and a non-digit after, the first run of digits is read back exactly (inverse of the writer) |
| DecipherUtils.ItemMatches | lambdas/file-name-decipher/utils.py:41 | the chained `item[l] == v and ...` is true exactly when every pair holds; it cannot fail when every label is present; otherwise the KeyError names a missing label |
| DecipherUtils.FindFrom | lambdas/file-name-decipher/utils.py:40-43 | the loop returns the first matching offset at or after `start`; when every item has the labels, it fails exactly when none matches, with the not-found message |
| DecipherUtils.FindOffset | lambdas/file-name-decipher/utils.py:59-62 | the offset returned is the least matching index; when every item has the labels, it fails exactly when none matches |
| DecipherUtils.FindOne | lambdas/file-name-decipher/utils.py:14-26 | the first item whose `label1` is `value1`; no earlier item matches; when every item has the label, failure means no item matches, with the message naming label and value |
| DecipherUtils.FindTwo | lambdas/file-name-decipher/utils.py:29-43 | the first item matching both pairs; when every item has both labels, failure means no item matches |
| DecipherUtils.FindThree | lambdas/file-name-decipher/utils.py:46-62 | the first item matching all three pairs; when every item has all labels, failure means no item matches |
| DecipherUtils.FindIsQuery | lambdas/file-name-decipher/utils.py:14-62 | the three `find_*` functions are the one-, two- and three-pair queries run by `Find` |
| DecipherUtils.Find | lambdas/file-name-decipher/utils.py:59-62 | running a query gives the least matching offset; when every item has the labels, it fails exactly when none matches |
| DecipherUtils.GetFileStub | lambdas/file-name-decipher/utils.py:102-109 | the file stub contains neither `/` nor `.` |
| DecipherUtils.GetFileStubPlace | lambdas/file-name-decipher/utils.py:102-109 | the stub occurs right after the last `/` (or at the start) and ends at a `.` or at the end of the URL |
| DecipherUtils.GetFileStubIsSplit | lambdas/file-name-decipher/utils.py:108-109 | the stub is `split("/")[-1].split(".")[0]` |
| DecipherUtils.StubLetter | lambdas/file-name-decipher/utils.py:65-72 | the stub letter exists exactly when the file stub is non-empty and is its last character; an empty stub raises IndexError |
| DecipherUtils.RemoveChar | lambdas/file-name-decipher/utils.py:112-122 | for an index inside the string exactly that one character is removed; past the end the string is unchanged |
| DecipherUtils.RemoveCharInverse | lambdas/file-name-decipher/utils.py:112-122 | putting the removed character back at `n` restores the string |
| DecipherUtils.CamelPiece | lambdas/file-name-decipher/utils.py:132 | an empty piece becomes `_` (the `or "_"`); any other piece is capitalized |
| DecipherUtils.CamelCaseDropsUnderscores | lambdas/file-name-decipher/utils.py:125-132 | with no empty piece, camel casing only drops the underscores and changes case: lower-cased, it is the input without `_` |
| DecipherUtils.ConcatSplit | lambdas/file-name-decipher/utils.py:132 | concatenating the `split` pieces gives the string without its separators |
| DecipherUtils.LStripControls | lambdas/file-name-decipher/utils.py:142 | `urlparse` first strips leading control characters and spaces: the result is a suffix of the input starting with a printable character |
| DecipherUtils.CleanUrl | lambdas/file-name-decipher/utils.py:142 | after the strip no tab, CR or LF is left; a URL without them is only stripped |
| DecipherUtils.CleanUrlKeeps | lambdas/file-name-decipher/utils.py:142 | every character other than tab, CR and LF is kept as often as it occurs after the strip |
| DecipherUtils.SplitScheme | lambdas/file-name-decipher/utils.py:142 | what remains after the scheme is a suffix of the URL; without a scheme it is the whole URL |
| DecipherUtils.SchemeSplitOff | lambdas/file-name-decipher/utils.py:142 | a scheme is split off only at a first `:` preceded by a letter and scheme characters; it is that prefix lower-cased and the rest follows the colon |
| DecipherUtils.SchemeFound | lambdas/file-name-decipher/utils.py:142 | conversely, wherever such a scheme ends, it is the one split off |
| DecipherUtils.NetlocEnd | lambdas/file-name-decipher/utils.py:142 | the host ends at the first `/`, `?` or `#` after it, or at the end |
| DecipherUtils.SplitUrl | lambdas/file-name-decipher/utils.py:142 | the scheme is the one split off the cleaned URL; the path holds no `#`, `?` or newline |
| DecipherUtils.SplitUrlPath | lambdas/file-name-decipher/utils.py:142 | the path is the run of the URL after the scheme that starts after the `//` netloc (or at once without one) and stops at the first `?` or `#` or the end |
| DecipherUtils.SplitUrlOf | lambdas/file-name-decipher/utils.py:142 | `scheme://host/path?query#fragment` gives the lower-cased scheme and exactly `/path` |
| DecipherUtils.Segment | lambdas/file-name-decipher/utils.py:142 | the last segment holds no `/`, and no `;` when params are split off |
| DecipherUtils.SegmentPlace | lambdas/file-name-decipher/utils.py:142 | the segment is the text after the path's last `/`, running to the end, or, when params are split off, to the first `;` |
| DecipherUtils.SegmentIsLastPiece | lambdas/file-name-decipher/utils.py:142 | that segment is `split("/")[-1]` of the path, cut at its first `;` when params are split off |
| DecipherUtils.PathName | lambdas/file-name-decipher/utils.py:142 | the file name holds no `/`, `#`, `?` or newline, and no `;` for a scheme that uses params |
| DecipherUtils.PathNamePlace | lambdas/file-name-decipher/utils.py:142 | the file name is the text of the `urlparse` path after its last `/`, up to a `;` for schemes that use params and to the end otherwise |
| DecipherUtils.Stem | lambdas/file-name-decipher/utils.py:144 | `Path(name).stem` is a prefix of the name; it is the whole name exactly when the name ends in `.` or has no inner dot; otherwise it stops at the last dot |
| DecipherUtils.GetStub | lambdas/file-name-decipher/utils.py:135-144 | the stub holds no `/`, `#`, `?`, newline or ASCII capital |
| DecipherUtils.GetStubOfUrl | lambdas/file-name-decipher/utils.py:135-144 | for `scheme://host/dir/name;params?query#fragment` the stub is the lower-cased `name` without its final extension: scheme, host, directories, params, query and fragment do not matter |
| DecipherUtils.GetStubOfName | lambdas/file-name-decipher/utils.py:135-144 | for a bare file name, the stub is the lower-cased name without its final extension |
| DecipherUtils.ExtractStubList | lambdas/file-name-decipher/utils.py:169-181 | one stub per URL, position by position |
| DecipherUtils.SortUrlByStub | lambdas/file-name-decipher/utils.py:147-155 | a permutation of the URLs, sorted by stub |
| DecipherUtils.HandleVariations | lambdas/file-name-decipher/utils.py:75-99 | an empty list becomes `[url]`; otherwise it fails exactly when some stub is empty (IndexError); the result holds the new URL and only old URLs, has distinct stub letters and is sorted by stub |
| DecipherUtils.Merge | lambdas/file-name-decipher/utils.py:89-99 | the new URL in front of the kept ones, sorted: exactly those URLs, letters distinct, sorted by stub |
| DecipherUtils.HandleVariationsMembers | lambdas/file-name-decipher/utils.py:86-99 | the merged list is the new URL plus exactly the first current URL of each other stub letter |
| DecipherUtils.HandleVariationsReplacesLetter | lambdas/file-name-decipher/utils.py:87-97 | no URL other than the new one keeps the new URL's stub letter |
| DecipherUtils.UpdateVariations | lambdas/file-name-decipher/utils.py:195-206 | the updated list is a permutation of the replace-or-append result, sorted by stub |
| DecipherUtils.UpdateVariationsContents | lambdas/file-name-decipher/utils.py:195-206 | the new URL is present and alone with its stub; every other URL is an old one with another stub, and all of those stay; the length grows by one exactly when the stub was new |
| DecipherUtils.UpdateVariationsIdempotent | lambdas/file-name-decipher/utils.py:184-206 | adding the same URL a second time changes nothing |
| DecipherUtils.ResetTechniqueList | lambdas/file-name-decipher/utils.py:211-222 | `Variations` becomes the empty list and every other field is kept |
| DecipherUtils.UpdateTechniqueList | lambdas/file-name-decipher/utils.py:184-208 | fails exactly when `Variations` is missing (KeyError) or not a list; otherwise only `Variations` changes, to the updated list |
| DecipherUtils.HandleTechniqueList | lambdas/file-name-decipher/utils.py:225-238 | a stem ending in the reset letter empties the list; any other stem adds the URL; no other field changes |
| DecipherUtils.QueriedRecord | lambdas/file-name-decipher/battodo.py:530-534 | a status other than 200 fails "Database query failed", an empty result the scroll's not-found message; otherwise the first record |
| DecipherUtils.SetVariations | lambdas/file-name-decipher/battodo.py:536-542 | an offset past the end raises IndexError and a missing `Variations` KeyError; on an existing list it succeeds exactly when `handle_variations` does, with its error otherwise; on success only that item's `Variations` changes, to `handle_variations` of the old list, and it holds the URL |
| BattodoTables.ScrollDictLetters | common/battodo_mappings.py:6-20 | the scroll table has exactly the keys `a` to `m`, with `a` toyama_ryu, `b` tameshigiri, `m` formalities |
| BattodoTables.ScrollLetter | common/battodo_mappings.py:6-20 | a key names a scroll exactly when it is one letter from `a` to `m` |
| BattodoTables.RanksHaveTechniques | common/battodo_mappings.py:128-150 | every tameshigiri rank code names a rank with a non-empty technique list; sample entries |
| BattodoTables.KataCodes | common/battodo_mappings.py:88-106 | kata codes are 01 to 06 and kata technique codes 01 to 08, with sample names |
| BattodoTables.ScrollDictKeys | common/battodo_mappings.py:6-20 | every scroll key is one lower-case letter |
| BattodoTables.KataNameKeys | common/battodo_mappings.py:88-95 | every kata key is a two-digit code |
| BattodoTables.TameshigiriRankKeys | common/battodo_mappings.py:128-138 | every rank key is a two-digit code |
| Battodo.ScrollName | lambdas/file-name-decipher/battodo.py:43-51 | the scroll the letter names, or KeyError for a letter not in the table |
| Battodo.ScrollNameLetters | lambdas/file-name-decipher/battodo.py:43-51 | the lookup succeeds exactly for the single letters `a` to `m`; sample letters |
| Battodo.RequireParts | lambdas/file-name-decipher/battodo.py:37-40 | an empty match raises the error naming scroll and stem; otherwise the captures pass through |
| Battodo.NumberedQuery | lambdas/file-name-decipher/battodo.py:54-79 | succeeds exactly when the stem fits `^c([0-9]{2})([a-y]{1})$` (or the `e`/`f` form); the `Number` is the code without its leading zero |
| Battodo.SandanSabakiQuery | lambdas/file-name-decipher/battodo.py:82-115 | a stem that does not fit is rejected; then the cut letter and the footwork letter are looked up in that order, each KeyError naming its letter; success gives the two names |
| Battodo.SuburiQuery | lambdas/file-name-decipher/battodo.py:416-435 | dispatches each Suburi scroll to its handler, any other name is rejected with the Suburi message |
| Battodo.ShodanNoWazaQuery | lambdas/file-name-decipher/battodo.py:142-163 | fits-or-rejected; the defense letter must be in its table; success gives set number and defense |
| Battodo.SandanNoWazaSetOneQuery | lambdas/file-name-decipher/battodo.py:166-176 | only the set number is read; success exactly when the stem fits `^h([0-9]{2}).*$` |
| Battodo.SandanNoWazaSetTwoQuery | lambdas/file-name-decipher/battodo.py:179-203 | fits-or-rejected; technique letter then level letter looked up in that order; success gives set, level and name |
| Battodo.SandanNoWazaQuery | lambdas/file-name-decipher/battodo.py:206-223 | set code `01` gives set one, `02` set two, any other code the unknown-set error |
| Battodo.RandoriOkudenQuery | lambdas/file-name-decipher/battodo.py:226-248 | fits-or-rejected; the technique letter must be in its table; success gives set and technique |
| Battodo.NidanTsukiCase | lambdas/file-name-decipher/battodo.py:283-286 | the Tsuki level table is used exactly for stems starting `j01i` |
| Battodo.NidanNoWazaQuery | lambdas/file-name-decipher/battodo.py:251-293 | fits-or-rejected; technique, then level from the Tsuki table (set one's Tsuki) or the common table; success gives set, level and name |
| Battodo.KumitachiQuery | lambdas/file-name-decipher/battodo.py:438-457 | dispatches each Kumitachi scroll to its handler, any other name is rejected with the Kumitachi message |
| Battodo.KataQuery | lambdas/file-name-decipher/battodo.py:296-317 | fits-or-rejected; succeeds exactly when the raw two-digit code is a kata code, giving its name |
| Battodo.BattohoQuery | lambdas/file-name-decipher/battodo.py:320-351 | fits-or-rejected; technique code then level code looked up in that order; success gives level and name |
| Battodo.ToyamaRyuQuery | lambdas/file-name-decipher/battodo.py:354-376 | fits-or-rejected; technique code then art code; success gives art and name |
| Battodo.KataScrollQuery | lambdas/file-name-decipher/battodo.py:460-477 | dispatches each Kata scroll to its handler, any other name is rejected with the Kata message |
| Battodo.TameshigiriTechniqueOf | lambdas/file-name-decipher/battodo.py:388-397 | technique `n` counted from 1; through Python's `[n - 1]`, 0 picks the last one; out of range IndexError; unknown rank KeyError |
| Battodo.TameshigiriQuery | lambdas/file-name-decipher/battodo.py:379-413 | fits-or-rejected; rank code must be known; succeeds exactly when the technique number selects a technique of that rank |
| Battodo.FormalitiesQuery | lambdas/file-name-decipher/battodo.py:480-491 | succeeds exactly when the stem fits `^m([0-9]{2})[a-z]$`; the `Number` is the code without its leading zero |
| Battodo.ScrollQuery | lambdas/file-name-decipher/battodo.py:494-515 | each of the thirteen scrolls goes to its group's handler; any other name is rejected |
| Battodo.ScrollRejected | lambdas/file-name-decipher/battodo.py:494-515 | a scroll name gets the "Invalid Battodo scroll" error exactly when it is not one of the thirteen |
| Battodo.ScrollFailures | lambdas/file-name-decipher/battodo.py:416-491 | an accepted scroll fails only with a stem error: KeyError for a missing code, IndexError for an index out of range, or a RuntimeError whose message starts with "Invalid Battodo file stem for " (no fit) or "Kumitachi Sandan No Waza unknown set number: " |
| Battodo.ScrollLettersAccepted | lambdas/file-name-decipher/battodo.py:494-515 | the scrolls the letter table can name are exactly the scrolls the dispatcher accepts |
| Battodo.LeadLettersAgree | lambdas/file-name-decipher/battodo.py:494-515 | the pattern of the scroll a letter names expects that same letter at the head of the stem |
| Battodo.BadStemRejected | lambdas/file-name-decipher/battodo.py:37-40 | for every accepted scroll, a stem that does not fit its pattern is rejected with the scroll's name |
| Battodo.PickScrollHandler | lambdas/file-name-decipher/battodo.py:494-515 | stem errors pass through; the offset found is the first item matching the decoded query; with labels present it succeeds exactly when some item matches |
| Battodo.UpdateDdb | lambdas/file-name-decipher/battodo.py:518-543 | query status, then empty result, then stem errors, in that order; past them the result is the write of the picked item's variations; on success exactly the located item's variations change, and they hold the URL |
| Battodo.UpdateDdbWrites | lambdas/file-name-decipher/battodo.py:518-543 | a stem whose query matches an item of the first record writes that (first matching) item's variations |
| Battodo.HandleBattodo | lambdas/file-name-decipher/battodo.py:546-561 | an empty stub is rejected, a first letter outside `a`–`m` raises KeyError; otherwise an `update_ddb` error passes through, an unacknowledged write fails "Failed to update the database", and an acknowledged one returns the `update_ddb` result |
| BattodoCodes.NumberFieldOf | lambdas/file-name-decipher/battodo.py:161 | a zero-padded number field reads back as its number |
| BattodoCodes.NumberedRoundTrip | lambdas/file-name-decipher/battodo.py:54-79 | a `c`/`e`/`f` stem written from a number decodes to that number |
| BattodoCodes.SandanSabakiRoundTrip | lambdas/file-name-decipher/battodo.py:102-115 | a `g` stem written from a cut and a footwork code decodes to their names |
| BattodoCodes.ShodanNoWazaRoundTrip | lambdas/file-name-decipher/battodo.py:152-163 | a `d` stem decodes to its set number and defense |
| BattodoCodes.SandanNoWazaSetOneRoundTrip | lambdas/file-name-decipher/battodo.py:206-223 | any `h01` stem on one line decodes to set one |
| BattodoCodes.SandanNoWazaSetTwoRoundTrip | lambdas/file-name-decipher/battodo.py:189-223 | an `h02` stem decodes to set two, its technique and level |
| BattodoCodes.RandoriOkudenRoundTrip | lambdas/file-name-decipher/battodo.py:236-248 | an `i` stem decodes to its set number and technique |
| BattodoCodes.NidanNoWazaRoundTrip | lambdas/file-name-decipher/battodo.py:271-293 | a `j` stem decodes to set, technique and level, the level read from the table the source chooses |
| BattodoCodes.KataRoundTrip | lambdas/file-name-decipher/battodo.py:306-317 | a `k` stem decodes to its kata's name |
| BattodoCodes.BattohoRoundTrip | lambdas/file-name-decipher/battodo.py:339-351 | an `l` stem decodes to its level and technique |
| BattodoCodes.ToyamaRyuRoundTrip | lambdas/file-name-decipher/battodo.py:364-376 | an `a` stem decodes to its art and technique |
| BattodoCodes.TameshigiriRoundTrip | lambdas/file-name-decipher/battodo.py:400-413 | a `b` stem decodes to its rank and the technique numbered from 1 |
| BattodoCodes.TameshigiriZeroIsLast | lambdas/file-name-decipher/battodo.py:388-397 | technique number `00` selects the rank's last technique |
| BattodoCodes.FormalitiesRoundTrip | lambdas/file-name-decipher/battodo.py:480-491 | an `m` stem decodes to its number |
| DanzanRyuTables.ScrollLetter | common/danzan_ryu_mappings.py:6-33 | a key names a scroll exactly when it is one letter from `a` to `z` |
| DanzanRyuTables.TableKeys | common/danzan_ryu_mappings.py:35-63 | the weapon, kdm, goshin and drill-group tables have exactly their listed keys |
| DanzanRyu.ScrollName | lambdas/file-name-decipher/danzan_ryu.py:27-35 | the scroll the letter names, or KeyError |
| DanzanRyu.ScrollNameLetters | lambdas/file-name-decipher/danzan_ryu.py:27-35 | the lookup succeeds exactly for the single letters `a` to `z` |
| DanzanRyu.At | lambdas/file-name-decipher/danzan_ryu.py:113-115 | `s[i]` succeeds exactly below the length, else IndexError |
| DanzanRyu.BasicWeaponsQuery | lambdas/file-name-decipher/danzan_ryu.py:104-118 | succeeds exactly when the stem has three characters; set and number are the next two characters |
| DanzanRyu.CodedQuery | lambdas/file-name-decipher/danzan_ryu.py:121-177 | a short stem raises IndexError, an unknown code letter KeyError, in the source's order; success gives the table entry and the number character |
| DanzanRyu.ShimeQuery | lambdas/file-name-decipher/danzan_ryu.py:150-162 | succeeds exactly when the stem has three characters; ground-flow number and number by position |
| DanzanRyu.DaitoNoMakiQuery | lambdas/file-name-decipher/danzan_ryu.py:180-191 | succeeds exactly when the stem has two characters and a digit; group by position, number the first run of digits |
| DanzanRyu.ShimeGroundflowQuery | lambdas/file-name-decipher/danzan_ryu.py:194-204 | succeeds exactly when the stem has two characters; the number is the second |
| DanzanRyu.KatsuKappoQuery | lambdas/file-name-decipher/danzan_ryu.py:207-218 | succeeds exactly when the stem has a digit; section is the first two digits of the first run, number its last digit |
| DanzanRyu.DrillsQuery | lambdas/file-name-decipher/danzan_ryu.py:221-235 | a stem that does not fit raises IndexError, an unknown group KeyError; success gives group name and unpadded set and number |
| DanzanRyu.SimpleTableQuery | lambdas/file-name-decipher/danzan_ryu.py:238-249 | succeeds exactly when a digit follows the scroll letter; the number is the first run, zeros kept |
| DanzanRyu.ScrollQuery | lambdas/file-name-decipher/danzan_ryu.py:252-281 | each named scroll goes to its handler, every other scroll to the simple-table handler; only IndexError and KeyError can occur |
| DanzanRyu.PickScrollHandler | lambdas/file-name-decipher/danzan_ryu.py:252-281 | stem errors pass through; the offset is the first item matching; with labels present it succeeds exactly when some item matches |
| DanzanRyu.UpdateDdb | lambdas/file-name-decipher/danzan_ryu.py:284-309 | query status, empty result, stem errors in that order; past them the result is the write of the picked item's variations; on success only the located item's variations change, and they hold the URL |
| DanzanRyu.UpdateDdbWrites | lambdas/file-name-decipher/danzan_ryu.py:284-309 | a stem whose query matches an item of the first record writes that (first matching) item's variations |
| DanzanRyu.HandleDanzanRyu | lambdas/file-name-decipher/danzan_ryu.py:312-325 | a file stub under two characters raises IndexError, an unknown scroll letter KeyError; otherwise an `update_ddb` error (for the scroll named by the second character) passes through, an unacknowledged write fails "Failed to update the database", and an acknowledged one returns the `update_ddb` result |
| DanzanRyuCodes.DrillsRoundTrip | lambdas/file-name-decipher/danzan_ryu.py:221-235 | a `p` stem written from a group code and two numbers decodes to the group's name and the numbers |
| DanzanRyuCodes.SimpleTableKeepsZeros | lambdas/file-name-decipher/danzan_ryu.py:238-249 | a simple-table stem decodes to its number exactly as written, zeros kept |
| DanzanRyuCodes.KatsuKappoRoundTrip | lambdas/file-name-decipher/danzan_ryu.py:207-218 | a three-digit run decodes to its two-digit section and one-digit number |
| DanzanRyuCodes.CodedRoundTrip | lambdas/file-name-decipher/danzan_ryu.py:121-177 | a coded stem decodes to the code's table entry and the number character |
| Aikido.ParseInt | lambdas/file-name-decipher/aikido.py:34 | `int(s)` on captured text succeeds exactly on a non-empty digit string, and `str` of the value is the string without leading zeros; otherwise ValueError |
| Aikido.TechniqueQuery | lambdas/file-name-decipher/aikido.py:21-39 | unknown scroll KeyError; no match and several matches each fail with their own message; success exactly for one all-digit match, the `Number` without leading zeros |
| Aikido.LocateTechnique | lambdas/file-name-decipher/aikido.py:21-39 | errors pass through; the offset is the first matching item; with labels present it succeeds exactly when some item matches |
| Aikido.ScrollOf | lambdas/file-name-decipher/aikido.py:79-83 | a stub not fitting `^a([0-9]{2}).*$` is rejected; the scroll is the table entry of the two digits' value, KeyError when absent |
| Aikido.ScrollOfRoundTrip | lambdas/file-name-decipher/aikido.py:80-83 | a stub written as `a`, a padded scroll number and one line of text selects that scroll |
| Aikido.UpdateDdb | lambdas/file-name-decipher/aikido.py:42-67 | query status, empty result, pattern errors in that order; past them the result is the write of the located item's variations; on success only the located item's variations change, and they hold the URL |
| Aikido.UpdateDdbWrites | lambdas/file-name-decipher/aikido.py:42-67 | a stem whose pattern query matches an item of the first record writes that (first matching) item's variations |
| Aikido.HandleAikido | lambdas/file-name-decipher/aikido.py:70-87 | scroll errors pass through; otherwise an `update_ddb` error passes through, an unacknowledged write fails "Failed to update the database", and an acknowledged one returns the `update_ddb` result |
| DecipherApp.ExtractFileUrl | lambdas/file-name-decipher/app.py:16-36 | no record raises IndexError; Complete gives the message's `hlsUrl`, Direct the message, Ingest nothing, any other subject the unknown-type error, tried in that order |
| DecipherApp.ArtOf | lambdas/file-name-decipher/app.py:53-61 | `d`, `b` and `a` as the first letter name Danzan Ryu, Battodo and Aikido, each exactly |
| DecipherApp.Route | lambdas/file-name-decipher/app.py:48-63 | no URL or an empty one does nothing; a non-empty extracted URL whose stub names an art is dispatched to that art; an error is an extraction error or an unknown first letter |
| DecipherApp.LambdaHandler | lambdas/file-name-decipher/app.py:39-64 | routing errors pass through; nothing is written without a URL; otherwise the result is the chosen art handler's |
| DecipherApp.Written | lambdas/file-name-decipher/app.py:55-61 | the handler's record or its error, unchanged |
| DecipherApp.BattodoOnlyTameshigiri | lambdas/file-name-decipher/battodo.py:554-559 | every URL routed to Battodo has a stub starting `b`, which names `tameshigiri`, so that is the only scroll the lambda updates |
| CognitoPool.EmailsOf | lambdas/cognito-rest-api/app.py:142-144 | the values of exactly the attributes named `email` |
| CognitoPool.ListingsOf | lambdas/cognito-rest-api/app.py:140-146 | one `{user_name, email}` per email attribute of the user, in order |
| CognitoPool.CompileUsers | lambdas/cognito-rest-api/app.py:133-147 | a record is produced exactly for a user of the response and one of its email attributes |
| CognitoPool.CompileUsersAppend | lambdas/cognito-rest-api/app.py:133-147 | compiling a concatenated response is compiling its parts in order |
| CognitoPool.AllEmailsAreListed | lambdas/cognito-rest-api/app.py:275-291 | `compile_emails` is exactly the email column of `compile_users`, position by position |
| CognitoPool.CompileEmails | lambdas/cognito-rest-api/app.py:275-291 | succeeds exactly when some user has an email attribute, giving every email in response order; otherwise "No email addresses found" |
| CognitoPool.ListUsers | lambdas/cognito-rest-api/app.py:150-163 | the users listed are exactly the accounts in the group (all for `list_users`), in pool order |
| CognitoPool.AccountNamed | lambdas/cognito-rest-api/app.py:166-221 | the account with that user name, present exactly when some account has it |
| CognitoPool.Regroup | lambdas/cognito-rest-api/app.py:166-204 | only the named account's groups change, by removing `drop` and adding `add` |
| CognitoPool.DeleteUser | lambdas/cognito-rest-api/app.py:207-221 | exactly the accounts with another name remain |
| CognitoPool.RegroupNamed | lambdas/cognito-rest-api/app.py:166-204 | after a regrouping names stay unique, the named account has its new groups, and every other account is as before |
| CognitoPool.DeleteNamed | lambdas/cognito-rest-api/app.py:207-221 | after a deletion nobody has the name and every other account is as before |
| CognitoPool.DeleteUnique | lambdas/cognito-rest-api/app.py:207-221 | deleting keeps user names unique |
| CognitoRest.FindListing | lambdas/cognito-rest-api/app.py:350-363 | the search loop finds a record exactly when one has the name, and returns the first such record |
| CognitoRest.FindListingAppend | lambdas/cognito-rest-api/app.py:350-363 | searching a concatenation searches the first part, then the second |
| CognitoRest.AbsentNotListed | lambdas/cognito-rest-api/app.py:341-368 | a user absent from the pool has no record in any listing |
| CognitoRest.FindInPool | lambdas/cognito-rest-api/app.py:341-368 | in a pool with unique names the search finds the user's first email when the user is in the group and has one |
| CognitoRest.Act | lambdas/cognito-rest-api/app.py:341-482 | an action succeeds exactly when the user has a record in the action's listing (and, for delete, a non-empty email); it changes the pool by the action's effect, replies and mails the user; otherwise the action's not-found error |
| CognitoRest.ActSucceeds | lambdas/cognito-rest-api/app.py:341-482 | an action succeeds exactly when the user exists, is in the action's group and has an email (non-empty for delete) |
| CognitoRest.ActReply | lambdas/cognito-rest-api/app.py:341-482 | a successful action replies with, and mails, the user's first email |
| CognitoRest.ApplyEffect | lambdas/cognito-rest-api/app.py:341-482 | approve moves the user from `unapproved` to `approved`, promote adds `admin`, deny/close/delete remove the user; names stay unique |
| CognitoRest.ActEffect | lambdas/cognito-rest-api/app.py:341-482 | a successful action implies the user existed and leaves the pool with unique names |
| CognitoRest.ActKeepsOthers | lambdas/cognito-rest-api/app.py:341-482 | no action changes any other user |
| CognitoRest.MissingFields | lambdas/cognito-rest-api/app.py:100-106 | exactly the required fields that are absent or empty, in the order `user`, `user_email`, `admin_email` |
| CognitoRest.SuffixesExclusive | lambdas/cognito-rest-api/app.py:114-130 | no path ends with two of the action suffixes |
| CognitoRest.PostRoute | lambdas/cognito-rest-api/app.py:114-130 | the action is chosen exactly when the path ends with its suffix |
| CognitoRest.HandlePost | lambdas/cognito-rest-api/app.py:94-130 | missing body, invalid JSON and missing fields are refused with 400 in that order; a success ran the routed action and mailed the administrators; with the admin lookup done and a known path it succeeds exactly when the action does; errors are the admin lookup's, an unknown path or the action's not-found |
| CognitoRest.ListHandler | lambdas/cognito-rest-api/app.py:309-338 | the approved records are a permutation of the group listing sorted stably by email; the unapproved records are the listing as is |
| CognitoRest.HandleGet | lambdas/cognito-rest-api/app.py:84-91 | `/list` lists the users, `/list/admin` the administrators' emails, any other path is an error |
| CognitoRest.Handler | lambdas/cognito-rest-api/app.py:485-510 | missing method or path gives 400, OPTIONS 204 before the authorizer check, no authorizer 401, then GET and POST are served and any other method is an error |
| CognitoRest.OnlyAuthorizedPostsChange | lambdas/cognito-rest-api/app.py:485-510 | only an authorized POST to an action path can change the pool or send mail |
| PostConfirmation.InformAdministrators | lambdas/cognito-post-confirmation/app.py:74-94 | one mail to all administrator emails, failing exactly when there is none |
| PostConfirmation.Confirm | lambdas/cognito-post-confirmation/app.py:117-118 | the user is added to `unapproved` and one mail goes to the administrators of the new pool |
| PostConfirmation.Handler | lambdas/cognito-post-confirmation/app.py:97-122 | a missing trigger source or missing user fields raise ValueError; other triggers return the event untouched; a sign-up confirmation confirms the user |
| PostConfirmation.HandlerReturnsEvent | lambdas/cognito-post-confirmation/app.py:97-122 | a handler that returns gives back the event it was given |
| PostConfirmation.ConfirmedIsUnapproved | lambdas/cognito-post-confirmation/app.py:117 | the confirmed user gains `unapproved` and keeps its other groups; no other account changes; names stay unique |
| PostConfirmation.NoticeGoesToAdmins | lambdas/cognito-post-confirmation/app.py:117-118 | the notice goes to the administrators as they were before the confirmation |
| PostConfirmation.SameAdmins | lambdas/cognito-post-confirmation/app.py:58-71 | pools with the same users and the same administrators list the same administrators |
| Billing.SetLeadingZero | lambdas/billing-rest-api/app.py:51-60 | a one-digit number becomes a padded string, any other number stays an integer; below 100 the text is the two-digit code |
| Billing.LeadingZeroRoundTrip | lambdas/billing-rest-api/app.py:51-60 | the padded text reads back as the number |
| Billing.DaysInMonth | lambdas/billing-rest-api/app.py:73 | a month has 28 to 31 days, February 29 exactly in leap years |
| Billing.MonthsFillYear | lambdas/billing-rest-api/app.py:73 | the months' lengths add up to the year's |
| Billing.DayBefore | lambdas/billing-rest-api/app.py:133 | the day before is one ordinal earlier; only 0001-01-01 has none (OverflowError) |
| Billing.PreviousMonth | lambdas/billing-rest-api/app.py:124-136 | the previous month, January going back to December of the year before |
| Billing.MonthEndBeforeNextMonth | lambdas/billing-rest-api/app.py:132-133 | a month's last day is the day right before the first of the next month |
| Billing.MonthPeriod | lambdas/billing-rest-api/app.py:73-76 | the period runs from `YYYY-MM-01` to the month's last day, month zero-padded |
| Billing.ForecastPeriod | lambdas/billing-rest-api/app.py:100-109 | no forecast period on the month's last day; otherwise from today to the month's last day |
| Billing.CostAndUsage | lambdas/billing-rest-api/app.py:63-89 | a failed request is an error, no results zero, otherwise the first result's amount |
| Billing.CostForecast | lambdas/billing-rest-api/app.py:92-121 | zero without a request on the month's last day; otherwise the forecast, or an error for a failed request |
| Billing.RequireAuthorizer | lambdas/billing-rest-api/app.py:31-48 | 401 exactly for an event with a method other than OPTIONS and no authorizer |
| Billing.LambdaHandler | lambdas/billing-rest-api/app.py:151-183 | unauthorized events are refused; otherwise this month's cost, the previous month, last month's cost and the forecast are tried in that order, the first error passes through, and with none the report holds the three amounts |
| Billing.EmptyResultsCostZero | lambdas/billing-rest-api/app.py:85-87 | an account without recorded costs reports zero for both months |

## Left out

- The SDK calls (DynamoDB query and put, Cognito, SES, Cost Explorer) are not modelled as code. The DynamoDB and Cost Explorer responses are parameters, and their status checks are modelled. The Cognito pool is abstract state, and a Cognito or SES call always succeeds in the model. A failure the SDK raises itself is not modelled.
- The `HTTPStatusCode != 200` checks after the Cognito and SES calls are not modelled. Each raises a RuntimeError that the model cannot produce:
  - `cognito-rest-api/app.py:161`: "An error occurred retrieving the users.";
  - `cognito-rest-api/app.py:182`: "Error adding user {user_name} to group {group_name}.";
  - `cognito-rest-api/app.py:202`: "An error occurred removing the user from the group.";
  - `cognito-rest-api/app.py:219`: "An error occurred deleting the user.";
  - `cognito-rest-api/app.py:255`: "An error occurred sending email to {addresses}.";
  - `cognito-rest-api/app.py:270`: "An error occurred retrieving all users.";
  - `cognito-rest-api/app.py:304`: "An error occurred retrieving the admin users.";
  - `cognito-post-confirmation/app.py:36`: "An error occurred adding user {username} to group {group_name}.";
  - `cognito-post-confirmation/app.py:69`: "An error occurred retrieving the admin users.";
  - `cognito-post-confirmation/app.py:93`: "An error occurred sending the email.".
- `get_full_ddb_table_name`, `get_table_handle` and the environment variables that name tables, regions and pools are not modelled: they only locate resources.
- The ddb-backup lambda is not part of this model.
- JSON parsing is a parameter. A body that parses to something other than an object, or an object field that is not a string, is not modelled.
- `urlparse` is simplified. The scheme, netloc, path, query, fragment and `;params` of the last segment are split as Python does (params only for the schemes in `uses_params`), but its checks on the netloc are not modelled:
  - urlsplit raises ValueError "Invalid IPv6 URL" when the netloc has a `[` without a matching `]` or the reverse;
  - Python 3.12 also checks a bracketed host's address and the NFKC form of a non-ASCII netloc, and can raise ValueError.
- GetStub: it never fails in the model, while `urlparse` can raise the ValueErrors above for a malformed netloc.
- `lower()`, `capitalize()` (`Text.Capitalize`) and `\d` are ASCII only in the model; Python applies them to all of Unicode.
- Aikido.ParseInt: `int()` also accepts signs, surrounding whitespace and underscores. The Aikido patterns capture digit runs, so only digit strings are modelled.
- The Aikido scroll and pattern tables are parameters. Their module (`common/aikido_mappings.py`) is not part of this model.
- A missing Aikido scroll number raises KeyError with an integer key. The model shows that key as its decimal string.
- Floating point is left out: `round(float(cost), 2)` is not modelled, and costs are the strings Cost Explorer returns.
- The clock: `datetime.now()` and `date.today()` are one `today` parameter, so the model does not cover a call that runs across midnight.
- CORS headers, logging, `print`, and the JSON encoding of response bodies are not modelled.
- `other_users` in `list_handler` is only logged and is not modelled.
- An earlier side effect is kept when a later step fails:
  - the post-confirmation trigger adds the user to `unapproved` before the administrator lookup can fail;
  - the Cognito REST actions mail the user before the administrators are mailed.

  The model returns only the error in these cases, not the partly changed pool or the mails already sent.
- CognitoPool.ListUsers: it lists every matching account, while `list_users` and `list_users_in_group` are called once without a pagination token (cognito-rest-api/app.py:158, 267, 301 and cognito-post-confirmation/app.py:64) and so see only the first page of results (at most 60 users). The contracts of CognitoRest.Act, CognitoRest.ActSucceeds, CognitoRest.ListHandler, CognitoRest.HandlePost, PostConfirmation.InformAdministrators and PostConfirmation.Confirm therefore match the source only for pools and groups that fit in one page; past it the source reports a user as not found or leaves administrators out.
- Adding a user to a group on a name the pool does not have is a no-op in the model; Cognito raises an error for it.
- `danzan_ryu.py` repeats `get_stub` and `sort_url_by_stub` (lines 81-101). They are the same as `utils.py`'s and are modelled once.
- A `Variations` value that is not a list is a failure in the model, whatever the Python operation would do with it.
- `send_mail` is a `Mail` record: recipients, subject and body. The text body's character set, the source address and the SES response are not modelled.
- Billing.EmptyResultsCostZero: it states only the two month costs, not the forecast's value, because the forecast comes from a separate Cost Explorer response.
- DanzanRyu.ScrollQuery: it does not reject an unknown scroll name, because the source sends every unlisted scroll to the simple-table handler.
