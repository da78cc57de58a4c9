/** The handful of Python `str` operations the lambdas use, on `seq<char>`:
    ASCII case mapping, prefix/suffix/infix tests, `split`, `join`, and
    Python's clamping slices and negative indexing. */
module Text {
  import opened Results

  predicate IsDigit(c: char) {
    '0' <= c <= '9'
  }

  predicate IsAsciiLower(c: char) {
    'a' <= c <= 'z'
  }

  predicate IsAsciiUpper(c: char) {
    'A' <= c <= 'Z'
  }

  /** `c.lower()` restricted to ASCII: other characters are left alone. */
  function ToLower(c: char): (r: char)
    ensures IsAsciiUpper(c) ==> IsAsciiLower(r) && r as int == c as int + 32
    ensures !IsAsciiUpper(c) ==> r == c
  {
    if IsAsciiUpper(c) then (c as int + 32) as char else c
  }

  /** `c.upper()` restricted to ASCII. */
  function ToUpper(c: char): (r: char)
    ensures IsAsciiLower(c) ==> IsAsciiUpper(r) && ToLower(r) == c
    ensures !IsAsciiLower(c) ==> r == c
  {
    if IsAsciiLower(c) then (c as int - 32) as char else c
  }

  /** `s.lower()` restricted to ASCII. */
  function Lower(s: string): (r: string)
    ensures |r| == |s|
    ensures forall i | 0 <= i < |s| :: r[i] == ToLower(s[i])
    ensures forall i | 0 <= i < |r| :: !IsAsciiUpper(r[i])
  {
    if |s| == 0 then "" else [ToLower(s[0])] + Lower(s[1..])
  }

  /** Lower-casing cannot introduce a character that is not a lower-case
      letter. */
  lemma {:induction false} LowerNotIn(s: string, c: char)
    requires c !in s && !IsAsciiLower(c)
    ensures c !in Lower(s)
  {
  }

  /** `s.capitalize()` restricted to ASCII: first character upper-cased, the
      rest lower-cased. */
  function Capitalize(s: string): (r: string)
    ensures |r| == |s|
    ensures |s| > 0 ==> r[0] == ToUpper(s[0]) && r[1..] == Lower(s[1..])
  {
    if |s| == 0 then "" else [ToUpper(s[0])] + Lower(s[1..])
  }

  predicate StartsWith(s: string, prefix: string) {
    |prefix| <= |s| && s[..|prefix|] == prefix
  }

  predicate EndsWith(s: string, suffix: string) {
    |suffix| <= |s| && s[|s| - |suffix|..] == suffix
  }

  /** `sub in s`, computed by sliding along `s`. */
  predicate Contains(s: string, sub: string)
    decreases |s|
  {
    StartsWith(s, sub) || (|s| > 0 && Contains(s[1..], sub))
  }

  /** `sub` occurs in `s` starting at offset `i`. */
  predicate OccursAt(s: string, sub: string, i: int) {
    0 <= i <= |s| - |sub| && s[i..i + |sub|] == sub
  }

  /** `Contains` is the usual "occurs at some offset" relation. */
  lemma {:induction false} ContainsIffOccurs(s: string, sub: string)
    ensures Contains(s, sub) <==> exists i :: OccursAt(s, sub, i)
    decreases |s|
  {
    if |s| > 0 {
      ContainsIffOccurs(s[1..], sub);
    }
    forall i | OccursAt(s, sub, i)
      ensures Contains(s, sub)
    {
      if i == 0 {
        assert s[0..|sub|] == s[..|sub|];
      } else {
        assert s[1..][i - 1..i - 1 + |sub|] == s[i..i + |sub|];
        assert OccursAt(s[1..], sub, i - 1);
      }
    }
    if Contains(s, sub) {
      if StartsWith(s, sub) {
        assert OccursAt(s, sub, 0);
      } else {
        var j :| OccursAt(s[1..], sub, j);
        assert s[1..][j..j + |sub|] == s[j + 1..j + 1 + |sub|];
        assert OccursAt(s, sub, j + 1);
      }
    }
  }

  /** Index of the first occurrence of `c` in `s`, if any (`s.find(c)`). */
  function IndexOf(s: string, c: char): (r: Option<nat>)
    ensures r.Some? ==> r.value < |s| && s[r.value] == c && c !in s[..r.value]
    ensures r.None? ==> c !in s
  {
    if |s| == 0 then None
    else if s[0] == c then Some(0)
    else match IndexOf(s[1..], c)
      case None => None
      case Some(i) => Some(i + 1)
  }

  /** Index of the last occurrence of `c` in `s`, if any (`s.rfind(c)`). */
  function LastIndexOf(s: string, c: char): (r: Option<nat>)
    ensures r.Some? ==> r.value < |s| && s[r.value] == c && c !in s[r.value + 1..]
    ensures r.None? ==> c !in s
  {
    if |s| == 0 then None
    else if s[|s| - 1] == c then Some(|s| - 1)
    else
      assert s == s[..|s| - 1] + [s[|s| - 1]];
      LastIndexOf(s[..|s| - 1], c)
  }

  /** `s.split(c)` for a one-character separator. */
  function Split(s: string, c: char): (r: seq<string>)
    ensures |r| >= 1
    ensures forall i | 0 <= i < |r| :: c !in r[i]
    decreases |s|
  {
    match IndexOf(s, c)
    case None => [s]
    case Some(i) => [s[..i]] + Split(s[i + 1..], c)
  }

  /** `sep.join(parts)`. */
  function Join(parts: seq<string>, sep: string): string {
    if |parts| == 0 then ""
    else if |parts| == 1 then parts[0]
    else parts[0] + sep + Join(parts[1..], sep)
  }

  /** `"".join(parts)`. */
  function Concat(parts: seq<string>): string {
    if |parts| == 0 then "" else parts[0] + Concat(parts[1..])
  }

  /** Splitting and re-joining on the same separator gives the input back. */
  lemma {:induction false} JoinSplit(s: string, c: char)
    ensures Join(Split(s, c), [c]) == s
    decreases |s|
  {
    match IndexOf(s, c)
    case None =>
    case Some(i) =>
      var rest := Split(s[i + 1..], c);
      JoinSplit(s[i + 1..], c);
      assert Split(s, c) == [s[..i]] + rest;
      assert (Split(s, c))[1..] == rest;
      assert s == s[..i] + [c] + s[i + 1..];
  }

  /** `s.split(c)[0]`: the longest prefix of `s` without `c`. */
  function FirstPiece(s: string, c: char): (r: string)
    ensures |r| <= |s| && r == s[..|r|]
    ensures c !in r
    ensures |r| == |s| || s[|r|] == c
  {
    match IndexOf(s, c)
    case None => s
    case Some(i) => s[..i]
  }

  /** `s.split(c)[-1]`: the longest suffix of `s` without `c`. */
  function LastPiece(s: string, c: char): (r: string)
    ensures |r| <= |s| && r == s[|s| - |r|..]
    ensures c !in r
    ensures |r| == |s| || s[|s| - |r| - 1] == c
    decreases |s|
  {
    match IndexOf(s, c)
    case None => s
    case Some(i) => LastPiece(s[i + 1..], c)
  }

  /** The first piece is the one prefix without `c` that ends at a `c` or at
      the end. */
  lemma FirstPieceAt(s: string, c: char, n: nat)
    requires n <= |s| && c !in s[..n] && (n == |s| || s[n] == c)
    ensures FirstPiece(s, c) == s[..n]
  {
    var r := FirstPiece(s, c);
    forall j | 0 <= j < n ensures s[j] != c {
      assert s[..n][j] == s[j];
    }
    assert forall j | 0 <= j < |r| :: r[j] != c;
  }

  /** The last piece is the one suffix without `c` that starts after a `c` or
      at the start. */
  lemma LastPieceAt(s: string, c: char, k: nat)
    requires k <= |s| && (k == 0 || s[k - 1] == c) && c !in s[k..]
    ensures LastPiece(s, c) == s[k..]
  {
    var r := LastPiece(s, c);
    var m := |s| - |r|;
    forall j | k <= j < |s| ensures s[j] != c {
      assert s[k..][j - k] == s[j];
    }
    forall j | m <= j < |s| ensures s[j] != c {
      assert s[j] == r[j - m];
    }
  }

  lemma StartsWithLonger(p: string, s: string)
    ensures StartsWith(p + s, p)
  {
    assert (p + s)[..|p|] == p;
  }

  lemma StartsWithTrans(s: string, p: string, q: string)
    requires StartsWith(s, p) && StartsWith(p, q)
    ensures StartsWith(s, q)
  {
    assert s[..|q|] == p[..|q|];
  }

  lemma Associate<T>(a: seq<T>, b: seq<T>, c: seq<T>)
    ensures a + b + c == a + (b + c)
  {
  }

  /** Both pieces lack whatever `s` lacks. */
  lemma PiecesLack(s: string, c: char, d: char)
    requires d !in s
    ensures d !in FirstPiece(s, c) && d !in LastPiece(s, c)
  {
  }

  /** The two pieces agree with the ends of `Split`. */
  lemma {:induction false} SplitEnds(s: string, c: char)
    ensures Split(s, c)[0] == FirstPiece(s, c)
    ensures Split(s, c)[|Split(s, c)| - 1] == LastPiece(s, c)
  {
    SplitLast(s, c);
  }

  lemma {:induction false} SplitLast(s: string, c: char)
    ensures Split(s, c)[|Split(s, c)| - 1] == LastPiece(s, c)
    decreases |s|
  {
    var parts := Split(s, c);
    match IndexOf(s, c)
    case None =>
    case Some(i) =>
      var rest := Split(s[i + 1..], c);
      assert parts == [s[..i]] + rest;
      assert parts[|parts| - 1] == rest[|rest| - 1];
      assert LastPiece(s, c) == LastPiece(s[i + 1..], c);
      SplitLast(s[i + 1..], c);
  }

  /** `s[:n]` with Python's clamping of out-of-range and negative bounds. */
  function PyPrefix<T>(s: seq<T>, n: int): (r: seq<T>)
    ensures 0 <= n <= |s| ==> r == s[..n]
    ensures n > |s| ==> r == s
    ensures n < 0 ==> r == s[..if |s| + n < 0 then 0 else |s| + n]
  {
    if n < 0 then (if |s| + n < 0 then [] else s[..|s| + n])
    else if n > |s| then s
    else s[..n]
  }

  /** `s[n:]` with Python's clamping of out-of-range and negative bounds. */
  function PySuffix<T>(s: seq<T>, n: int): (r: seq<T>)
    ensures 0 <= n <= |s| ==> r == s[n..]
    ensures n > |s| ==> r == []
    ensures n < 0 ==> r == s[if |s| + n < 0 then 0 else |s| + n..]
  {
    if n < 0 then (if |s| + n < 0 then s else s[|s| + n..])
    else if n > |s| then []
    else s[n..]
  }

  /** `s[i]` with Python's negative indexing; out of range raises IndexError. */
  function PyIndex<T>(s: seq<T>, i: int): (r: Result<T>)
    ensures r.Ok? <==> -|s| <= i < |s|
    ensures 0 <= i < |s| ==> r == Ok(s[i])
    ensures -|s| <= i < 0 ==> r == Ok(s[|s| + i])
    ensures r.Err? ==> r.error == IndexError
  {
    if 0 <= i < |s| then Ok(s[i])
    else if -|s| <= i < 0 then Ok(s[|s| + i])
    else Err(IndexError)
  }
}
