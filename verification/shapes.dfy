/** Recognisers for the decipher lambda's regular expressions. Every pattern it
    uses is anchored (`^...$`) and has a fixed shape: a run of single-character
    classes, some of them captured, optionally followed by `.*`. Such a pattern
    matches at most once, so `re.findall` returns either nothing or one tuple of
    captures; `Match` returns `None` or that tuple.

    Python's `$` (without MULTILINE) matches at the end of the string and also
    just before a newline that ends it, and `.` matches anything but a newline;
    both are kept. `re.findall(r"\d+", s)[0]` is `FirstDigitRun`. */
module Shapes {
  import opened Results
  import opened Text
  import opened Numerals

  /** One character position: a literal, `[0-9]`, `[a-z]` or `[a-y]`. */
  datatype Class = Lit(c: char) | Digit | Letter | LetterToY

  predicate InClass(c: char, k: Class) {
    match k
    case Lit(l) => c == l
    case Digit => IsDigit(c)
    case Letter => 'a' <= c <= 'z'
    case LetterToY => 'a' <= c <= 'y'
  }

  /** What follows the fixed positions: `$` alone, or `.*$`. */
  datatype Tail = End | AnyThenEnd

  /** `classes` are the fixed positions; each group `(lo, hi)` captures
      positions `lo` up to (not including) `hi`. */
  datatype Shape = Shape(classes: seq<Class>, groups: seq<(nat, nat)>, tail: Tail)

  predicate WellFormed(p: Shape) {
    forall g | g in p.groups :: g.0 <= g.1 <= |p.classes|
  }

  predicate NoNewline(s: string) {
    '\n' !in s
  }

  /** What may follow the fixed positions for the tail to match. */
  predicate TailAccepts(t: Tail, rest: string) {
    match t
    case End => rest == "" || rest == "\n"
    case AnyThenEnd =>
      NoNewline(rest) || (NoNewline(rest[..|rest| - 1]) && rest[|rest| - 1] == '\n')
  }

  /** Declarative meaning of "the anchored pattern matches `s`". */
  predicate Conforms(p: Shape, s: string) {
    && |p.classes| <= |s|
    && (forall i | 0 <= i < |p.classes| :: InClass(s[i], p.classes[i]))
    && TailAccepts(p.tail, s[|p.classes|..])
  }

  /** Position-by-position check of the classes against a prefix of `s`. */
  function PrefixFits(classes: seq<Class>, s: string): (r: bool)
    ensures r <==> |classes| <= |s| && forall i | 0 <= i < |classes| :: InClass(s[i], classes[i])
  {
    if |classes| == 0 then true
    else if |s| == 0 then false
    else InClass(s[0], classes[0]) && PrefixFits(classes[1..], s[1..])
  }

  /** The tail check, scanning the rest once. */
  function TailFits(t: Tail, rest: string): (r: bool)
    ensures r <==> TailAccepts(t, rest)
  {
    match t
    case End => rest == "" || rest == "\n"
    case AnyThenEnd =>
      match IndexOf(rest, '\n')
      case None => true
      case Some(i) => i == |rest| - 1
  }

  function Captures(groups: seq<(nat, nat)>, s: string): (r: seq<string>)
    requires forall g | g in groups :: g.0 <= g.1 <= |s|
    ensures |r| == |groups|
    ensures forall i | 0 <= i < |groups| :: r[i] == s[groups[i].0..groups[i].1]
  {
    if |groups| == 0 then [] else [s[groups[0].0..groups[0].1]] + Captures(groups[1..], s)
  }

  /** `re.findall(pattern, s)` for a fixed-shape anchored pattern: `None` for
      the empty list, otherwise the captures of the one match. */
  function Match(p: Shape, s: string): (r: Option<seq<string>>)
    requires WellFormed(p)
    ensures r.Some? <==> Conforms(p, s)
    ensures r.Some? ==> |r.value| == |p.groups|
    ensures r.Some? ==> forall i | 0 <= i < |p.groups| :: r.value[i] == s[p.groups[i].0..p.groups[i].1]
  {
    if PrefixFits(p.classes, s) && TailFits(p.tail, s[|p.classes|..]) then
      Some(Captures(p.groups, s))
    else
      None
  }

  /** Every class of group `i` is `k`. */
  predicate GroupIs(p: Shape, i: int, k: Class) {
    0 <= i < |p.groups| && p.groups[i].0 <= p.groups[i].1 <= |p.classes|
    && forall j | p.groups[i].0 <= j < p.groups[i].1 :: p.classes[j] == k
  }

  /** A group made of `[0-9]` positions captures a digit string. */
  lemma CapturedDigits(p: Shape, s: string, i: int)
    requires WellFormed(p) && Conforms(p, s) && GroupIs(p, i, Digit)
    ensures Match(p, s).Some? && IsDigits(Match(p, s).value[i])
  {
    var g := p.groups[i];
    assert forall j | g.0 <= j < g.1 :: InClass(s[j], p.classes[j]);
  }

  /** `re.findall(r"\d+", s)[0]`: the first maximal run of digits; a string
      without digits makes the `[0]` raise IndexError. */
  function FirstDigitRun(s: string): (r: Result<string>)
    ensures r.Ok? <==> exists i | 0 <= i < |s| :: IsDigit(s[i])
    ensures r.Err? ==> r.error == IndexError
  {
    match DigitStart(s)
    case None => Err(IndexError)
    case Some(i) => Ok(DigitRun(s[i..]))
  }

  /** Offset of the first digit in `s`. */
  function DigitStart(s: string): (r: Option<nat>)
    ensures r.Some? ==> r.value < |s| && IsDigit(s[r.value]) && forall j | 0 <= j < r.value :: !IsDigit(s[j])
    ensures r.None? ==> forall j | 0 <= j < |s| :: !IsDigit(s[j])
  {
    if |s| == 0 then None
    else if IsDigit(s[0]) then Some(0)
    else match DigitStart(s[1..])
      case None => None
      case Some(i) => Some(i + 1)
  }

  /** The longest prefix of `s` made of digits. */
  function DigitRun(s: string): (r: string)
    ensures |r| <= |s| && r == s[..|r|]
    ensures forall j | 0 <= j < |r| :: IsDigit(r[j])
    ensures |r| == |s| || !IsDigit(s[|r|])
  {
    if |s| > 0 && IsDigit(s[0]) then [s[0]] + DigitRun(s[1..]) else ""
  }

  /** The run `FirstDigitRun` returns is non-empty, all digits, preceded only by
      non-digits and not followed by a digit. */
  lemma FirstDigitRunSpec(s: string)
    requires FirstDigitRun(s).Ok?
    ensures var run := FirstDigitRun(s).value;
      exists i ::
        && OccursAt(s, run, i)
        && (forall j | 0 <= j < i :: !IsDigit(s[j]))
        && (i + |run| == |s| || !IsDigit(s[i + |run|]))
    ensures |FirstDigitRun(s).value| > 0
    ensures forall j | 0 <= j < |FirstDigitRun(s).value| :: IsDigit(FirstDigitRun(s).value[j])
  {
    var i := DigitStart(s).value;
    var run := DigitRun(s[i..]);
    assert OccursAt(s, run, i);
  }

  /** A run of digits followed by a non-digit (or nothing) is read back
      whole. */
  lemma {:induction false} DigitRunOf(digits: string, rest: string)
    requires IsDigits(digits)
    requires rest == "" || !IsDigit(rest[0])
    ensures DigitRun(digits + rest) == digits
    decreases |digits|
  {
    if |digits| > 0 {
      DigitRunOf(digits[1..], rest);
      assert (digits + rest)[1..] == digits[1..] + rest;
    } else {
      assert digits + rest == rest;
    }
  }

  /** The first digit of `pre + s` is the first digit of `s` when `pre` has
      none. */
  lemma {:induction false} DigitStartAfter(pre: string, s: string)
    requires forall i | 0 <= i < |pre| :: !IsDigit(pre[i])
    requires |s| > 0 && IsDigit(s[0])
    ensures DigitStart(pre + s) == Some(|pre|)
    decreases |pre|
  {
    if |pre| > 0 {
      DigitStartAfter(pre[1..], s);
      assert (pre + s)[1..] == pre[1..] + s;
    } else {
      assert pre + s == s;
    }
  }

  /** `re.findall(r"\d+", pre + digits + rest)[0]` is `digits` when `pre`
      has no digit and `rest` does not start with one: the inverse of
      `FirstDigitRun`. */
  lemma {:induction false} FirstDigitRunOf(pre: string, digits: string, rest: string)
    requires forall i | 0 <= i < |pre| :: !IsDigit(pre[i])
    requires |digits| > 0 && IsDigits(digits)
    requires rest == "" || !IsDigit(rest[0])
    ensures FirstDigitRun(pre + digits + rest) == Ok(digits)
  {
    var s := pre + digits + rest;
    assert s == pre + (digits + rest);
    DigitStartAfter(pre, digits + rest);
    assert s[|pre|..] == digits + rest;
    DigitRunOf(digits, rest);
  }
}
