/** Reading a Danzan Ryu stem back: a stem written from curriculum codes makes
    each scroll handler search for exactly the values those codes stand for,
    and the simple-table handler keeps a number's leading zeros. */
module DanzanRyuCodes {
  import opened Results
  import opened Text
  import opened Numerals
  import opened Shapes
  import opened DecipherUtils
  import opened DanzanRyuTables
  import opened DanzanRyu

  /** `p` stems: group code, set number and technique number come back as the
      group's name and the two numbers without padding. */
  lemma {:induction false} DrillsRoundTrip(code: string, setNo: nat, number: nat, v: char)
    requires code in DrillGroups && setNo < 100 && number < 100 && 'a' <= v <= 'y'
    ensures DrillsQuery("p" + code + TwoDigits(setNo) + TwoDigits(number) + [v])
      == Ok(ThreeQuery("Group", DrillGroups[code], "Set", NatToString(setNo), "Number", NatToString(number)))
  {
    DrillGroupCodes();
    DrillsStem(code, TwoDigits(setNo), TwoDigits(number), v);
    TwoDigitsRoundTrip(setNo);
    TwoDigitsRoundTrip(number);
    CanonicalStripsZeros(TwoDigits(setNo));
    CanonicalStripsZeros(TwoDigits(number));
  }

  /** Three two-digit codes and a variation letter after `p` fit the drills
      pattern, each code at its place. */
  lemma DrillsStem(group: string, setCode: string, numberCode: string, v: char)
    requires |group| == 2 && IsDigit(group[0]) && IsDigit(group[1])
    requires |setCode| == 2 && IsDigits(setCode) && |numberCode| == 2 && IsDigits(numberCode)
    requires 'a' <= v <= 'y'
    ensures var stem := "p" + group + setCode + numberCode + [v];
      && Conforms(DrillsShape, stem)
      && stem[1..3] == group && stem[3..5] == setCode && stem[5..7] == numberCode
  {
    var stem := "p" + group + setCode + numberCode + [v];
    assert stem[1..3] == group && stem[3..5] == setCode && stem[5..7] == numberCode;
    assert stem[7] == v && stem[8..] == "";
    assert forall i | 0 <= i < 8 :: InClass(stem[i], DrillsShape.classes[i]) by {
      assert stem[3] == setCode[0] && stem[4] == setCode[1] && stem[5] == numberCode[0] && stem[6] == numberCode[1];
    }
  }

  /** Simple-table stems: the scroll letter, then non-digits, then the number
      as written, zeros and all. */
  lemma {:induction false} SimpleTableKeepsZeros(lead: char, pre: string, digits: string, rest: string)
    requires forall i | 0 <= i < |pre| :: !IsDigit(pre[i])
    requires |digits| > 0 && IsDigits(digits)
    requires rest == "" || !IsDigit(rest[0])
    ensures SimpleTableQuery([lead] + pre + digits + rest) == Ok(OneQuery("Number", digits))
  {
    var stem := [lead] + pre + digits + rest;
    assert stem[1..] == pre + digits + rest;
    FirstDigitRunOf(pre, digits, rest);
    assert IsDigit(stem[1 + |pre|]);
  }

  /** Katsu kappo stems: a three-digit run after non-digits splits into a
      two-digit section and a one-digit number. */
  lemma {:induction false} KatsuKappoRoundTrip(pre: string, section: string, number: char, rest: string)
    requires forall i | 0 <= i < |pre| :: !IsDigit(pre[i])
    requires |section| == 2 && IsDigits(section) && IsDigit(number)
    requires rest == "" || !IsDigit(rest[0])
    ensures KatsuKappoQuery(pre + section + [number] + rest) == Ok(TwoQuery("Section", section, "Number", [number]))
  {
    var run := section + [number];
    assert pre + section + [number] + rest == pre + run + rest;
    FirstDigitRunOf(pre, run, rest);
    assert IsDigit((pre + run + rest)[|pre|]);
    assert run[..2] == section;
  }

  /** Coded stems (`advanced_weapons`, `kdm`, `goshin`): the code letter comes
      back as its table entry and the next character as the number. */
  lemma {:induction false} CodedRoundTrip(table: map<string, string>, field: string, lead: char, code: char, number: char, rest: string)
    requires [code] in table
    ensures CodedQuery(table, field, [lead, code, number] + rest) == Ok(TwoQuery(field, table[[code]], "Number", [number]))
  {
    var stem := [lead, code, number] + rest;
    assert stem[1] == code && stem[2] == number;
  }
}
