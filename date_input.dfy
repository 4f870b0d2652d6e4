/** The due-date input's validation (src/components/ui/DateInput.tsx): which
    strings the input shows, and which it blanks out. Whether the platform's
    date parser accepts a string is a parameter, `parses`. */
module DateInput {

  /** `\d`: an ASCII digit. */
  predicate IsDigit(c: char) {
    '0' <= c <= '9'
  }

  /** `/^\d{4}-\d{2}-\d{2}$/.test(s)` */
  function MatchesDatePattern(s: string): (b: bool)
    ensures b <==> |s| == 10 && forall i :: 0 <= i < |s| ==> (if i == 4 || i == 7 then s[i] == '-' else IsDigit(s[i]))
  {
    && |s| == 10
    && IsDigit(s[0]) && IsDigit(s[1]) && IsDigit(s[2]) && IsDigit(s[3])
    && s[4] == '-'
    && IsDigit(s[5]) && IsDigit(s[6])
    && s[7] == '-'
    && IsDigit(s[8]) && IsDigit(s[9])
  }

  /** `isValidDate`: the empty string, or the date pattern with a parse that
      does not give `NaN`. */
  function IsValidDate(s: string, parses: string -> bool): (b: bool)
    ensures s == "" ==> b
    ensures s != "" ==> (b <==> MatchesDatePattern(s) && parses(s))
  {
    if s == "" then true
    else if !MatchesDatePattern(s) then false
    else parses(s)
  }

  /** `displayValue` */
  function DisplayValue(value: string, parses: string -> bool): (r: string)
    ensures r == value || r == ""
    ensures r == value <==> IsValidDate(value, parses)
  {
    if IsValidDate(value, parses) then value else ""
  }

  /** What the input shows is always valid, and showing it again changes
      nothing. */
  lemma DisplayValueIsValid(value: string, parses: string -> bool)
    ensures IsValidDate(DisplayValue(value, parses), parses)
    ensures DisplayValue(DisplayValue(value, parses), parses) == DisplayValue(value, parses)
  {
  }

  /** Every non-empty string that is not ten characters long is blanked out,
      whatever the parser says. */
  lemma WrongLengthBlanked(value: string, parses: string -> bool)
    requires value != "" && |value| != 10
    ensures DisplayValue(value, parses) == ""
  {
  }

  lemma ShapeExamples(parses: string -> bool)
    ensures !IsValidDate("2024-1-05", parses)
    ensures !IsValidDate("2024/01/05", parses)
    ensures !IsValidDate("05-01-2024", parses)
    ensures IsValidDate("2024-01-05", parses) == parses("2024-01-05")
  {
    assert !MatchesDatePattern("2024/01/05") by {
      assert "2024/01/05"[4] == '/';
    }
    assert !MatchesDatePattern("05-01-2024") by {
      assert "05-01-2024"[2] == '-';
    }
  }

  /** A string of the right shape that does not parse is blanked out. */
  lemma ShapeIsNotEnough(parses: string -> bool)
    requires !parses("2024-02-30")
    ensures DisplayValue("2024-02-30", parses) == ""
    ensures MatchesDatePattern("2024-02-30")
  {
  }
}
