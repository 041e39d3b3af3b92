/**
 * Cost-spreading detection (detectCostSpreading in services/aiEngine.ts): a
 * line is a candidate when its description names a year from 2023 to 2029
 * and a period (a month, a quarter or a whole year).
 */
module Spreading {

  import opened Text

  const YEAR_TOKENS: seq<string> := ["2023", "2024", "2025", "2026", "2027", "2028", "2029"]

  /** The alternatives of the period expression, matched case-insensitively. */
  const PERIOD_TOKENS: seq<string> := [
    "jan", "feb", "mar", "apr", "may", "jun", "jul", "aug", "sep", "oct", "nov", "dec",
    "q1", "q2", "q3", "q4", "kwartaal", "jaar", "annual"
  ]

  /** The year expression `202[3-9]` matches at position `i`. */
  predicate YearPatternAt(s: string, i: int)
  {
    0 <= i && i + 4 <= |s| && s[i] == '2' && s[i + 1] == '0' && s[i + 2] == '2' && '3' <= s[i + 3] <= '9'
  }

  /** The year expression matches at `i` exactly when one of the seven year tokens starts there. */
  lemma YearPatternIsYearToken(s: string, i: int)
    ensures YearPatternAt(s, i) <==> exists k :: 0 <= k < |YEAR_TOKENS| && OccursAt(s, YEAR_TOKENS[k], i)
  {
    if YearPatternAt(s, i) {
      var k := s[i + 3] as int - '3' as int;
      assert YEAR_TOKENS[k] == s[i..i + 4];
      assert OccursAt(s, YEAR_TOKENS[k], i);
    }
    if k :| 0 <= k < |YEAR_TOKENS| && OccursAt(s, YEAR_TOKENS[k], i) {
      var t := s[i..i + 4];
      assert t == YEAR_TOKENS[k];
      assert t[0] == '2' && t[1] == '0' && t[2] == '2' && '3' <= t[3] <= '9';
      assert s[i] == t[0] && s[i + 1] == t[1] && s[i + 2] == t[2] && s[i + 3] == t[3];
    }
  }

  /** The year expression matches somewhere at or after position `i`. */
  function HasYearFrom(s: string, i: nat): (r: bool)
    ensures r <==> exists j :: i <= j && YearPatternAt(s, j)
    decreases |s| - i
  {
    if i + 4 > |s| then false
    else if YearPatternAt(s, i) then true
    else HasYearFrom(s, i + 1)
  }

  /** Some year token occurs in `s`. */
  ghost predicate MentionsYear(s: string)
  {
    exists k :: 0 <= k < |YEAR_TOKENS| && Occurs(s, YEAR_TOKENS[k])
  }

  /** Some period token occurs in the lowercased `s`. */
  ghost predicate MentionsPeriod(s: string)
  {
    exists k :: 0 <= k < |PERIOD_TOKENS| && Occurs(ToLower(s), PERIOD_TOKENS[k])
  }

  lemma HasYearIsMentionsYear(s: string)
    ensures HasYearFrom(s, 0) <==> MentionsYear(s)
  {
    if HasYearFrom(s, 0) {
      var j :| 0 <= j && YearPatternAt(s, j);
      YearPatternIsYearToken(s, j);
      var k :| 0 <= k < |YEAR_TOKENS| && OccursAt(s, YEAR_TOKENS[k], j);
      assert Occurs(s, YEAR_TOKENS[k]);
    }
    if MentionsYear(s) {
      var k :| 0 <= k < |YEAR_TOKENS| && Occurs(s, YEAR_TOKENS[k]);
      var j :| OccursAt(s, YEAR_TOKENS[k], j);
      YearPatternIsYearToken(s, j);
      assert YearPatternAt(s, j);
    }
  }

  /**
   * A description is a cost-spreading candidate exactly when it names a year
   * token and, ignoring case, a period token.
   */
  function DetectCostSpreading(description: string): (r: bool)
    ensures r <==> MentionsYear(description) && MentionsPeriod(description)
  {
    HasYearIsMentionsYear(description);
    HasYearFrom(description, 0) && ContainsAny(ToLower(description), PERIOD_TOKENS)
  }

  /** Every year token starts with '2', so a text without one names no year. */
  lemma NoYearWithoutTwo(s: string)
    requires '2' !in s
    ensures !MentionsYear(s)
  {
    forall j | 0 <= j < |s|
      ensures !YearPatternAt(s, j)
    {
      assert s[j] != '2';
    }
    HasYearIsMentionsYear(s);
  }
}
