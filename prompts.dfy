/**
  The two live prompt templates (prompts.py). Each is one f-string; here it
  is written line by line and joined with newlines, which is the same
  string. Long literal lines are written as several pieces joined with `+`.
  A doubled brace `{{` or `}}` in the f-string is the single literal brace
  written below.
 */
module Prompts {
  import opened Text

  /**
    A piece of template text without a newline. The longer fixed lines of
    both templates are declared with this type, so each is checked on its
    own to stay on one line.
   */
  type Line = s: string | '\n' !in s

  /** Template text with neither a newline nor a brace. */
  type BraceFree = s: string | '\n' !in s && '{' !in s && '}' !in s

  /** A section label: one line, and no colon, so that the first colon of its line follows it. */
  type Label = s: string | '\n' !in s && ':' !in s

  // The fixed lines of `get_variance_prompt`, as they stand in the f-string.
  const ASK_ABOVE: Line := ASK_ABOVE_1 + ASK_ABOVE_2 + ASK_ABOVE_3
  const ASK_ABOVE_1: Line := "    Identify 8 healthy NBA players "
  const ASK_ABOVE_2: Line := "scoring significantly ABOVE their "
  const ASK_ABOVE_3: Line := "season average "
  const ASK_BELOW: Line := ASK_BELOW_1 + ASK_BELOW_2 + ASK_BELOW_3
  const ASK_BELOW_1: Line := "    in the last 2 games and 8 "
  const ASK_BELOW_2: Line := "healthy players scoring "
  const ASK_BELOW_3: Line := "significantly BELOW. "
  const RULE_HEADING: Line := "    MANDATORY FORMATTING RULE:"
  const RULE_TEXT: Line := RULE_TEXT_1 + RULE_TEXT_2 + RULE_TEXT_3
  const RULE_TEXT_1: Line := "    Every player name MUST be "
  const RULE_TEXT_2: Line := "followed by their full team name in "
  const RULE_TEXT_3: Line := "square brackets."
  const RULE_EXAMPLE: Line := RULE_EXAMPLE_1 + RULE_EXAMPLE_2 + RULE_EXAMPLE_3
  const RULE_EXAMPLE_1: Line := "    Example: \"Luka Doncic [Dallas "
  const RULE_EXAMPLE_2: Line := "Mavericks]\" or \"Jayson Tatum "
  const RULE_EXAMPLE_3: Line := "[Boston Celtics]\"."
  const RETURN_ONLY: Line := "    Return ONLY a raw JSON list:"

  /** The example element of the variance prompt, its braces single as Python prints them. */
  const EXAMPLE_OBJECT: Line := "{" + EXAMPLE_FIELDS + "}"
  const EXAMPLE_FIELDS: BraceFree := EXAMPLE_FIELDS_1 + EXAMPLE_FIELDS_2 + EXAMPLE_FIELDS_3 + EXAMPLE_FIELDS_4
  const EXAMPLE_FIELDS_1: BraceFree := "\"p\": \"PLAYER NAME "
  const EXAMPLE_FIELDS_2: BraceFree := "[FULL TEAM NAME]\", "
  const EXAMPLE_FIELDS_3: BraceFree := "\"v\": \"+45%\", \"s\": \"UP\", "
  const EXAMPLE_FIELDS_4: BraceFree := "\"desc\": \"Summary\""

  /** The lines of `get_variance_prompt(date, context_notes)`. */
  function VarianceLines(date: string, contextNotes: string): seq<string>
  {
    [ "",
      ASK_ABOVE,
      ASK_BELOW,
      "    ",
      "    Current Date: " + date,
      "    Context: " + contextNotes,
      "    ",
      RULE_HEADING,
      RULE_TEXT,
      RULE_EXAMPLE,
      "    ",
      RETURN_ONLY,
      "    [",
      "      " + EXAMPLE_OBJECT,
      "    ]",
      "    " ]
  }

  function VariancePrompt(date: string, contextNotes: string): string
  {
    Join(VarianceLines(date, contextNotes), "\n")
  }

  /** An indented `HEADING: text` line. */
  function Labelled(heading: string, text: string): string
  {
    "    " + heading + ": " + text
  }

  /** The `n`-th numbered line of the scout report layout: `n. LABEL: direction`. */
  function Section(n: nat, heading: string, direction: string): string
  {
    Labelled(Decimal(n) + ". " + heading, direction)
  }

  // The fixed text of `get_scout_report_prompt`, as it stands in the f-string.
  const GENERATE: Line := "    Generate a professional scout "
  const REPORT_FOR: Line := "report for the "
  const NO_FILLER: Line := NO_FILLER_1 + NO_FILLER_2 + NO_FILLER_3
  const NO_FILLER_1: Line := "    DO NOT use conversational "
  const NO_FILLER_2: Line := "filler. Format the response EXACTLY "
  const NO_FILLER_3: Line := "as follows:"
  const SUMMARY_TEXT: Line := SUMMARY_TEXT_1 + SUMMARY_TEXT_2
  const SUMMARY_TEXT_1: Line := "A 3-sentence narrative about the "
  const SUMMARY_TEXT_2: Line := "team's current situation."
  const INJURY_TEXT: Line := INJURY_TEXT_1 + INJURY_TEXT_2
  const INJURY_TEXT_1: Line := "Detailed update on absences and "
  const INJURY_TEXT_2: Line := "impact (2 sentences)."
  const LINEUP_TEXT: Line := "Likely lineup based on today's news."
  const FATIGUE_TEXT: Line := FATIGUE_TEXT_1 + FATIGUE_TEXT_2
  const FATIGUE_TEXT_1: Line := "Schedule analysis and "
  const FATIGUE_TEXT_2: Line := "lifestyle/travel factors."
  const MARKET_TEXT: Line := "Trade rumors or internal friction."
  const EDGE_1_TEXT: Line := "Deep dive into team stakes."
  const EDGE_2_TEXT: Line := EDGE_2_TEXT_1 + EDGE_2_TEXT_2
  const EDGE_2_TEXT_1: Line := "The 'hidden' edge against next "
  const EDGE_2_TEXT_2: Line := "opponent."
  const EDGE_3_TEXT: Line := EDGE_3_TEXT_1 + EDGE_3_TEXT_2 + EDGE_3_TEXT_3 + EDGE_3_TEXT_4 + EDGE_3_TEXT_5 + EDGE_3_TEXT_6 + EDGE_3_TEXT_7
  const EDGE_3_TEXT_1: Line := "give me some betting suggestions "
  const EDGE_3_TEXT_2: Line := "for this team against their oponent "
  const EDGE_3_TEXT_3: Line := "ex: feb 5th 2026 senguin's been "
  const EDGE_3_TEXT_4: Line := "heating up scoring higher than "
  const EDGE_3_TEXT_5: Line := "average, i then put a bet for him "
  const EDGE_3_TEXT_6: Line := "to score 15+ points which is pretty "
  const EDGE_3_TEXT_7: Line := "safe."
  const EDGE_4_TEXT: Line := "Most interesting low-odds value bet."
  const EDGE_5_TEXT: Line := EDGE_5_TEXT_1 + EDGE_5_TEXT_2
  const EDGE_5_TEXT_1: Line := "Last 10 games performance vs Spread "
  const EDGE_5_TEXT_2: Line := "and O/U."
  const EDGE_6_TEXT: Line := EDGE_6_TEXT_1 + EDGE_6_TEXT_2
  const EDGE_6_TEXT_1: Line := "Biggest player-specific matchup "
  const EDGE_6_TEXT_2: Line := "advantage."

  // The labels of the ten numbered sections.
  const INJURY_STATUS: Label := "INJURY STATUS"
  const STARTING_5: Label := "STARTING 5"
  const FATIGUE_FACTOR: Label := "FATIGUE FACTOR"
  const MARKET_MOVEMENT: Label := "MARKET MOVEMENT"
  const BETTING_EDGE_1: Label := "BETTING EDGE 1"
  const BETTING_EDGE_2: Label := "BETTING EDGE 2"
  const BETTING_EDGE_3: Label := "BETTING EDGE 3"
  const BETTING_EDGE_4: Label := "BETTING EDGE 4"
  const BETTING_EDGE_5: Label := "BETTING EDGE 5"
  const BETTING_EDGE_6: Label := "BETTING EDGE 6"

  /** The ten numbered sections of the scout report, label and direction, in order. */
  const SCOUT_SECTIONS: seq<(Label, Line)> := [
    (INJURY_STATUS, INJURY_TEXT),
    (STARTING_5, LINEUP_TEXT),
    (FATIGUE_FACTOR, FATIGUE_TEXT),
    (MARKET_MOVEMENT, MARKET_TEXT),
    (BETTING_EDGE_1, EDGE_1_TEXT),
    (BETTING_EDGE_2, EDGE_2_TEXT),
    (BETTING_EDGE_3, EDGE_3_TEXT),
    (BETTING_EDGE_4, EDGE_4_TEXT),
    (BETTING_EDGE_5, EDGE_5_TEXT),
    (BETTING_EDGE_6, EDGE_6_TEXT) ]

  /** The lines of `get_scout_report_prompt(team_name, date, roster_names)`. */
  function ScoutReportLines(teamName: string, date: string, rosterNames: string): seq<string>
  {
    [ "",
      GENERATE + REPORT_FOR + teamName + " on " + date + ".",
      "    ROSTER CONTEXT: " + rosterNames,
      "",
      NO_FILLER,
      "",
      Labelled("SUMMARY", SUMMARY_TEXT) ]
    + NumberedLines()
    + [ "    " ]
  }

  /** The ten numbered lines of the scout report prompt, in order. */
  function NumberedLines(): seq<string>
  {
    seq(|SCOUT_SECTIONS|, i requires 0 <= i < |SCOUT_SECTIONS| => Section(i + 1, SCOUT_SECTIONS[i].0, SCOUT_SECTIONS[i].1))
  }

  function ScoutReportPrompt(teamName: string, date: string, rosterNames: string): string
  {
    Join(ScoutReportLines(teamName, date, rosterNames), "\n")
  }

  lemma ContainsPieces(s: string, line: string, a: string, b: string, c: string, d: string, e: string)
    requires Contains(s, line) && line == a + b + c + d + e
    ensures Contains(s, b) && Contains(s, d)
  {
    var i :| 0 <= i <= |s| && line <= s[i..];
    assert b <= s[i + |a|..];
    assert d <= s[i + |a + b + c|..];
  }

  /** The variance prompt holds `date` and `context_notes` verbatim, whatever they are. */
  lemma VarianceMentions(date: string, contextNotes: string)
    ensures Contains(VariancePrompt(date, contextNotes), date)
    ensures Contains(VariancePrompt(date, contextNotes), contextNotes)
  {
    var ls := VarianceLines(date, contextNotes);
    JoinContainsElement(ls, "\n", 4);
    JoinContainsElement(ls, "\n", 5);
    ContainsPieces(VariancePrompt(date, contextNotes), ls[4], "    Current Date: ", date, "", "", "");
    ContainsPieces(VariancePrompt(date, contextNotes), ls[5], "    Context: ", contextNotes, "", "", "");
  }

  /**
    The scout report prompt holds `team_name`, `date` and `roster_names`
    verbatim, whatever they are.
   */
  lemma ScoutReportMentions(teamName: string, date: string, rosterNames: string)
    ensures Contains(ScoutReportPrompt(teamName, date, rosterNames), teamName)
    ensures Contains(ScoutReportPrompt(teamName, date, rosterNames), date)
    ensures Contains(ScoutReportPrompt(teamName, date, rosterNames), rosterNames)
  {
    var ls := ScoutReportLines(teamName, date, rosterNames);
    var s := ScoutReportPrompt(teamName, date, rosterNames);
    JoinContainsElement(ls, "\n", 1);
    JoinContainsElement(ls, "\n", 2);
    ContainsPieces(s, ls[1], GENERATE + REPORT_FOR, teamName, " on ", date, ".");
    ContainsPieces(s, ls[2], "    ROSTER CONTEXT: ", rosterNames, "", "", "");
  }

  lemma LabelledHeading(heading: string, text: string)
    requires ':' !in heading
    ensures BeforeFirst(Labelled(heading, text), ':') == "    " + heading
  {
    assert Labelled(heading, text) == ("    " + heading) + [':'] + (" " + text);
    BeforeFirstOf("    " + heading, ':', " " + text);
  }

  /**
    With arguments on one line each, the variance prompt splits into its
    sixteen lines: the date and the notes on lines 4 and 5, and the example
    element alone on its line between a `[` line and a `]` line.
   */
  lemma VarianceLayout(date: string, contextNotes: string)
    requires '\n' !in date && '\n' !in contextNotes
    ensures var ls := Lines(VariancePrompt(date, contextNotes));
      && ls == VarianceLines(date, contextNotes)
      && |ls| == 16
      && ls[4] == "    Current Date: " + date
      && ls[5] == "    Context: " + contextNotes
      && ls[12] == "    [" && ls[13] == "      " + EXAMPLE_OBJECT && ls[14] == "    ]"
  {
    VarianceLinesOneLine(date, contextNotes);
    LinesOfJoin(VarianceLines(date, contextNotes));
  }

  lemma VarianceLinesOneLine(date: string, contextNotes: string)
    requires '\n' !in date && '\n' !in contextNotes
    ensures forall i :: 0 <= i < |VarianceLines(date, contextNotes)| ==>
      '\n' !in VarianceLines(date, contextNotes)[i]
  {
    var ls := VarianceLines(date, contextNotes);
    forall i | 0 <= i < |ls| ensures '\n' !in ls[i] {
    }
  }

  /**
    The doubled braces of the f-string leave one `{` and one `}` in the
    example element, at its two ends.
   */
  lemma ExampleObjectBraces()
    ensures EXAMPLE_OBJECT[0] == '{' && EXAMPLE_OBJECT[|EXAMPLE_OBJECT| - 1] == '}'
    ensures CountChar(EXAMPLE_OBJECT, '{') == 1 && CountChar(EXAMPLE_OBJECT, '}') == 1
  {
    forall c | c == '{' || c == '}'
      ensures CountChar(EXAMPLE_OBJECT, c) == 1
    {
      CountCharAbsent(EXAMPLE_FIELDS, c);
      CountCharAppend("{" + EXAMPLE_FIELDS, "}", c);
      CountCharAppend("{", EXAMPLE_FIELDS, c);
    }
  }

  /**
    The scout report prompt splits into eighteen lines: the SUMMARY line
    (line 6), then the lines numbered 1 to 10 in increasing order, in each
    of which the text before the first colon is the ordinal and the fixed
    label.
   */
  lemma ScoutReportLayout(teamName: string, date: string, rosterNames: string)
    requires '\n' !in teamName && '\n' !in date && '\n' !in rosterNames
    ensures var ls := Lines(ScoutReportPrompt(teamName, date, rosterNames));
      && ls == ScoutReportLines(teamName, date, rosterNames)
      && |ls| == 18
      && ls[1] == GENERATE + REPORT_FOR + teamName + " on " + date + "."
      && ls[2] == "    ROSTER CONTEXT: " + rosterNames
      && ls[6] == "    SUMMARY" + ": " + SUMMARY_TEXT && BeforeFirst(ls[6], ':') == "    SUMMARY"
      && (forall k :: 1 <= k <= 10 ==>
            && ls[6 + k] == "    " + Decimal(k) + ". " + SCOUT_SECTIONS[k - 1].0 + ": " + SCOUT_SECTIONS[k - 1].1
            && BeforeFirst(ls[6 + k], ':') == "    " + Decimal(k) + ". " + SCOUT_SECTIONS[k - 1].0)
  {
    ScoutReportLinesOneLine(teamName, date, rosterNames);
    LinesOfJoin(ScoutReportLines(teamName, date, rosterNames));
    ScoutReportHeadings(teamName, date, rosterNames);
  }

  /** The headings of the scout report lines, before they are joined. */
  lemma ScoutReportHeadings(teamName: string, date: string, rosterNames: string)
    ensures var ls := ScoutReportLines(teamName, date, rosterNames);
      && ls[6] == "    SUMMARY" + ": " + SUMMARY_TEXT && BeforeFirst(ls[6], ':') == "    SUMMARY"
      && (forall k :: 1 <= k <= 10 ==>
            && ls[6 + k] == "    " + Decimal(k) + ". " + SCOUT_SECTIONS[k - 1].0 + ": " + SCOUT_SECTIONS[k - 1].1
            && BeforeFirst(ls[6 + k], ':') == "    " + Decimal(k) + ". " + SCOUT_SECTIONS[k - 1].0)
  {
    var ls := ScoutReportLines(teamName, date, rosterNames);
    LabelledHeading("SUMMARY", SUMMARY_TEXT);
    NumberedHeadings();
    assert ls[7..17] == NumberedLines();
  }

  lemma ScoutReportLinesOneLine(teamName: string, date: string, rosterNames: string)
    requires '\n' !in teamName && '\n' !in date && '\n' !in rosterNames
    ensures forall i :: 0 <= i < |ScoutReportLines(teamName, date, rosterNames)| ==>
      '\n' !in ScoutReportLines(teamName, date, rosterNames)[i]
  {
    var ls := ScoutReportLines(teamName, date, rosterNames);
    var numbered := NumberedLines();
    forall i | 0 <= i < |numbered| ensures '\n' !in numbered[i] {
      SectionOneLine(i + 1, SCOUT_SECTIONS[i].0, SCOUT_SECTIONS[i].1);
    }
    forall i | 0 <= i < |ls| ensures '\n' !in ls[i] {
      if 7 <= i < 17 {
        assert ls[i] == numbered[i - 7];
      }
    }
  }

  /** Before its first colon, the `k`-th numbered line holds only its ordinal and label. */
  lemma NumberedHeadings()
    ensures forall k :: 1 <= k <= 10 ==>
      && NumberedLines()[k - 1] == "    " + Decimal(k) + ". " + SCOUT_SECTIONS[k - 1].0 + ": " + SCOUT_SECTIONS[k - 1].1
      && BeforeFirst(NumberedLines()[k - 1], ':') == "    " + Decimal(k) + ". " + SCOUT_SECTIONS[k - 1].0
  {
    forall k | 1 <= k <= 10
      ensures NumberedLines()[k - 1] == "    " + Decimal(k) + ". " + SCOUT_SECTIONS[k - 1].0 + ": " + SCOUT_SECTIONS[k - 1].1
      ensures BeforeFirst(NumberedLines()[k - 1], ':') == "    " + Decimal(k) + ". " + SCOUT_SECTIONS[k - 1].0
    {
      var (heading, direction) := SCOUT_SECTIONS[k - 1];
      assert NumberedLines()[k - 1] == Section(k, heading, direction);
      SectionHeading(k, heading, direction);
    }
  }

  lemma SectionHeading(n: nat, heading: Label, direction: string)
    ensures Section(n, heading, direction) == "    " + Decimal(n) + ". " + heading + ": " + direction
    ensures BeforeFirst(Section(n, heading, direction), ':') == "    " + Decimal(n) + ". " + heading
  {
    assert ':' !in Decimal(n);
    LabelledHeading(Decimal(n) + ". " + heading, direction);
  }

  lemma SectionOneLine(n: nat, heading: Line, direction: Line)
    ensures '\n' !in Section(n, heading, direction)
  {
    assert '\n' !in Decimal(n);
  }
}
