/**
 * The text logic of the floating code windows and terminals
 * (components/3d/FloatingCodeElements.tsx): the colour a code line is drawn
 * in, how a terminal line is split into prompt and text, the line-number
 * labels and the number of particles around a window.
 */
module FloatingCode {
  import Text

  // ---------------------------------------------------------------------
  // Line colours (`getCodeColor`)
  // ---------------------------------------------------------------------

  const DeclarationColor := "#ff6b6b"
  const DefinitionColor := "#4ecdc4"
  const KeywordColor := "#45b7d1"
  const CommentColor := "#95a5a6"
  const QuoteColor := "#f39c12"
  const PlainColor := "#ffffff"

  predicate HasDeclaration(line: string) {
    Text.Contains(line, "const ") || Text.Contains(line, "let ") || Text.Contains(line, "var ")
  }

  predicate HasDefinition(line: string) {
    Text.Contains(line, "function") || Text.Contains(line, "def ") || Text.Contains(line, "class ")
  }

  predicate HasKeyword(line: string) {
    Text.Contains(line, "return") || Text.Contains(line, "import") || Text.Contains(line, "from")
  }

  predicate HasComment(line: string) {
    Text.Contains(line, "//") || Text.Contains(line, "#")
  }

  predicate HasQuote(line: string) {
    Text.Contains(line, "\"") || Text.Contains(line, "'")
  }

  /**
   * `getCodeColor(line)`: the checks run in a fixed order and the first that
   * matches decides; a declaration marker wins over every other marker, and
   * only a line without any marker is drawn white.
   */
  function CodeColor(line: string): (r: string)
    ensures r in {DeclarationColor, DefinitionColor, KeywordColor, CommentColor, QuoteColor, PlainColor}
    ensures HasDeclaration(line) ==> r == DeclarationColor
    ensures r == PlainColor <==>
              !HasDeclaration(line) && !HasDefinition(line) && !HasKeyword(line)
              && !HasComment(line) && !HasQuote(line)
  {
    if HasDeclaration(line) then DeclarationColor
    else if HasDefinition(line) then DefinitionColor
    else if HasKeyword(line) then KeywordColor
    else if HasComment(line) then CommentColor
    else if HasQuote(line) then QuoteColor
    else PlainColor
  }

  /** A highlighting rule: any of its markers in a line selects its colour. */
  datatype Rule = Rule(markers: seq<string>, color: string)

  /** The rules in the order they are tried. */
  const Rules: seq<Rule> := [
    Rule(["const ", "let ", "var "], DeclarationColor),
    Rule(["function", "def ", "class "], DefinitionColor),
    Rule(["return", "import", "from"], KeywordColor),
    Rule(["//", "#"], CommentColor),
    Rule(["\"", "'"], QuoteColor)
  ]

  predicate Fires(rule: Rule, line: string) {
    exists m :: m in rule.markers && Text.Contains(line, m)
  }

  /** The index of the first rule that fires on `line`, or `|rules|` when none does. */
  function FirstFiring(rules: seq<Rule>, line: string): (k: nat)
    ensures k <= |rules|
    ensures forall j :: 0 <= j < k ==> !Fires(rules[j], line)
    ensures k < |rules| ==> Fires(rules[k], line)
  {
    if rules == [] then 0
    else if Fires(rules[0], line) then 0
    else 1 + FirstFiring(rules[1..], line)
  }

  /** The colour the first firing rule selects; white when no rule fires. */
  function ColorByRules(line: string): string {
    var k := FirstFiring(Rules, line);
    if k < |Rules| then Rules[k].color else PlainColor
  }

  /** A rule with three markers fires exactly when one of the three occurs. */
  lemma FiresThree(rule: Rule, line: string)
    requires |rule.markers| == 3
    ensures Fires(rule, line) <==>
              Text.Contains(line, rule.markers[0]) || Text.Contains(line, rule.markers[1])
              || Text.Contains(line, rule.markers[2])
  {
    assert rule.markers == [rule.markers[0], rule.markers[1], rule.markers[2]];
  }

  /** A rule with two markers fires exactly when one of the two occurs. */
  lemma FiresTwo(rule: Rule, line: string)
    requires |rule.markers| == 2
    ensures Fires(rule, line) <==> Text.Contains(line, rule.markers[0]) || Text.Contains(line, rule.markers[1])
  {
    assert rule.markers == [rule.markers[0], rule.markers[1]];
  }

  lemma RulesFire(line: string)
    ensures Fires(Rules[0], line) <==> HasDeclaration(line)
    ensures Fires(Rules[1], line) <==> HasDefinition(line)
    ensures Fires(Rules[2], line) <==> HasKeyword(line)
    ensures Fires(Rules[3], line) <==> HasComment(line)
    ensures Fires(Rules[4], line) <==> HasQuote(line)
  {
    FiresThree(Rules[0], line);
    FiresThree(Rules[1], line);
    FiresThree(Rules[2], line);
    FiresTwo(Rules[3], line);
    FiresTwo(Rules[4], line);
  }

  /** The first rule to fire is the first marker group, in the classifier's order, that occurs. */
  lemma FirstFiringOfRules(line: string)
    ensures FirstFiring(Rules, line) ==
              if HasDeclaration(line) then 0
              else if HasDefinition(line) then 1
              else if HasKeyword(line) then 2
              else if HasComment(line) then 3
              else if HasQuote(line) then 4
              else 5
  {
    RulesFire(line);
  }

  /**
   * The classifier is the first-match reading of the rule table, and since
   * the six colours differ, the colour of a line tells which rule decided it.
   */
  lemma CodeColorFollowsRules(line: string)
    ensures CodeColor(line) == ColorByRules(line)
    ensures forall k :: 0 <= k < |Rules| ==> (CodeColor(line) == Rules[k].color <==> FirstFiring(Rules, line) == k)
    ensures CodeColor(line) == PlainColor <==> FirstFiring(Rules, line) == |Rules|
  {
    FirstFiringOfRules(line);
    assert Rules[0].color == DeclarationColor && Rules[1].color == DefinitionColor;
    assert Rules[2].color == KeywordColor && Rules[3].color == CommentColor && Rules[4].color == QuoteColor;
  }

  // ---------------------------------------------------------------------
  // Terminal lines
  // ---------------------------------------------------------------------

  /** How a terminal line is drawn: a green prompt followed by the command, or grey output. */
  datatype TerminalRow = Prompt(command: string) | Output(text: string)

  /** A line starting with `$` is a prompt whose command is the text from index 2 on. */
  function TerminalRowFor(line: string): (r: TerminalRow)
    ensures r.Prompt? <==> Text.StartsWith(line, "$")
    ensures r.Output? ==> r.text == line
    ensures r.Prompt? && |line| >= 2 ==> line == line[..2] + r.command
    ensures r.Prompt? && |line| < 2 ==> r.command == []
  {
    if Text.StartsWith(line, "$") then Prompt(Text.SubstringFrom(line, 2)) else Output(line)
  }

  /** The terminal line a row stands for, with the prompt written as `$ `. */
  function LineOf(row: TerminalRow): string {
    match row
    case Prompt(c) => "$ " + c
    case Output(t) => t
  }

  /**
   * A line reads back from its row when it is output or a prompt written
   * `$ `; a prompt written without the space loses the character after `$`.
   */
  lemma TerminalRowRoundTrip(line: string)
    ensures Text.StartsWith(line, "$ ") || !Text.StartsWith(line, "$") ==> LineOf(TerminalRowFor(line)) == line
    ensures TerminalRowFor("$ls") == Prompt("s")
  {
    if Text.StartsWith(line, "$ ") {
      assert line[..2] == "$ ";
    }
    assert Text.StartsWith("$ls", "$");
  }

  // ---------------------------------------------------------------------
  // Line numbers and particles
  // ---------------------------------------------------------------------

  /** `${lineIndex + 1}`.padStart(2, ' '): the line number right-aligned in two columns. */
  function LineLabel(lineIndex: nat): (r: string)
    ensures |r| >= 2
    ensures lineIndex < 9 ==> r == [' ', Text.DigitChar(lineIndex + 1)]
    ensures lineIndex >= 9 ==> r == Text.NatToString(lineIndex + 1)
  {
    Text.PadStart(Text.NatToString(lineIndex + 1), 2, ' ')
  }

  /** Dropping the padding and reading the digits gives back the one-based line number. */
  lemma LineLabelReadsBack(lineIndex: nat)
    ensures forall i :: 0 <= i < |Text.TrimStart(LineLabel(lineIndex))| ==> Text.IsDigit(Text.TrimStart(LineLabel(lineIndex))[i])
    ensures Text.DecimalValue(Text.TrimStart(LineLabel(lineIndex))) == lineIndex + 1
  {
    var digits := Text.NatToString(lineIndex + 1);
    assert !Text.IsWhitespace(digits[0]) by {
      assert Text.IsDigit(digits[0]);
    }
    var pad := if |digits| < 2 then 2 - |digits| else 0;
    assert LineLabel(lineIndex) == Text.Repeat(' ', pad) + digits;
    Text.TrimStartOfPadded(pad, digits);
    Text.NatToStringRoundTrip(lineIndex + 1);
  }

  /** `performanceMode ? 20 : 50`: the particles around a code window. */
  function CodeParticleCount(performanceMode: bool): (n: nat)
    ensures n == 20 || n == 50
    ensures performanceMode <==> n < 50
  {
    if performanceMode then 20 else 50
  }
}
