/**
 * One repeat cycle of `eval_dice_expression` (the closure of `(0..repeat).map`):
 * the rolls of the cycle are scored and rendered in one of three ways.
 * `format_roll` and `mark_rolls` are parameters whose bodies are not modelled.
 */
module Scoring {
  import opened Wrappers
  import opened Numerals
  import opened Text
  import opened Util
  import opened Resolver
  import opened Description

  /** `format_roll(roll, is_struck)`. */
  type Formatter = (Roll, bool) -> string

  /** `mark_rolls(rolls, amount, condition)`: a selection flag per roll. */
  type Marker = (seq<Roll>, int, MarkCondition) -> seq<bool>

  /** The separator before the bold sum, as the source file spells it. */
  const ResultSeparator: string := " ??? "

  /** The `Result` struct: the rendered line of one cycle and its sum. */
  datatype IterationResult = IterationResult(text: string, sum: int)

  /** How many times one cycle calls `roll`: two under advantage or disadvantage. */
  function RollsPerIteration(spec: Spec): (n: nat)
    ensures spec.advantage || spec.disadvantage ==> n == 2
    ensures !spec.advantage && !spec.disadvantage && spec.numDice >= 1 ==> n == spec.numDice
  {
    if spec.advantage || spec.disadvantage then 2
    else if spec.modifier == 0 && spec.numDice == 1 then 1
    else if spec.numDice > 0 then spec.numDice
    else 0
  }

  function Bold(s: string): string {
    "**" + s + "**"
  }

  // ---------------------------------------------------------------------------
  // Advantage and disadvantage

  /** Which of the two rolls is wrapped in `**`. */
  datatype Emphasis = Neither | First | Second

  function DuelEmphasis(advantage: bool, disadvantage: bool, first: int, second: int): Emphasis {
    if first == second then Neither
    else if (advantage && first > second) || (disadvantage && first < second) then First
    else Second
  }

  /** `full_roll_str`. */
  function DuelText(first: string, second: string, e: Emphasis): string {
    match e
    case Neither => first + " / " + second
    case First => Bold(first) + " / " + second
    case Second => first + " / " + Bold(second)
  }

  /** The modifier plus the larger roll under advantage, plus the smaller one otherwise. */
  function DuelSum(modifier: int, advantage: bool, first: int, second: int): (s: int)
    ensures advantage ==> s - modifier >= first && s - modifier >= second
    ensures !advantage ==> s - modifier <= first && s - modifier <= second
    ensures s - modifier == first || s - modifier == second
  {
    modifier + if advantage then (if first >= second then first else second)
               else (if first <= second then first else second)
  }

  function Duel(spec: Spec, roll1: Roll, roll2: Roll, fmt: Formatter): IterationResult {
    var sum := DuelSum(spec.modifier, spec.advantage, roll1.value, roll2.value);
    var shown := DuelText(fmt(roll1, false), fmt(roll2, false),
                          DuelEmphasis(spec.advantage, spec.disadvantage, roll1.value, roll2.value));
    IterationResult(shown + ModifierText(spec.modifier) + ResultSeparator + Bold(IntToDecimal(sum)), sum)
  }

  /**
   * With exactly one of the two keywords, equal rolls are not emphasized and
   * otherwise exactly the roll that is scored is: the larger under advantage,
   * the smaller under disadvantage.
   */
  lemma DuelOneKeyword(modifier: int, advantage: bool, disadvantage: bool, first: int, second: int)
    requires advantage != disadvantage
    ensures DuelEmphasis(advantage, disadvantage, first, second) == Neither <==> first == second
    ensures DuelEmphasis(advantage, disadvantage, first, second) == First <==>
              (if advantage then first > second else first < second)
    ensures DuelEmphasis(advantage, disadvantage, first, second) == Second <==>
              (if advantage then second > first else second < first)
    ensures DuelEmphasis(advantage, disadvantage, first, second) == First ==>
              DuelSum(modifier, advantage, first, second) == modifier + first
    ensures DuelEmphasis(advantage, disadvantage, first, second) == Second ==>
              DuelSum(modifier, advantage, first, second) == modifier + second
  {
  }

  /**
   * With both keywords, equal rolls are not emphasized, unequal rolls always
   * emphasize the first roll, and the sum takes the larger one, whichever
   * roll that is.
   */
  lemma DuelBothKeywords(modifier: int, first: int, second: int)
    ensures DuelEmphasis(true, true, first, second) == Neither <==> first == second
    ensures first != second ==> DuelEmphasis(true, true, first, second) == First
    ensures DuelSum(modifier, true, first, second) == modifier + (if first > second then first else second)
  {
  }

  // ---------------------------------------------------------------------------
  // The general case

  /** Whether a roll is struck: the marked ones under Drop, the unmarked ones under Keep. */
  function Struck(action: DropOrKeep, marked: bool): bool {
    match action
    case Drop => marked
    case Keep => !marked
  }

  function StruckFlags(action: DropOrKeep, marks: seq<bool>): (struck: seq<bool>)
    ensures |struck| == |marks|
    ensures forall i :: 0 <= i < |marks| ==> struck[i] == Struck(action, marks[i])
  {
    seq(|marks|, i requires 0 <= i < |marks| => Struck(action, marks[i]))
  }

  /** Reference sum of the values of `rolls`. */
  function Total(rolls: seq<Roll>): int {
    if |rolls| == 0 then 0 else rolls[0].value + Total(rolls[1..])
  }

  /** Reference sum of the values of the rolls that are not struck. */
  function UnstruckTotal(rolls: seq<Roll>, struck: seq<bool>): int
    requires |struck| == |rolls|
  {
    if |rolls| == 0 then 0
    else (if struck[0] then 0 else rolls[0].value) + UnstruckTotal(rolls[1..], struck[1..])
  }

  /** `rolls.iter().fold(modifier, |acc, roll| acc + roll.value)`. */
  function PlainSum(acc: int, rolls: seq<Roll>): int
    decreases |rolls|
  {
    if |rolls| == 0 then acc else PlainSum(acc + rolls[0].value, rolls[1..])
  }

  /** The fold over `rolls.iter().zip(marked.iter())`, which stops at the shorter of the two. */
  function SelectedSum(acc: int, action: DropOrKeep, rolls: seq<Roll>, marks: seq<bool>): int
    decreases |rolls|
  {
    if |rolls| == 0 || |marks| == 0 then
      acc
    else
      var next := match action
        case Drop => if marks[0] then acc else acc + rolls[0].value
        case Keep => if marks[0] then acc + rolls[0].value else acc;
      SelectedSum(next, action, rolls[1..], marks[1..])
  }

  lemma {:induction false} PlainSumIsTotal(acc: int, rolls: seq<Roll>)
    ensures PlainSum(acc, rolls) == acc + Total(rolls)
    decreases |rolls|
  {
    if |rolls| > 0 {
      PlainSumIsTotal(acc + rolls[0].value, rolls[1..]);
    }
  }

  /** With a mark per roll, the selected fold adds exactly the values of the rolls that are not struck. */
  lemma {:induction false} SelectedSumIsUnstruck(acc: int, action: DropOrKeep, rolls: seq<Roll>, marks: seq<bool>)
    requires |marks| == |rolls|
    ensures SelectedSum(acc, action, rolls, marks) == acc + UnstruckTotal(rolls, StruckFlags(action, marks))
    decreases |rolls|
  {
    if |rolls| > 0 {
      var next := if Struck(action, marks[0]) then acc else acc + rolls[0].value;
      SelectedSumIsUnstruck(next, action, rolls[1..], marks[1..]);
      assert StruckFlags(action, marks)[1..] == StruckFlags(action, marks[1..]);
    }
  }

  /** The rendered rolls, one per pair of `rolls.iter().zip(struck.iter())`. */
  function RollTexts(rolls: seq<Roll>, struck: seq<bool>, fmt: Formatter): (parts: seq<string>)
    ensures |parts| == if |rolls| <= |struck| then |rolls| else |struck|
    ensures forall i :: 0 <= i < |parts| ==> parts[i] == fmt(rolls[i], struck[i])
  {
    seq(if |rolls| <= |struck| then |rolls| else |struck|,
        i requires 0 <= i < |rolls| && i < |struck| => fmt(rolls[i], struck[i]))
  }

  /** Nothing struck, one flag per roll. */
  function Unstruck(n: nat): (flags: seq<bool>)
    ensures |flags| == n
    ensures forall i :: 0 <= i < n ==> !flags[i]
  {
    seq(n, _ => false)
  }

  /** The roll string and the sum of the general case: with a selection, or plainly. */
  function GeneralParts(spec: Spec, rolls: seq<Roll>, mark: Marker, fmt: Formatter): (string, int) {
    match spec.selection
    case Some(sel) =>
      var marks := mark(rolls, sel.amount, sel.condition);
      (Join(RollTexts(rolls, StruckFlags(sel.action, marks), fmt), " + "),
       SelectedSum(spec.modifier, sel.action, rolls, marks))
    case None =>
      (Join(RollTexts(rolls, Unstruck(|rolls|), fmt), " + "), PlainSum(spec.modifier, rolls))
  }

  function General(spec: Spec, rolls: seq<Roll>, mark: Marker, fmt: Formatter): IterationResult {
    var (shown, sum) := GeneralParts(spec, rolls, mark, fmt);
    IterationResult(shown + ModifierText(spec.modifier) + ResultSeparator + Bold(IntToDecimal(sum)), sum)
  }

  /**
   * The sum of the general case: the modifier plus every value without a
   * selection, and plus the values of the unstruck rolls with one (when the
   * marker gives one flag per roll). The roll string joins every roll with
   * " + ", in rolled order, each rendered with its struck flag.
   */
  lemma GeneralScore(spec: Spec, rolls: seq<Roll>, mark: Marker, fmt: Formatter)
    ensures spec.selection.None? ==>
              General(spec, rolls, mark, fmt).sum == spec.modifier + Total(rolls) &&
              GeneralParts(spec, rolls, mark, fmt).0 ==
                Join(seq(|rolls|, i requires 0 <= i < |rolls| => fmt(rolls[i], false)), " + ")
    ensures spec.selection.Some? ==>
              var sel := spec.selection.value;
              var marks := mark(rolls, sel.amount, sel.condition);
              |marks| == |rolls| ==>
                General(spec, rolls, mark, fmt).sum ==
                  spec.modifier + UnstruckTotal(rolls, StruckFlags(sel.action, marks)) &&
                GeneralParts(spec, rolls, mark, fmt).0 ==
                  Join(seq(|rolls|, i requires 0 <= i < |rolls| => fmt(rolls[i], Struck(sel.action, marks[i]))), " + ")
  {
    PlainSumIsTotal(spec.modifier, rolls);
    if spec.selection.None? {
      assert RollTexts(rolls, Unstruck(|rolls|), fmt) == seq(|rolls|, i requires 0 <= i < |rolls| => fmt(rolls[i], false));
    } else {
      var sel := spec.selection.value;
      var marks := mark(rolls, sel.amount, sel.condition);
      if |marks| == |rolls| {
        SelectedSumIsUnstruck(spec.modifier, sel.action, rolls, marks);
        assert RollTexts(rolls, StruckFlags(sel.action, marks), fmt) ==
               seq(|rolls|, i requires 0 <= i < |rolls| => fmt(rolls[i], Struck(sel.action, marks[i])));
      }
    }
  }

  // ---------------------------------------------------------------------------
  // One cycle

  /**
   * The body of the `map` closure on the rolls that cycle drew: a duel of two
   * rolls under advantage or disadvantage, the bare glyph of a lone die
   * without modifier, and the general sum otherwise.
   */
  function ScoreIteration(spec: Spec, rolls: seq<Roll>, mark: Marker, fmt: Formatter): IterationResult
    requires |rolls| == RollsPerIteration(spec)
  {
    if spec.advantage || spec.disadvantage then
      Duel(spec, rolls[0], rolls[1], fmt)
    else if spec.modifier == 0 && spec.numDice == 1 then
      IterationResult(fmt(rolls[0], false), rolls[0].value)
    else
      General(spec, rolls, mark, fmt)
  }

  /** Under advantage or disadvantage a cycle is the duel of its two rolls. */
  lemma DuelScored(spec: Spec, rolls: seq<Roll>, mark: Marker, fmt: Formatter)
    requires spec.advantage || spec.disadvantage
    requires |rolls| == RollsPerIteration(spec)
    ensures |rolls| == 2
    ensures ScoreIteration(spec, rolls, mark, fmt) == Duel(spec, rolls[0], rolls[1], fmt)
  {
  }

  /** What a cycle scores, in each of the three branches. */
  lemma IterationSum(spec: Spec, rolls: seq<Roll>, mark: Marker, fmt: Formatter)
    requires |rolls| == RollsPerIteration(spec)
    ensures spec.advantage || spec.disadvantage ==>
              ScoreIteration(spec, rolls, mark, fmt).sum ==
                spec.modifier + (if spec.advantage then (if rolls[0].value >= rolls[1].value then rolls[0].value else rolls[1].value)
                                 else (if rolls[0].value <= rolls[1].value then rolls[0].value else rolls[1].value))
    ensures !spec.advantage && !spec.disadvantage && spec.selection.None? ==>
              ScoreIteration(spec, rolls, mark, fmt).sum == spec.modifier + Total(rolls)
    ensures !spec.advantage && !spec.disadvantage && spec.selection.Some? && (spec.modifier != 0 || spec.numDice != 1) ==>
              var sel := spec.selection.value;
              var marks := mark(rolls, sel.amount, sel.condition);
              |marks| == |rolls| ==>
                ScoreIteration(spec, rolls, mark, fmt).sum ==
                  spec.modifier + UnstruckTotal(rolls, StruckFlags(sel.action, marks))
    ensures !spec.advantage && !spec.disadvantage && spec.modifier == 0 && spec.numDice == 1 ==>
              ScoreIteration(spec, rolls, mark, fmt) == IterationResult(fmt(rolls[0], false), rolls[0].value)
  {
    if !spec.advantage && !spec.disadvantage {
      GeneralScore(spec, rolls, mark, fmt);
      if spec.modifier == 0 && spec.numDice == 1 {
        assert rolls[1..] == [];
      }
    }
  }

  /** A formatter that never writes a line break. */
  ghost predicate OneLineFormatter(fmt: Formatter) {
    forall r, struck :: '\n' !in fmt(r, struck)
  }

  /** The rendered rolls, the modifier, the separator and the bold sum stay on one line. */
  lemma ScoredOneLine(shown: string, modifier: int, sum: int)
    requires '\n' !in shown
    ensures '\n' !in shown + ModifierText(modifier) + ResultSeparator + Bold(IntToDecimal(sum))
  {
    ModifierOneLine(modifier);
    BoldOneLine(IntToDecimal(sum));
    DecimalAvoids(sum, '\n');
    assert '\n' !in ResultSeparator;
  }

  lemma BoldOneLine(s: string)
    requires '\n' !in s
    ensures '\n' !in Bold(s)
  {
  }

  lemma DuelOneLine(spec: Spec, roll1: Roll, roll2: Roll, fmt: Formatter)
    requires OneLineFormatter(fmt)
    ensures '\n' !in Duel(spec, roll1, roll2, fmt).text
  {
    var first := fmt(roll1, false);
    var second := fmt(roll2, false);
    assert '\n' !in first && '\n' !in second;
    var shown := DuelText(first, second, DuelEmphasis(spec.advantage, spec.disadvantage, roll1.value, roll2.value));
    assert '\n' !in shown;
    ScoredOneLine(shown, spec.modifier, DuelSum(spec.modifier, spec.advantage, roll1.value, roll2.value));
  }

  lemma GeneralOneLine(spec: Spec, rolls: seq<Roll>, mark: Marker, fmt: Formatter)
    requires OneLineFormatter(fmt)
    ensures '\n' !in General(spec, rolls, mark, fmt).text
  {
    var (shown, sum) := GeneralParts(spec, rolls, mark, fmt);
    var struck := match spec.selection
      case Some(sel) => StruckFlags(sel.action, mark(rolls, sel.amount, sel.condition))
      case None => Unstruck(|rolls|);
    var parts := RollTexts(rolls, struck, fmt);
    assert forall k :: 0 <= k < |parts| ==> parts[k] == fmt(rolls[k], struck[k]);
    JoinAvoids(parts, " + ", '\n');
    ScoredOneLine(shown, spec.modifier, sum);
  }

  /** A cycle renders as one line when the formatter does. */
  lemma IterationOneLine(spec: Spec, rolls: seq<Roll>, mark: Marker, fmt: Formatter)
    requires |rolls| == RollsPerIteration(spec)
    requires OneLineFormatter(fmt)
    ensures '\n' !in ScoreIteration(spec, rolls, mark, fmt).text
  {
    if spec.advantage || spec.disadvantage {
      DuelOneLine(spec, rolls[0], rolls[1], fmt);
    } else if spec.modifier == 0 && spec.numDice == 1 {
      assert '\n' !in fmt(rolls[0], false);
    } else {
      GeneralOneLine(spec, rolls, mark, fmt);
    }
  }
}
