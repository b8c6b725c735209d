/**
 * The normalized restatement of an expression that heads the output, such as
 * `4d6 + 2 with advantage, rerolling 1s/2s, dropping lowest roll, repeating 6 times`.
 */
module Description {
  import opened Wrappers
  import opened Numerals
  import opened Text
  import opened Util
  import opened Resolver

  /** The separator before the magnitude of a negative modifier, as the source file spells it. */
  const MinusSeparator: string := " ??? "

  /** `modifier_str`: empty for zero, ` + n` above zero, the separator and `|n|` below. */
  function ModifierText(modifier: int): (t: string)
    ensures modifier == 0 <==> t == ""
    ensures modifier > 0 ==> t == " + " + IntToDecimal(modifier)
    ensures modifier < 0 ==> t == MinusSeparator + NatToDecimal(-modifier)
  {
    if modifier > 0 then " + " + IntToDecimal(modifier)
    else if modifier < 0 then MinusSeparator + IntToDecimal(-modifier)
    else ""
  }

  /** `advantage_str`: disadvantage is named first when both keywords were given. */
  function AdvantageText(disadvantage: bool, advantage: bool): (t: string)
    ensures t == "" <==> !disadvantage && !advantage
  {
    if disadvantage then " with disadvantage"
    else if advantage then " with advantage"
    else ""
  }

  function ActionWord(action: DropOrKeep): string {
    match action
    case Drop => "dropping"
    case Keep => "keeping"
  }

  function ConditionWord(condition: MarkCondition): string {
    match condition
    case Highest => "highest"
    case Lowest => "lowest"
  }

  /** `drop_or_keep_str`: `roll` for an amount of one, `<amount> rolls` otherwise. */
  function SelectionText(selection: Option<Selection>): (t: string)
    ensures selection.None? <==> t == ""
  {
    match selection
    case None => ""
    case Some(Selection(amount, condition, action)) =>
      if amount == 1 then ", " + ActionWord(action) + " " + ConditionWord(condition) + " roll"
      else ", " + ActionWord(action) + " " + ConditionWord(condition) + " " + IntToDecimal(amount) + " rolls"
  }

  /** `(1..=reroll).map(|i| format!("{i}s"))`. */
  function RerollNumbers(reroll: int): (items: seq<string>)
    ensures |items| == if reroll > 0 then reroll else 0
  {
    seq(if reroll > 0 then reroll else 0, i requires 0 <= i => NatToDecimal(i + 1) + "s")
  }

  /** `reroll_str`: the rerolled faces joined by `/`, or empty when the threshold is not positive. */
  function RerollText(reroll: int): (t: string)
    ensures reroll <= 0 <==> t == ""
  {
    if reroll > 0 then ", rerolling " + Join(RerollNumbers(reroll), "/") else ""
  }

  /** `repeat_str`. */
  function RepeatText(repeat: int): (t: string)
    ensures repeat <= 1 <==> t == ""
  {
    if repeat > 1 then ", repeating " + IntToDecimal(repeat) + " times" else ""
  }

  /** `normalized`: the count after advantage forcing, the size, then each optional part in a fixed order. */
  function Normalized(spec: Spec): string {
    IntToDecimal(spec.numDice) + "d" + IntToDecimal(spec.diceSize)
    + ModifierText(spec.modifier)
    + AdvantageText(spec.disadvantage, spec.advantage)
    + RerollText(spec.reroll)
    + SelectionText(spec.selection)
    + RepeatText(spec.repeat)
  }

  /**
   * The reroll text is `, rerolling ` and then a list of `1s/2s/.../Ns`:
   * splitting that list at `/` gives exactly those faces, in order.
   */
  lemma RerollListed(reroll: int)
    requires reroll > 0
    ensures |RerollText(reroll)| > 12 && RerollText(reroll)[..12] == ", rerolling "
    ensures Split(RerollText(reroll)[12..], '/') == seq(reroll, i requires 0 <= i => NatToDecimal(i + 1) + "s")
  {
    var items := RerollNumbers(reroll);
    assert RerollText(reroll)[12..] == Join(items, "/");
    forall k | 0 <= k < |items|
      ensures '/' !in items[k]
    {
      DecimalAvoids(k + 1, '/');
    }
    SplitJoin(items, '/');
  }

  lemma SelectionOneLine(selection: Option<Selection>)
    ensures '\n' !in SelectionText(selection)
  {
    if selection.Some? {
      DecimalAvoids(selection.value.amount, '\n');
    }
  }

  lemma RerollOneLine(reroll: int)
    ensures '\n' !in RerollText(reroll)
  {
    var items := RerollNumbers(reroll);
    forall k | 0 <= k < |items|
      ensures '\n' !in items[k]
    {
      DecimalAvoids(k + 1, '\n');
    }
    JoinAvoids(items, "/", '\n');
  }

  lemma CountAndSizeOneLine(numDice: int, diceSize: int)
    ensures '\n' !in IntToDecimal(numDice) + "d" + IntToDecimal(diceSize)
  {
    DecimalAvoids(numDice, '\n');
    DecimalAvoids(diceSize, '\n');
  }

  lemma ModifierOneLine(modifier: int)
    ensures '\n' !in ModifierText(modifier)
  {
    DecimalAvoids(modifier, '\n');
    DecimalAvoids(-modifier, '\n');
  }

  lemma AdvantageOneLine(disadvantage: bool, advantage: bool)
    ensures '\n' !in AdvantageText(disadvantage, advantage)
  {
  }

  lemma RepeatOneLine(repeat: int)
    ensures '\n' !in RepeatText(repeat)
  {
    DecimalAvoids(repeat, '\n');
  }

  /** The description is a single line. */
  lemma NormalizedOneLine(spec: Spec)
    ensures '\n' !in Normalized(spec)
  {
    CountAndSizeOneLine(spec.numDice, spec.diceSize);
    ModifierOneLine(spec.modifier);
    AdvantageOneLine(spec.disadvantage, spec.advantage);
    RerollOneLine(spec.reroll);
    SelectionOneLine(spec.selection);
    RepeatOneLine(spec.repeat);
  }
}
