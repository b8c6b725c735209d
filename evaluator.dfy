/**
 * `eval_dice_expression`: recognize, resolve, run `repeat` cycles and
 * aggregate them into the reply. The random source is a parameter: the k-th
 * call of `roll(dice_size, reroll)` made by one evaluation returns
 * `draw(dice_size, reroll, k)`.
 */
module Evaluator {
  import opened Wrappers
  import opened Numerals
  import opened Text
  import opened Util
  import opened Recognizer
  import opened Resolver
  import opened Description
  import opened Scoring

  /** `roll(dice_size, reroll)`, indexed by the number of earlier calls. */
  type RollSource = (int, int, nat) -> Roll

  /** The rolls of the cycle whose first call to `roll` is the `start`-th. */
  function CycleRolls(spec: Spec, draw: RollSource, start: nat): (rolls: seq<Roll>)
    ensures |rolls| == RollsPerIteration(spec)
    ensures forall i :: 0 <= i < |rolls| ==> rolls[i] == draw(spec.diceSize, spec.reroll, start + i)
  {
    seq(RollsPerIteration(spec), i requires 0 <= i => draw(spec.diceSize, spec.reroll, start + i))
  }

  /** Cycle `idx`: every cycle calls `roll` the same number of times, in turn. */
  function Cycle(spec: Spec, draw: RollSource, mark: Marker, fmt: Formatter, idx: nat): IterationResult {
    ScoreIteration(spec, CycleRolls(spec, draw, idx * RollsPerIteration(spec)), mark, fmt)
  }

  /** `(0..n).map(...)`. */
  function Cycles(spec: Spec, draw: RollSource, mark: Marker, fmt: Formatter, n: nat): (results: seq<IterationResult>)
    ensures |results| == n
  {
    seq(n, i requires 0 <= i < n => Cycle(spec, draw, mark, fmt, i))
  }

  function Texts(results: seq<IterationResult>): (texts: seq<string>)
    ensures |texts| == |results|
    ensures forall i :: 0 <= i < |results| ==> texts[i] == results[i].text
  {
    seq(|results|, i requires 0 <= i < |results| => results[i].text)
  }

  /** Reference sum of the cycle sums. */
  function SumOf(results: seq<IterationResult>): int {
    if |results| == 0 then 0 else SumOf(results[..|results| - 1]) + results[|results| - 1].sum
  }

  function TotalLine(total: int): string {
    "Total: **" + IntToDecimal(total) + "**"
  }

  /** `total_str`. */
  function TotalText(repeat: int, total: int): (t: string)
    ensures t != "" <==> repeat > 1
  {
    if repeat > 1 then "\n" + TotalLine(total) else ""
  }

  function Heading(spec: Spec): string {
    "Rolling " + Normalized(spec) + ":"
  }

  /** The reply: the heading, one line per cycle, and the grand total when there are several cycles. */
  function Reply(spec: Spec, results: seq<IterationResult>): string {
    Heading(spec) + "\n" + Join(Texts(results), "\n") + TotalText(spec.repeat, SumOf(results))
  }

  function Evaluate(expression: string, draw: RollSource, mark: Marker, fmt: Formatter): Option<string> {
    match Recognize(expression)
    case None => None
    case Some(groups) =>
      match Resolve(groups)
      case None => None
      case Some(spec) =>
        Some(Reply(spec, Cycles(spec, draw, mark, fmt, spec.repeat)))
  }

  // ---------------------------------------------------------------------------
  // The imperative evaluation

  /** `(1..=count).map(|_| roll(dice_size, reroll)).collect()`, starting at call `start`. */
  method DrawRolls(draw: RollSource, diceSize: int, reroll: int, start: nat, count: nat) returns (rolls: seq<Roll>)
    ensures |rolls| == count
    ensures forall i :: 0 <= i < count ==> rolls[i] == draw(diceSize, reroll, start + i)
  {
    rolls := [];
    var k := 0;
    while k < count
      invariant 0 <= k <= count
      invariant |rolls| == k
      invariant forall i :: 0 <= i < k ==> rolls[i] == draw(diceSize, reroll, start + i)
    {
      rolls := rolls + [draw(diceSize, reroll, start + k)];
      k := k + 1;
    }
  }

  /** The body of the `map` closure for cycle `idx`. */
  method RunCycle(spec: Spec, draw: RollSource, mark: Marker, fmt: Formatter, idx: nat) returns (result: IterationResult)
    ensures result == Cycle(spec, draw, mark, fmt, idx)
  {
    var start := idx * RollsPerIteration(spec);
    if spec.advantage || spec.disadvantage {
      var roll1 := draw(spec.diceSize, spec.reroll, start);
      var roll2 := draw(spec.diceSize, spec.reroll, start + 1);
      assert CycleRolls(spec, draw, start) == [roll1, roll2];
      result := Duel(spec, roll1, roll2, fmt);
    } else if spec.modifier == 0 && spec.numDice == 1 {
      var roll := draw(spec.diceSize, spec.reroll, start);
      result := IterationResult(fmt(roll, false), roll.value);
    } else {
      var rolls := DrawRolls(draw, spec.diceSize, spec.reroll, start, RollsPerIteration(spec));
      assert rolls == CycleRolls(spec, draw, start);
      result := General(spec, rolls, mark, fmt);
    }
  }

  /**
   * The `reduce` of the cycles: the accumulator's text gets a line break and
   * then the next cycle's text pushed onto it, and the sums add up.
   */
  method Aggregate(spec: Spec, draw: RollSource, mark: Marker, fmt: Formatter) returns (aggregate: IterationResult)
    requires spec.repeat >= 1
    ensures aggregate.text == Join(Texts(Cycles(spec, draw, mark, fmt, spec.repeat)), "\n")
    ensures aggregate.sum == SumOf(Cycles(spec, draw, mark, fmt, spec.repeat))
  {
    aggregate := RunCycle(spec, draw, mark, fmt, 0);
    ghost var results := [aggregate];
    CyclesFirst(spec, draw, mark, fmt);
    var idx := 1;
    while idx < spec.repeat
      invariant 1 <= idx <= spec.repeat
      invariant results == Cycles(spec, draw, mark, fmt, idx)
      invariant aggregate.text == Join(Texts(results), "\n")
      invariant aggregate.sum == SumOf(results)
    {
      var b := RunCycle(spec, draw, mark, fmt, idx);
      var text := aggregate.text + "\n";
      text := text + b.text;
      TextsSnoc(results, b);
      SumOfSnoc(results, b);
      CyclesStep(spec, draw, mark, fmt, idx);
      results := results + [b];
      aggregate := IterationResult(text, aggregate.sum + b.sum);
      idx := idx + 1;
    }
  }

  lemma CyclesFirst(spec: Spec, draw: RollSource, mark: Marker, fmt: Formatter)
    ensures Cycles(spec, draw, mark, fmt, 1) == [Cycle(spec, draw, mark, fmt, 0)]
    ensures Join(Texts(Cycles(spec, draw, mark, fmt, 1)), "\n") == Cycle(spec, draw, mark, fmt, 0).text
    ensures SumOf(Cycles(spec, draw, mark, fmt, 1)) == Cycle(spec, draw, mark, fmt, 0).sum
  {
    assert Cycles(spec, draw, mark, fmt, 1) == [Cycle(spec, draw, mark, fmt, 0)];
  }

  /** Appending one result puts its line after a line break. */
  lemma TextsSnoc(before: seq<IterationResult>, b: IterationResult)
    requires |before| >= 1
    ensures Join(Texts(before + [b]), "\n") == Join(Texts(before), "\n") + "\n" + b.text
  {
    assert Texts(before + [b]) == Texts(before) + [b.text];
    JoinSnoc(Texts(before), b.text, "\n");
  }

  /** Appending one result adds its sum. */
  lemma SumOfSnoc(before: seq<IterationResult>, b: IterationResult)
    ensures SumOf(before + [b]) == SumOf(before) + b.sum
  {
    assert (before + [b])[..|before|] == before;
  }

  lemma CyclesStep(spec: Spec, draw: RollSource, mark: Marker, fmt: Formatter, n: nat)
    ensures Cycles(spec, draw, mark, fmt, n + 1) == Cycles(spec, draw, mark, fmt, n) + [Cycle(spec, draw, mark, fmt, n)]
  {
    var before := Cycles(spec, draw, mark, fmt, n);
    var after := Cycles(spec, draw, mark, fmt, n + 1);
    assert forall i :: 0 <= i < n ==> after[i] == before[i];
  }

  /** One more cycle adds its line after a line break and its sum to the total. */
  lemma CyclesSnoc(spec: Spec, draw: RollSource, mark: Marker, fmt: Formatter, n: nat)
    requires n >= 1
    ensures Join(Texts(Cycles(spec, draw, mark, fmt, n + 1)), "\n") ==
              Join(Texts(Cycles(spec, draw, mark, fmt, n)), "\n") + "\n" + Cycle(spec, draw, mark, fmt, n).text
    ensures SumOf(Cycles(spec, draw, mark, fmt, n + 1)) ==
              SumOf(Cycles(spec, draw, mark, fmt, n)) + Cycle(spec, draw, mark, fmt, n).sum
  {
    CyclesStep(spec, draw, mark, fmt, n);
    TextsSnoc(Cycles(spec, draw, mark, fmt, n), Cycle(spec, draw, mark, fmt, n));
    SumOfSnoc(Cycles(spec, draw, mark, fmt, n), Cycle(spec, draw, mark, fmt, n));
  }

  /** `eval_dice_expression`, with the random source, `mark_rolls` and `format_roll` as parameters. */
  method EvalDiceExpression(expression: string, draw: RollSource, mark: Marker, fmt: Formatter) returns (r: Option<string>)
    ensures r == Evaluate(expression, draw, mark, fmt)
  {
    var groups := Recognize(expression);
    if groups.None? {
      return None;
    }
    var resolved := Resolve(groups.value);
    if resolved.None? {
      return None;
    }
    var spec := resolved.value;
    var aggregate := Aggregate(spec, draw, mark, fmt);
    r := Some(Heading(spec) + "\n" + aggregate.text + TotalText(spec.repeat, aggregate.sum));
  }

  // ---------------------------------------------------------------------------
  // Properties of the reply

  /** There is no reply exactly when the text does not match, or matches with neither a die size nor a modifier. */
  lemma NoReply(expression: string, draw: RollSource, mark: Marker, fmt: Formatter)
    ensures Evaluate(expression, draw, mark, fmt).None? <==>
              Recognize(expression).None? ||
              (Recognize(expression).value.diceSize.None? && Recognize(expression).value.modifier.None?)
  {
  }

  /**
   * A reply runs between one and twenty cycles, never zero, so the
   * aggregation always has a first cycle; the count is the clamped larger of
   * the two repeat counts.
   */
  lemma CycleCount(groups: Captures)
    requires Resolve(groups).Some?
    ensures 1 <= Resolve(groups).value.repeat <= 20
    ensures Resolve(groups).value.repeat == Clamp(Max(Parse(groups.repeat1, 1), Parse(groups.repeat2, 1)), 1, 20)
  {
  }

  /** Under advantage or disadvantage cycle `idx` uses exactly calls `2*idx` and `2*idx+1` of `roll`. */
  lemma DuelDraws(spec: Spec, draw: RollSource, mark: Marker, fmt: Formatter, idx: nat)
    requires spec.advantage || spec.disadvantage
    ensures Cycle(spec, draw, mark, fmt, idx) ==
              Duel(spec, draw(spec.diceSize, spec.reroll, 2 * idx), draw(spec.diceSize, spec.reroll, 2 * idx + 1), fmt)
  {
    assert RollsPerIteration(spec) == 2;
    assert idx * RollsPerIteration(spec) == 2 * idx;
    var rolls := CycleRolls(spec, draw, 2 * idx);
    CycleIsScored(spec, draw, mark, fmt, idx);
    DuelScored(spec, rolls, mark, fmt);
    assert rolls[0] == draw(spec.diceSize, spec.reroll, 2 * idx);
    assert rolls[1] == draw(spec.diceSize, spec.reroll, 2 * idx + 1);
  }

  lemma CycleIsScored(spec: Spec, draw: RollSource, mark: Marker, fmt: Formatter, idx: nat)
    ensures Cycle(spec, draw, mark, fmt, idx) ==
              ScoreIteration(spec, CycleRolls(spec, draw, idx * RollsPerIteration(spec)), mark, fmt)
  {
  }

  /** The lines of a reply: the heading, the cycle lines, and the total line when there are several cycles. */
  function ReplyLines(heading: string, texts: seq<string>, repeat: int, total: int): seq<string> {
    [heading] + texts + (if repeat > 1 then [TotalLine(total)] else [])
  }

  /** The heading, a line break and the joined cycle lines is the join of all of them. */
  lemma {:induction false} PrefixJoin(heading: string, texts: seq<string>)
    requires |texts| >= 1
    ensures Join([heading] + texts, "\n") == heading + "\n" + Join(texts, "\n")
  {
    assert ([heading] + texts)[1..] == texts;
  }

  lemma ReplyIsJoin(heading: string, texts: seq<string>, repeat: int, total: int)
    requires |texts| >= 1
    ensures heading + "\n" + Join(texts, "\n") + TotalText(repeat, total) ==
              Join(ReplyLines(heading, texts, repeat, total), "\n")
  {
    if repeat > 1 {
      PrefixJoin(heading, texts);
      JoinSnoc([heading] + texts, TotalLine(total), "\n");
    } else {
      PrefixJoin(heading, texts);
      assert ReplyLines(heading, texts, repeat, total) == [heading] + texts;
    }
  }

  lemma TotalLineOneLine(total: int)
    ensures '\n' !in TotalLine(total)
  {
    DecimalAvoids(total, '\n');
  }

  /** No line in `lines` holds the character `c`. */
  predicate LinesAvoid(lines: seq<string>, c: char) {
    forall i :: 0 <= i < |lines| ==> c !in lines[i]
  }

  lemma LinesAvoidAppend(a: seq<string>, b: seq<string>, c: char)
    requires LinesAvoid(a, c) && LinesAvoid(b, c)
    ensures LinesAvoid(a + b, c)
  {
    assert forall i :: |a| <= i < |a| + |b| ==> (a + b)[i] == b[i - |a|];
  }

  lemma ReplyLinesAvoid(heading: string, texts: seq<string>, repeat: int, total: int)
    requires '\n' !in heading
    requires forall i :: 0 <= i < |texts| ==> '\n' !in texts[i]
    ensures forall i :: 0 <= i < |ReplyLines(heading, texts, repeat, total)| ==>
              '\n' !in ReplyLines(heading, texts, repeat, total)[i]
  {
    TotalLineOneLine(total);
    var tail := if repeat > 1 then [TotalLine(total)] else [];
    assert LinesAvoid(texts, '\n');
    LinesAvoidAppend([heading], texts, '\n');
    LinesAvoidAppend([heading] + texts, tail, '\n');
    assert LinesAvoid(ReplyLines(heading, texts, repeat, total), '\n');
  }

  /** Splitting a reply built from one-line pieces at line breaks gives back its lines. */
  lemma ReplySplits(heading: string, texts: seq<string>, repeat: int, total: int)
    requires |texts| >= 1
    requires '\n' !in heading
    requires forall i :: 0 <= i < |texts| ==> '\n' !in texts[i]
    ensures Split(heading + "\n" + Join(texts, "\n") + TotalText(repeat, total), '\n') ==
              ReplyLines(heading, texts, repeat, total)
  {
    ReplyIsJoin(heading, texts, repeat, total);
    ReplyLinesAvoid(heading, texts, repeat, total);
    SplitJoin(ReplyLines(heading, texts, repeat, total), '\n');
  }

  lemma CycleOneLine(spec: Spec, draw: RollSource, mark: Marker, fmt: Formatter, idx: nat)
    requires OneLineFormatter(fmt)
    ensures '\n' !in Cycle(spec, draw, mark, fmt, idx).text
  {
    IterationOneLine(spec, CycleRolls(spec, draw, idx * RollsPerIteration(spec)), mark, fmt);
  }

  lemma FramedOneLine(description: string)
    requires '\n' !in description
    ensures '\n' !in "Rolling " + description + ":"
  {
  }

  lemma HeadingOneLine(spec: Spec)
    ensures '\n' !in Heading(spec)
  {
    NormalizedOneLine(spec);
    FramedOneLine(Normalized(spec));
  }

  lemma CyclesOneLine(spec: Spec, draw: RollSource, mark: Marker, fmt: Formatter, n: nat)
    requires OneLineFormatter(fmt)
    ensures forall i :: 0 <= i < n ==> '\n' !in Cycles(spec, draw, mark, fmt, n)[i].text
  {
    forall i | 0 <= i < n
      ensures '\n' !in Cycles(spec, draw, mark, fmt, n)[i].text
    {
      CycleOneLine(spec, draw, mark, fmt, i);
    }
  }

  /** The lines of a reply built from one-line cycle results. */
  lemma ResultsReplyLines(spec: Spec, results: seq<IterationResult>)
    requires |results| >= 1
    requires forall i :: 0 <= i < |results| ==> '\n' !in results[i].text
    ensures Split(Reply(spec, results), '\n') ==
              [Heading(spec)] + Texts(results) + (if spec.repeat > 1 then [TotalLine(SumOf(results))] else [])
  {
    var texts := Texts(results);
    assert forall i :: 0 <= i < |texts| ==> '\n' !in texts[i];
    HeadingOneLine(spec);
    ReplySplits(Heading(spec), texts, spec.repeat, SumOf(results));
  }

  /**
   * The shape of a reply, given a formatter that writes no line break: the
   * line `Rolling <normalized>:`, then one line per cycle in order, then
   * `Total: **T**` with T the sum of the cycle sums exactly when there are
   * several cycles.
   */
  lemma ReplyShape(spec: Spec, draw: RollSource, mark: Marker, fmt: Formatter)
    requires OneLineFormatter(fmt)
    requires spec.repeat >= 1
    ensures var results := Cycles(spec, draw, mark, fmt, spec.repeat);
            Split(Reply(spec, results), '\n') ==
              [Heading(spec)] + Texts(results) + (if spec.repeat > 1 then [TotalLine(SumOf(results))] else [])
  {
    CyclesOneLine(spec, draw, mark, fmt, spec.repeat);
    ResultsReplyLines(spec, Cycles(spec, draw, mark, fmt, spec.repeat));
  }

  /** A reply is the one built from the resolved parameters, with between one and twenty cycles. */
  lemma ReplyOfExpression(expression: string, draw: RollSource, mark: Marker, fmt: Formatter)
    requires Evaluate(expression, draw, mark, fmt).Some?
    ensures Recognize(expression).Some? && Resolve(Recognize(expression).value).Some?
    ensures var spec := Resolve(Recognize(expression).value).value;
            1 <= spec.repeat <= 20 &&
            Evaluate(expression, draw, mark, fmt) == Some(Reply(spec, Cycles(spec, draw, mark, fmt, spec.repeat)))
  {
  }
}
