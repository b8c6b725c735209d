/**
 * Parameter resolution of `eval_dice_expression`: the captured numerals
 * become numbers with defaults and clamps, and at most one drop/keep
 * selection is chosen by a fixed priority.
 */
module Resolver {
  import opened Wrappers
  import opened Numerals
  import opened Util
  import opened Recognizer

  datatype DropOrKeep = Drop | Keep

  /**
   * The tuple `(drop_or_keep_amount, mark_condition, drop_or_keep)`, whose
   * three parts the source sets together or leaves all `None`.
   */
  datatype Selection = Selection(amount: int, condition: MarkCondition, action: DropOrKeep)

  /** The resolved parameters of one expression. */
  datatype Spec = Spec(
    numDice: int,
    diceSize: int,
    disadvantage: bool,
    advantage: bool,
    reroll: int,
    modifier: int,
    repeat: int,
    selection: Option<Selection>)

  /** The nested `parse`: the capture's i32 value, or `default` when it is absent or does not parse. */
  function Parse(capture: Option<string>, default: int): (r: int)
    ensures r == default || (capture.Some? && ParseI32(capture.value) == Some(r))
    ensures capture.Some? && ParseI32(capture.value).Some? ==> r == ParseI32(capture.value).value
    ensures IsI32(default) ==> IsI32(r)
  {
    match capture
    case Some(text) => (match ParseI32(text) case Some(n) => n case None => default)
    case None => default
  }

  /** A printed i32 parses back to itself; a printed value beyond i32 falls back to the default. */
  lemma ParseNumeral(n: int, default: int)
    ensures Parse(Some(IntToDecimal(n)), default) == if IsI32(n) then n else default
  {
    ParseDisplayed(n);
  }

  /**
   * The nested `parse_option`: the capture's value when it parses and lies in
   * `1..=maxValid`, otherwise `None` (so always `None` when `maxValid < 1`).
   */
  function ParseOption(capture: Option<string>, maxValid: int): (r: Option<int>)
    ensures r.Some? <==>
              capture.Some? && ParseI32(capture.value).Some? && 1 <= ParseI32(capture.value).value <= maxValid
    ensures r.Some? ==> 1 <= r.value <= maxValid && ParseI32(capture.value) == Some(r.value)
  {
    match capture
    case Some(text) =>
      (match ParseI32(text)
       case Some(n) => if 1 <= n <= maxValid then Some(n) else None
       case None => None)
    case None => None
  }

  /** `Ord::clamp`; the source only calls it with constant bounds in order. */
  function Clamp(x: int, lo: int, hi: int): (r: int)
    requires lo <= hi
    ensures lo <= r <= hi
    ensures lo <= x <= hi ==> r == x
    ensures x < lo ==> r == lo
    ensures x > hi ==> r == hi
  {
    if x < lo then lo else if x > hi then hi else x
  }

  function Max(a: int, b: int): (m: int)
    ensures m >= a && m >= b && (m == a || m == b)
  {
    if a >= b then a else b
  }

  /** The `if let ... else if let ...` chain that picks one drop/keep selection. */
  function ChooseSelection(dropLowest: Option<int>, dropHighest: Option<int>,
                           keepLowest: Option<int>, keepHighest: Option<int>): Option<Selection>
  {
    if dropLowest.Some? then Some(Selection(dropLowest.value, Lowest, Drop))
    else if dropHighest.Some? then Some(Selection(dropHighest.value, Highest, Drop))
    else if keepLowest.Some? then Some(Selection(keepLowest.value, Lowest, Keep))
    else if keepHighest.Some? then Some(Selection(keepHighest.value, Highest, Keep))
    else None
  }

  function Candidate(amount: Option<int>, condition: MarkCondition, action: DropOrKeep): Option<Selection> {
    match amount
    case Some(n) => Some(Selection(n, condition, action))
    case None => None
  }

  /** The selections in priority order: drop lowest, drop highest, keep lowest, keep highest. */
  function Candidates(dropLowest: Option<int>, dropHighest: Option<int>,
                      keepLowest: Option<int>, keepHighest: Option<int>): seq<Option<Selection>>
  {
    [Candidate(dropLowest, Lowest, Drop), Candidate(dropHighest, Highest, Drop),
     Candidate(keepLowest, Lowest, Keep), Candidate(keepHighest, Highest, Keep)]
  }

  /** The first present candidate; none when all are absent. */
  function FirstSome(cs: seq<Option<Selection>>): (r: Option<Selection>)
    ensures r.None? <==> forall k :: 0 <= k < |cs| ==> cs[k].None?
    ensures r.Some? ==> exists k :: 0 <= k < |cs| && cs[k] == r && forall j :: 0 <= j < k ==> cs[j].None?
  {
    if |cs| == 0 then None
    else if cs[0].Some? then cs[0]
    else
      var r := FirstSome(cs[1..]);
      assert forall k :: 1 <= k < |cs| ==> cs[k] == cs[1..][k - 1];
      if r.Some? then
        var k :| 0 <= k < |cs[1..]| && cs[1..][k] == r && forall j :: 0 <= j < k ==> cs[1..][j].None?;
        assert cs[k + 1] == r && forall j :: 0 <= j < k + 1 ==> cs[j].None?;
        r
      else
        r
  }

  /**
   * The chain picks the first present selection in the priority order, and
   * that one candidate fixes the amount, the condition and the action together.
   */
  lemma SelectionPriority(dropLowest: Option<int>, dropHighest: Option<int>,
                          keepLowest: Option<int>, keepHighest: Option<int>)
    ensures ChooseSelection(dropLowest, dropHighest, keepLowest, keepHighest) ==
            FirstSome(Candidates(dropLowest, dropHighest, keepLowest, keepHighest))
  {
    var cs := Candidates(dropLowest, dropHighest, keepLowest, keepHighest);
    var kh := FirstSome(cs[3..]);
    assert cs[3..][1..] == [];
    assert kh == cs[3];
    var kl := FirstSome(cs[2..]);
    assert cs[2..][1..] == cs[3..];
    assert kl == if cs[2].Some? then cs[2] else kh;
    var dh := FirstSome(cs[1..]);
    assert cs[1..][1..] == cs[2..];
    assert dh == if cs[1].Some? then cs[1] else kl;
  }

  /** The dice count before advantage or disadvantage forces it to one; it bounds every selection. */
  function CountedDice(c: Captures): (n: int)
    ensures 1 <= n <= 100
  {
    Clamp(Parse(c.numDice, 1), 1, 100)
  }

  /** The invariants every resolved expression satisfies. */
  predicate ValidSpec(s: Spec) {
    && 1 <= s.numDice <= 100
    && 1 <= s.repeat <= 20
    && ((s.advantage || s.disadvantage) ==> s.numDice == 1)
    && (s.selection.Some? ==> 1 <= s.selection.value.amount <= 99)
    && (s.selection.Some? && !s.advantage && !s.disadvantage ==> s.selection.value.amount <= s.numDice - 1)
    && IsI32(s.diceSize) && IsI32(s.reroll) && IsI32(s.modifier)
  }

  /**
   * The captures resolved to parameters: `None` unless a dice size or a
   * modifier was captured; otherwise the count with its clamp and the
   * advantage forcing, the die size (20 by default), the keywords, reroll and
   * modifier (0 by default), the repeat count and the one selection kept.
   */
  function Resolve(c: Captures): (r: Option<Spec>)
    ensures r.Some? <==> c.diceSize.Some? || c.modifier.Some?
    ensures r.Some? ==> ValidSpec(r.value)
    ensures r.Some? ==> r.value.advantage == c.advantage.Some? && r.value.disadvantage == c.disadvantage.Some?
    ensures r.Some? ==> r.value.numDice == if c.advantage.Some? || c.disadvantage.Some? then 1 else CountedDice(c)
    ensures r.Some? ==> r.value.repeat == Clamp(Max(Parse(c.repeat1, 1), Parse(c.repeat2, 1)), 1, 20)
    ensures r.Some? && r.value.selection.Some? ==> r.value.selection.value.amount <= CountedDice(c) - 1
    ensures r.Some? && CountedDice(c) == 1 ==> r.value.selection.None?
    ensures r.Some? ==> r.value.diceSize == Parse(c.diceSize, 20)
    ensures r.Some? ==> r.value.reroll == Parse(c.reroll, 0) && r.value.modifier == Parse(c.modifier, 0)
  {
    if c.diceSize.None? && c.modifier.None? then
      None
    else
      var counted := CountedDice(c);
      var disadvantage := c.disadvantage.Some?;
      var advantage := c.advantage.Some?;
      var dropLowest := ParseOption(c.dropLowest, counted - 1);
      var dropHighest := ParseOption(c.dropHighest, counted - 1);
      var keepLowest := ParseOption(c.keepLowest, counted - 1);
      var keepHighest := ParseOption(c.keepHighest, counted - 1);
      var repeat := Clamp(Max(Parse(c.repeat1, 1), Parse(c.repeat2, 1)), 1, 20);
      Some(Spec(
        numDice := if advantage || disadvantage then 1 else counted,
        diceSize := Parse(c.diceSize, 20),
        disadvantage := disadvantage,
        advantage := advantage,
        reroll := Parse(c.reroll, 0),
        modifier := Parse(c.modifier, 0),
        repeat := repeat,
        selection := ChooseSelection(dropLowest, dropHighest, keepLowest, keepHighest)))
  }

  /** The selection Resolve keeps is the first in-range candidate, by the fixed priority. */
  lemma ResolvedSelection(c: Captures)
    requires c.diceSize.Some? || c.modifier.Some?
    ensures
      var m := CountedDice(c) - 1;
      Resolve(c).value.selection ==
      FirstSome(Candidates(ParseOption(c.dropLowest, m), ParseOption(c.dropHighest, m),
                           ParseOption(c.keepLowest, m), ParseOption(c.keepHighest, m)))
  {
    var m := CountedDice(c) - 1;
    SelectionPriority(ParseOption(c.dropLowest, m), ParseOption(c.dropHighest, m),
                      ParseOption(c.keepLowest, m), ParseOption(c.keepHighest, m));
  }

  /**
   * A captured numeral without a sign is 20 when absent and its value when it
   * fits in an i32, else 20; a captured reroll threshold likewise with 0; and a
   * captured modifier `+N` or `-N` resolves to its signed value when that fits
   * in an i32, else to 0.
   */
  lemma ResolvedNumbers(c: Captures)
    requires WellFormed(c) && (c.diceSize.Some? || c.modifier.Some?)
    ensures var size := Resolve(c).value.diceSize;
            if c.diceSize.None? then size == 20
            else size == if DigitsValue(c.diceSize.value) <= I32Max then DigitsValue(c.diceSize.value) else 20
    ensures var reroll := Resolve(c).value.reroll;
            if c.reroll.None? then reroll == 0
            else reroll == if DigitsValue(c.reroll.value) <= I32Max then DigitsValue(c.reroll.value) else 0
    ensures var modifier := Resolve(c).value.modifier;
            if c.modifier.None? then modifier == 0
            else
              var v := SignedValue(c.modifier.value[0], c.modifier.value[1..]);
              modifier == if IsI32(v) then v else 0
  {
    if c.diceSize.Some? {
      ParseDigits(c.diceSize.value);
    }
    if c.reroll.Some? {
      ParseDigits(c.reroll.value);
    }
    if c.modifier.Some? {
      var m := c.modifier.value;
      ParseSigned(m[0], m[1..]);
      assert [m[0]] + m[1..] == m;
    }
  }

  /** Numerals written by the grammar are never negative, so the dice size is at least zero. */
  lemma WellFormedSizes(c: Captures)
    requires WellFormed(c) && (c.diceSize.Some? || c.modifier.Some?)
    ensures Resolve(c).value.diceSize >= 0 && Resolve(c).value.reroll >= 0
  {
    if c.diceSize.Some? {
      ParseDigits(c.diceSize.value);
    }
    if c.reroll.Some? {
      ParseDigits(c.reroll.value);
    }
  }
}
