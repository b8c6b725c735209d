/**
 * The dice-notation grammar of `eval_dice_expression`, written as a
 * hand-written tokenizer instead of a regular expression. The input has its
 * spaces removed and its letters folded to lower case; then come an optional
 * leading `N*`, an optional dice group `[N]dM`, and any number of trailing
 * tokens, each the first alternative that matches at its position. A field
 * set by several tokens keeps the value of the last one.
 */
module Recognizer {
  import opened Wrappers
  import opened Numerals

  /** The named capture groups, each absent or holding the text it matched. */
  datatype Captures = Captures(
    repeat1: Option<string>,
    numDice: Option<string>,
    diceSize: Option<string>,
    dropLowest: Option<string>,
    dropHighest: Option<string>,
    keepLowest: Option<string>,
    keepHighest: Option<string>,
    disadvantage: Option<string>,
    advantage: Option<string>,
    repeat2: Option<string>,
    reroll: Option<string>,
    modifier: Option<string>)

  const NoCaptures: Captures :=
    Captures(None, None, None, None, None, None, None, None, None, None, None, None)

  /** One trailing token, carrying the text of its capture group. */
  datatype Token =
    | DropLowest(amount: string)
    | DropHighest(amount: string)
    | KeepLowest(amount: string)
    | KeepHighest(amount: string)
    | Disadvantage(word: string)
    | Advantage(word: string)
    | Repeat(count: string)
    | Reroll(threshold: string)
    | Modifier(signed: string)

  /** `expression.replace(" ", "")`: only the space character is removed. */
  function StripSpaces(s: string): (r: string)
    ensures ' ' !in r
    ensures forall c :: c in r <==> c in s && c != ' '
    ensures |r| <= |s|
    ensures multiset(r) == multiset(s)[' ' := 0]
  {
    if |s| == 0 then
      ""
    else
      assert s == [s[0]] + s[1..];
      (if s[0] == ' ' then "" else [s[0]]) + StripSpaces(s[1..])
  }

  /** Case-insensitive matching, as an ASCII fold to lower case. */
  function FoldChar(c: char): (d: char)
    ensures 'A' <= c <= 'Z' ==> d as int == c as int + 32
    ensures !('A' <= c <= 'Z') ==> d == c
  {
    if 'A' <= c <= 'Z' then (c as int + 32) as char else c
  }

  function Fold(s: string): (r: string)
    ensures |r| == |s| && forall i :: 0 <= i < |s| ==> r[i] == FoldChar(s[i])
  {
    seq(|s|, i requires 0 <= i < |s| => FoldChar(s[i]))
  }

  /** The length of the longest run of digits that starts `s` (`\d+` is greedy). */
  function DigitRun(s: string): (n: nat)
    ensures n <= |s| && AllDigits(s[..n])
    ensures n < |s| ==> !IsDigit(s[n])
  {
    if |s| == 0 || !IsDigit(s[0]) then
      0
    else
      var n := 1 + DigitRun(s[1..]);
      assert forall i :: 1 <= i < n ==> s[..n][i] == s[1..][..n - 1][i - 1];
      n
  }

  predicate StartsWith(s: string, p: string) {
    |p| <= |s| && s[..|p|] == p
  }

  /** At least one digit from position `p` on: the digits and the position after them. */
  function DigitsFrom(s: string, p: nat): (r: Option<(string, nat)>)
    requires p <= |s|
    ensures r.Some? ==> p < r.value.1 <= |s| && r.value.0 == s[p..r.value.1]
    ensures r.Some? ==> AllDigits(r.value.0) && (r.value.1 < |s| ==> !IsDigit(s[r.value.1]))
    ensures r.None? <==> p == |s| || !IsDigit(s[p])
  {
    var k := DigitRun(s[p..]);
    assert s[p..][..k] == s[p..p + k];
    if k == 0 then None else Some((s[p..p + k], p + k))
  }

  /** `dl?(\d+)`: drop lowest. */
  function DropLowestAt(s: string): (r: Option<(Token, nat)>)
    ensures r.Some? ==> 0 < r.value.1 <= |s| && TokenWellFormed(r.value.0)
  {
    if !StartsWith(s, "d") then None
    else
      match DigitsFrom(s, if StartsWith(s, "dl") then 2 else 1)
      case None => None
      case Some((ds, n)) => Some((DropLowest(ds), n))
  }

  /** `dh(\d+)`: drop highest. */
  function DropHighestAt(s: string): (r: Option<(Token, nat)>)
    ensures r.Some? ==> 0 < r.value.1 <= |s| && TokenWellFormed(r.value.0)
  {
    if !StartsWith(s, "dh") then None
    else
      match DigitsFrom(s, 2)
      case None => None
      case Some((ds, n)) => Some((DropHighest(ds), n))
  }

  /** `kl(\d+)`: keep lowest. */
  function KeepLowestAt(s: string): (r: Option<(Token, nat)>)
    ensures r.Some? ==> 0 < r.value.1 <= |s| && TokenWellFormed(r.value.0)
  {
    if !StartsWith(s, "kl") then None
    else
      match DigitsFrom(s, 2)
      case None => None
      case Some((ds, n)) => Some((KeepLowest(ds), n))
  }

  /** `kh?(\d+)`: keep highest. */
  function KeepHighestAt(s: string): (r: Option<(Token, nat)>)
    ensures r.Some? ==> 0 < r.value.1 <= |s| && TokenWellFormed(r.value.0)
  {
    if !StartsWith(s, "k") then None
    else
      match DigitsFrom(s, if StartsWith(s, "kh") then 2 else 1)
      case None => None
      case Some((ds, n)) => Some((KeepHighest(ds), n))
  }

  /** `d(?:is(?:adv(?:antage)?)?)?`: the longest of the four spellings. */
  function DisadvantageAt(s: string): (r: Option<(Token, nat)>)
    ensures r.Some? ==> 0 < r.value.1 <= |s| && TokenWellFormed(r.value.0)
  {
    if StartsWith(s, "disadvantage") then Some((Disadvantage("disadvantage"), 12))
    else if StartsWith(s, "disadv") then Some((Disadvantage("disadv"), 6))
    else if StartsWith(s, "dis") then Some((Disadvantage("dis"), 3))
    else if StartsWith(s, "d") then Some((Disadvantage("d"), 1))
    else None
  }

  /** `a(?:dv(?:antage)?)?`: the longest of the three spellings. */
  function AdvantageAt(s: string): (r: Option<(Token, nat)>)
    ensures r.Some? ==> 0 < r.value.1 <= |s| && TokenWellFormed(r.value.0)
  {
    if StartsWith(s, "advantage") then Some((Advantage("advantage"), 9))
    else if StartsWith(s, "adv") then Some((Advantage("adv"), 3))
    else if StartsWith(s, "a") then Some((Advantage("a"), 1))
    else None
  }

  /** `(?:\*|rep(?:eat)?)(\d+)`: a trailing repeat count. */
  function RepeatAt(s: string): (r: Option<(Token, nat)>)
    ensures r.Some? ==> 0 < r.value.1 <= |s| && TokenWellFormed(r.value.0)
  {
    var p := if StartsWith(s, "*") then 1
             else if StartsWith(s, "repeat") then 6
             else if StartsWith(s, "rep") then 3
             else 0;
    if p == 0 then None
    else
      match DigitsFrom(s, p)
      case None => None
      case Some((ds, n)) => Some((Repeat(ds), n))
  }

  /** `r(?:eroll)?(\d+)`: the reroll threshold. */
  function RerollAt(s: string): (r: Option<(Token, nat)>)
    ensures r.Some? ==> 0 < r.value.1 <= |s| && TokenWellFormed(r.value.0)
  {
    if !StartsWith(s, "r") then None
    else
      match DigitsFrom(s, if StartsWith(s, "reroll") then 6 else 1)
      case None => None
      case Some((ds, n)) => Some((Reroll(ds), n))
  }

  /** `[+-]\d+`: the modifier, sign included. */
  function ModifierAt(s: string): (r: Option<(Token, nat)>)
    ensures r.Some? ==> 0 < r.value.1 <= |s| && TokenWellFormed(r.value.0)
  {
    if !(StartsWith(s, "+") || StartsWith(s, "-")) then None
    else
      match DigitsFrom(s, 1)
      case None => None
      case Some((_, n)) =>
        assert s[..n][1..] == s[1..n];
        Some((Modifier(s[..n]), n))
  }

  /** What each alternative can capture. */
  predicate TokenWellFormed(t: Token) {
    match t
    case DropLowest(a) => |a| >= 1 && AllDigits(a)
    case DropHighest(a) => |a| >= 1 && AllDigits(a)
    case KeepLowest(a) => |a| >= 1 && AllDigits(a)
    case KeepHighest(a) => |a| >= 1 && AllDigits(a)
    case Disadvantage(w) => w in ["d", "dis", "disadv", "disadvantage"]
    case Advantage(w) => w in ["a", "adv", "advantage"]
    case Repeat(n) => |n| >= 1 && AllDigits(n)
    case Reroll(n) => |n| >= 1 && AllDigits(n)
    case Modifier(m) => |m| >= 2 && m[0] in "+-" && AllDigits(m[1..])
  }

  /** The token at the start of `s`: the first alternative, in the grammar's order, that matches. */
  function NextToken(s: string): (r: Option<(Token, nat)>)
    ensures r.Some? ==> 0 < r.value.1 <= |s| && TokenWellFormed(r.value.0)
  {
    var dl := DropLowestAt(s);
    var dh := DropHighestAt(s);
    var kl := KeepLowestAt(s);
    var kh := KeepHighestAt(s);
    var dis := DisadvantageAt(s);
    var adv := AdvantageAt(s);
    var rep := RepeatAt(s);
    var rr := RerollAt(s);
    var md := ModifierAt(s);
    if dl.Some? then dl
    else if dh.Some? then dh
    else if kl.Some? then kl
    else if kh.Some? then kh
    else if dis.Some? then dis
    else if adv.Some? then adv
    else if rep.Some? then rep
    else if rr.Some? then rr
    else md
  }

  /** A token writes its own capture group and leaves every other one as it was. */
  function Record(c: Captures, t: Token): (r: Captures)
    ensures r.repeat1 == c.repeat1 && r.numDice == c.numDice && r.diceSize == c.diceSize
    ensures r.dropLowest == if t.DropLowest? then Some(t.amount) else c.dropLowest
    ensures r.dropHighest == if t.DropHighest? then Some(t.amount) else c.dropHighest
    ensures r.keepLowest == if t.KeepLowest? then Some(t.amount) else c.keepLowest
    ensures r.keepHighest == if t.KeepHighest? then Some(t.amount) else c.keepHighest
    ensures r.disadvantage == if t.Disadvantage? then Some(t.word) else c.disadvantage
    ensures r.advantage == if t.Advantage? then Some(t.word) else c.advantage
    ensures r.repeat2 == if t.Repeat? then Some(t.count) else c.repeat2
    ensures r.reroll == if t.Reroll? then Some(t.threshold) else c.reroll
    ensures r.modifier == if t.Modifier? then Some(t.signed) else c.modifier
  {
    match t
    case DropLowest(a) => c.(dropLowest := Some(a))
    case DropHighest(a) => c.(dropHighest := Some(a))
    case KeepLowest(a) => c.(keepLowest := Some(a))
    case KeepHighest(a) => c.(keepHighest := Some(a))
    case Disadvantage(w) => c.(disadvantage := Some(w))
    case Advantage(w) => c.(advantage := Some(w))
    case Repeat(n) => c.(repeat2 := Some(n))
    case Reroll(n) => c.(reroll := Some(n))
    case Modifier(m) => c.(modifier := Some(m))
  }

  /** `(...)*$`: the rest of the input is a sequence of trailing tokens, recorded in order. */
  function Tokens(s: string, c: Captures): Option<Captures>
    decreases |s|
  {
    if |s| == 0 then
      Some(c)
    else
      match NextToken(s)
      case None => None
      case Some((t, n)) => Tokens(s[n..], Record(c, t))
  }

  /** `(?:(\d+)?d(\d+))?`: the optional count, the size and the position after the group. */
  function DiceGroup(s: string): (r: Option<(Option<string>, string, nat)>)
    ensures r.Some? ==> r.value.2 <= |s|
  {
    var nd := DigitRun(s);
    if nd < |s| && s[nd] == 'd' then
      match DigitsFrom(s, nd + 1)
      case None => None
      case Some((size, n)) => Some((if nd > 0 then Some(s[..nd]) else None, size, n))
    else
      None
  }

  /** What follows the leading repeat count: the optional dice group, then the trailing tokens. */
  function DiceAndTokens(rest: string, c: Captures): Option<Captures> {
    match DiceGroup(rest)
    case Some((count, size, n)) => Tokens(rest[n..], c.(numDice := count, diceSize := Some(size)))
    case None => Tokens(rest, c)
  }

  /** The whole grammar, anchored at both ends, on a string without spaces or capitals. */
  function Match(s: string): Option<Captures> {
    var n1 := DigitRun(s);
    if 0 < n1 < |s| && s[n1] == '*' then
      DiceAndTokens(s[n1 + 1..], NoCaptures.(repeat1 := Some(s[..n1])))
    else
      DiceAndTokens(s, NoCaptures)
  }

  /** `RE.captures(&expression.replace(" ", ""))`. */
  function Recognize(expression: string): Option<Captures> {
    Match(Fold(StripSpaces(expression)))
  }

  // ---------------------------------------------------------------------------
  // Properties of the recognizer

  lemma {:induction false} StripSpacesNoop(s: string)
    requires ' ' !in s
    ensures StripSpaces(s) == s
  {
    if |s| > 0 {
      assert s[0] in s;
      assert forall c :: c in s[1..] ==> c in s;
      StripSpacesNoop(s[1..]);
      assert s == [s[0]] + s[1..];
    }
  }

  /** Removing spaces first changes nothing: only `' '` is dropped, and it is all dropped. */
  lemma SpacesIgnored(expression: string)
    ensures Recognize(StripSpaces(expression)) == Recognize(expression)
  {
    StripSpacesNoop(StripSpaces(expression));
  }

  lemma FoldAppend(a: string, b: string)
    ensures Fold(a + b) == Fold(a) + Fold(b)
  {
  }

  lemma {:induction false} StripFoldCommute(s: string)
    ensures StripSpaces(Fold(s)) == Fold(StripSpaces(s))
  {
    if |s| > 0 {
      var head := if s[0] == ' ' then "" else [s[0]];
      var tail := StripSpaces(s[1..]);
      assert Fold(s)[1..] == Fold(s[1..]);
      StripFoldCommute(s[1..]);
      FoldAppend(head, tail);
      assert Fold(head) == if FoldChar(s[0]) == ' ' then "" else [FoldChar(s[0])];
    }
  }

  /** Matching is case-insensitive: folding the input first changes nothing. */
  lemma CaseIgnored(expression: string)
    ensures Recognize(Fold(expression)) == Recognize(expression)
  {
    StripFoldCommute(expression);
    var stripped := StripSpaces(expression);
    assert Fold(Fold(stripped)) == Fold(stripped);
  }

  /** A capture of `\d+`: one or more digits. */
  predicate Numeral(o: Option<string>) {
    o.Some? ==> |o.value| >= 1 && AllDigits(o.value)
  }

  /** What the grammar can put in each capture group. */
  predicate WellFormed(c: Captures) {
    && Numeral(c.repeat1) && Numeral(c.numDice) && Numeral(c.diceSize)
    && Numeral(c.dropLowest) && Numeral(c.dropHighest)
    && Numeral(c.keepLowest) && Numeral(c.keepHighest)
    && Numeral(c.repeat2) && Numeral(c.reroll)
    && (c.modifier.Some? ==>
          |c.modifier.value| >= 2 && c.modifier.value[0] in "+-" && AllDigits(c.modifier.value[1..]))
    && (c.disadvantage.Some? ==> c.disadvantage.value in ["d", "dis", "disadv", "disadvantage"])
    && (c.advantage.Some? ==> c.advantage.value in ["a", "adv", "advantage"])
    && (c.numDice.Some? ==> c.diceSize.Some?)
  }

  lemma RecordWellFormed(c: Captures, t: Token)
    requires WellFormed(c) && TokenWellFormed(t)
    ensures WellFormed(Record(c, t))
  {
  }

  /**
   * Trailing tokens keep the captures well formed, and never set the leading
   * repeat or the dice group: those are only recognized before any token.
   */
  lemma {:induction false} TokensWellFormed(s: string, c: Captures)
    requires WellFormed(c)
    ensures Tokens(s, c).Some? ==> WellFormed(Tokens(s, c).value)
    ensures Tokens(s, c).Some? ==>
              var r := Tokens(s, c).value;
              r.repeat1 == c.repeat1 && r.numDice == c.numDice && r.diceSize == c.diceSize
    decreases |s|
  {
    if |s| > 0 && NextToken(s).Some? {
      var (t, n) := NextToken(s).value;
      RecordWellFormed(c, t);
      TokensWellFormed(s[n..], Record(c, t));
    }
  }

  /** The optional dice group captures numerals, and a count only together with a size. */
  lemma DiceGroupWellFormed(rest: string)
    ensures DiceGroup(rest).Some? ==>
              var (count, size, _) := DiceGroup(rest).value;
              Numeral(count) && Numeral(Some(size))
  {
    var nd := DigitRun(rest);
    if DiceGroup(rest).Some? {
      var (count, _, _) := DiceGroup(rest).value;
      assert count.Some? ==> count.value == rest[..nd];
    }
  }

  lemma DiceAndTokensWellFormed(rest: string, c: Captures)
    requires WellFormed(c)
    ensures DiceAndTokens(rest, c).Some? ==> WellFormed(DiceAndTokens(rest, c).value)
  {
    DiceGroupWellFormed(rest);
    match DiceGroup(rest)
    case Some((count, size, n)) =>
      TokensWellFormed(rest[n..], c.(numDice := count, diceSize := Some(size)));
    case None =>
      TokensWellFormed(rest, c);
  }

  /** Every capture set the recognizer returns is well formed. */
  lemma RecognizeWellFormed(expression: string)
    ensures Recognize(expression).Some? ==> WellFormed(Recognize(expression).value)
  {
    var s := Fold(StripSpaces(expression));
    var n1 := DigitRun(s);
    if 0 < n1 < |s| && s[n1] == '*' {
      DiceAndTokensWellFormed(s[n1 + 1..], NoCaptures.(repeat1 := Some(s[..n1])));
    } else {
      DiceAndTokensWellFormed(s, NoCaptures);
    }
  }

  /** Nothing in `rest` continues a run of digits. */
  predicate Separated(rest: string) {
    |rest| == 0 || !IsDigit(rest[0])
  }

  lemma {:induction false} DigitRunOf(ds: string, rest: string)
    requires AllDigits(ds) && Separated(rest)
    ensures DigitRun(ds + rest) == |ds|
  {
    if |ds| > 0 {
      assert (ds + rest)[1..] == ds[1..] + rest;
      DigitRunOf(ds[1..], rest);
    }
  }

  /** The digits right after a prefix, up to a separated rest. */
  lemma DigitsAfter(prefix: string, ds: string, rest: string)
    requires |ds| >= 1 && AllDigits(ds) && Separated(rest)
    ensures DigitsFrom(prefix + ds + rest, |prefix|) == Some((ds, |prefix| + |ds|))
  {
    var s := prefix + ds + rest;
    assert s[|prefix|..] == ds + rest;
    DigitRunOf(ds, rest);
    assert s[|prefix|..|prefix| + |ds|] == ds;
  }

  /** `d` or `dl` followed by digits is drop-lowest: that alternative is tried before disadvantage. */
  lemma DropLowestBeforeDisadvantage(ds: string, rest: string)
    requires |ds| >= 1 && AllDigits(ds)
    requires Separated(rest)
    ensures NextToken("d" + ds + rest) == Some((DropLowest(ds), 1 + |ds|))
    ensures NextToken("dl" + ds + rest) == Some((DropLowest(ds), 2 + |ds|))
  {
    DigitsAfter("d", ds, rest);
    DigitsAfter("dl", ds, rest);
    assert ("d" + ds + rest)[1] == ds[0];
  }

  /** A `d` that no digits follow, directly or after `l` or `h`, is the disadvantage keyword. */
  lemma BareDIsDisadvantage(rest: string)
    requires Separated(rest)
    requires |rest| >= 2 && rest[0] in "lh" ==> !IsDigit(rest[1])
    ensures NextToken("d" + rest).Some? && NextToken("d" + rest).value.0.Disadvantage?
  {
  }
}
