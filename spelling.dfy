/**
 * A canonical spelling of dice notation, and the proof that the recognizer
 * reads every canonical spelling back as the capture set it spells.
 */
module Spelling {
  import opened Wrappers
  import opened Numerals
  import opened Recognizer

  /** The keywords in their long spellings. */
  predicate Canonical(t: Token) {
    && (t.Disadvantage? ==> t.word == "disadvantage")
    && (t.Advantage? ==> t.word == "advantage")
  }

  /** The spelling of one trailing token. */
  function Spell(t: Token): (s: string)
    requires TokenWellFormed(t)
    ensures |s| >= 1 && !IsDigit(s[0])
    ensures s[0] == 'd' ==> |s| >= 2 && !IsDigit(s[1])
  {
    match t
    case DropLowest(a) => "dl" + a
    case DropHighest(a) => "dh" + a
    case KeepLowest(a) => "kl" + a
    case KeepHighest(a) => "kh" + a
    case Disadvantage(w) => "disadvantage"
    case Advantage(w) => "advantage"
    case Repeat(n) => "*" + n
    case Reroll(n) => "r" + n
    case Modifier(m) => m
  }

  /** A string cannot start with a word whose first letter it does not start with. */
  lemma Differs(s: string, p: string)
    requires |s| >= 1 && |p| >= 1
    ensures s[0] != p[0] ==> !StartsWith(s, p)
  {
    assert |p| <= |s| ==> s[..|p|][0] == s[0];
  }

  /** Which alternatives the first character rules out. */
  lemma AlternativesByFirst(s: string)
    requires |s| >= 1
    ensures s[0] != 'd' ==> DropLowestAt(s).None? && DropHighestAt(s).None? && DisadvantageAt(s).None?
    ensures s[0] != 'k' ==> KeepLowestAt(s).None? && KeepHighestAt(s).None?
    ensures s[0] != 'a' ==> AdvantageAt(s).None?
    ensures s[0] != '*' && s[0] != 'r' ==> RepeatAt(s).None?
    ensures s[0] != 'r' ==> RerollAt(s).None?
    ensures s[0] != '+' && s[0] != '-' ==> ModifierAt(s).None?
  {
    Differs(s, "d"); Differs(s, "dh"); Differs(s, "dis"); Differs(s, "disadv"); Differs(s, "disadvantage");
    Differs(s, "k"); Differs(s, "kl");
    Differs(s, "a"); Differs(s, "adv"); Differs(s, "advantage");
    Differs(s, "*"); Differs(s, "rep"); Differs(s, "repeat");
    Differs(s, "r");
    Differs(s, "+"); Differs(s, "-");
  }

  lemma SpellDropLowest(a: string, rest: string)
    requires |a| >= 1 && AllDigits(a) && Separated(rest)
    ensures NextToken(Spell(DropLowest(a)) + rest) == Some((DropLowest(a), |Spell(DropLowest(a))|))
  {
    DigitsAfter("dl", a, rest);
  }

  lemma SpellDropHighest(a: string, rest: string)
    requires |a| >= 1 && AllDigits(a) && Separated(rest)
    ensures NextToken(Spell(DropHighest(a)) + rest) == Some((DropHighest(a), |Spell(DropHighest(a))|))
  {
    DigitsAfter("dh", a, rest);
    var s := "dh" + a + rest;
    assert !StartsWith(s, "dl") && !IsDigit(s[1]);
  }

  lemma SpellKeepLowest(a: string, rest: string)
    requires |a| >= 1 && AllDigits(a) && Separated(rest)
    ensures NextToken(Spell(KeepLowest(a)) + rest) == Some((KeepLowest(a), |Spell(KeepLowest(a))|))
  {
    DigitsAfter("kl", a, rest);
  }

  lemma SpellKeepHighest(a: string, rest: string)
    requires |a| >= 1 && AllDigits(a) && Separated(rest)
    ensures NextToken(Spell(KeepHighest(a)) + rest) == Some((KeepHighest(a), |Spell(KeepHighest(a))|))
  {
    DigitsAfter("kh", a, rest);
    var s := "kh" + a + rest;
    AlternativesByFirst(s);
    assert s[..2] == "kh";
    assert s[1] == 'h';
  }

  /** The second character `i` rules out a drop-lowest or drop-highest group. */
  lemma DisadvantageAlone(rest: string)
    ensures DropLowestAt("disadvantage" + rest).None? && DropHighestAt("disadvantage" + rest).None?
    ensures DisadvantageAt("disadvantage" + rest) == Some((Disadvantage("disadvantage"), 12))
  {
    var s := "disadvantage" + rest;
    assert s[..12] == "disadvantage";
    assert s[..1] == "d" && s[..2] == "di" && s[1] == 'i';
  }

  lemma SpellDisadvantage(rest: string)
    ensures NextToken(Spell(Disadvantage("disadvantage")) + rest) == Some((Disadvantage("disadvantage"), |Spell(Disadvantage("disadvantage"))|))
  {
    DisadvantageAlone(rest);
    AlternativesByFirst("disadvantage" + rest);
  }

  lemma SpellAdvantage(rest: string)
    ensures NextToken(Spell(Advantage("advantage")) + rest) == Some((Advantage("advantage"), |Spell(Advantage("advantage"))|))
  {
    var s := "advantage" + rest;
    AlternativesByFirst(s);
    assert s[..9] == "advantage";
  }

  lemma SpellRepeat(n: string, rest: string)
    requires |n| >= 1 && AllDigits(n) && Separated(rest)
    ensures NextToken(Spell(Repeat(n)) + rest) == Some((Repeat(n), |Spell(Repeat(n))|))
  {
    DigitsAfter("*", n, rest);
    AlternativesByFirst("*" + n + rest);
  }

  /** A digit in second place rules out the spelled-out `rep`, `repeat` and `reroll`. */
  lemma DigitSecond(s: string)
    requires |s| >= 2 && IsDigit(s[1])
    ensures !StartsWith(s, "rep") && !StartsWith(s, "repeat") && !StartsWith(s, "reroll")
  {
    assert |s| >= 3 ==> s[..3][1] == s[1];
    assert |s| >= 6 ==> s[..6][1] == s[1];
  }

  lemma RerollAlone(n: string, rest: string)
    requires |n| >= 1 && AllDigits(n) && Separated(rest)
    ensures RepeatAt("r" + n + rest).None?
    ensures RerollAt("r" + n + rest) == Some((Reroll(n), 1 + |n|))
  {
    DigitsAfter("r", n, rest);
    var s := "r" + n + rest;
    assert s[1] == n[0];
    DigitSecond(s);
    assert s[..1] == "r";
  }

  lemma SpellReroll(n: string, rest: string)
    requires |n| >= 1 && AllDigits(n) && Separated(rest)
    ensures NextToken(Spell(Reroll(n)) + rest) == Some((Reroll(n), |Spell(Reroll(n))|))
  {
    RerollAlone(n, rest);
    AlternativesByFirst("r" + n + rest);
  }

  lemma SpellModifier(m: string, rest: string)
    requires |m| >= 2 && m[0] in "+-" && AllDigits(m[1..]) && Separated(rest)
    ensures NextToken(Spell(Modifier(m)) + rest) == Some((Modifier(m), |Spell(Modifier(m))|))
  {
    DigitsAfter([m[0]], m[1..], rest);
    var s := m + rest;
    assert [m[0]] + m[1..] + rest == s;
    AlternativesByFirst(s);
    assert s[..|m|] == m;
  }

  /** Each canonical token is read back whole from its spelling, whatever separated text follows. */
  lemma SpellNext(t: Token, rest: string)
    requires TokenWellFormed(t) && Canonical(t) && Separated(rest)
    ensures NextToken(Spell(t) + rest) == Some((t, |Spell(t)|))
  {
    match t
    case DropLowest(a) => SpellDropLowest(a, rest);
    case DropHighest(a) => SpellDropHighest(a, rest);
    case KeepLowest(a) => SpellKeepLowest(a, rest);
    case KeepHighest(a) => SpellKeepHighest(a, rest);
    case Disadvantage(w) =>
      assert t == Disadvantage("disadvantage");
      SpellDisadvantage(rest);
    case Advantage(w) =>
      assert t == Advantage("advantage");
      SpellAdvantage(rest);
    case Repeat(n) => SpellRepeat(n, rest);
    case Reroll(n) => SpellReroll(n, rest);
    case Modifier(m) => SpellModifier(m, rest);
  }

  function SpellAll(ts: seq<Token>): (s: string)
    requires forall i :: 0 <= i < |ts| ==> TokenWellFormed(ts[i])
    ensures Separated(s)
    ensures |s| >= 1 && s[0] == 'd' ==> |s| >= 2 && !IsDigit(s[1])
  {
    if |ts| == 0 then "" else Spell(ts[0]) + SpellAll(ts[1..])
  }

  /** The captures after recording `ts` in order. */
  function RecordAll(c: Captures, ts: seq<Token>): Captures
    decreases |ts|
  {
    if |ts| == 0 then c else RecordAll(Record(c, ts[0]), ts[1..])
  }

  /** A run of canonical tokens is read back token by token. */
  lemma {:induction false} TokensRoundTrip(ts: seq<Token>, c: Captures)
    requires forall i :: 0 <= i < |ts| ==> TokenWellFormed(ts[i]) && Canonical(ts[i])
    ensures Tokens(SpellAll(ts), c) == Some(RecordAll(c, ts))
    decreases |ts|
  {
    if |ts| > 0 {
      var first := Spell(ts[0]);
      var rest := SpellAll(ts[1..]);
      SpellNext(ts[0], rest);
      assert (first + rest)[|first|..] == rest;
      TokensRoundTrip(ts[1..], Record(c, ts[0]));
    }
  }

  lemma {:induction false} RecordAllAppend(c: Captures, a: seq<Token>, b: seq<Token>)
    ensures RecordAll(c, a + b) == RecordAll(RecordAll(c, a), b)
    decreases |a|
  {
    if |a| > 0 {
      assert (a + b)[1..] == a[1..] + b;
      RecordAllAppend(Record(c, a[0]), a[1..], b);
    } else {
      assert a + b == b;
    }
  }

  // ---------------------------------------------------------------------------
  // Capture sets

  /** A capture set whose keywords use their long spellings. */
  predicate CanonicalCaptures(c: Captures) {
    && WellFormed(c)
    && (c.disadvantage.Some? ==> c.disadvantage.value == "disadvantage")
    && (c.advantage.Some? ==> c.advantage.value == "advantage")
  }

  /** Well-formed tokens with long keywords. */
  predicate AllCanonical(ts: seq<Token>) {
    forall t :: t in ts ==> TokenWellFormed(t) && Canonical(t)
  }

  function DropLowestPart(c: Captures): seq<Token> {
    if c.dropLowest.Some? then [DropLowest(c.dropLowest.value)] else []
  }

  function DropHighestPart(c: Captures): seq<Token> {
    if c.dropHighest.Some? then [DropHighest(c.dropHighest.value)] else []
  }

  function KeepLowestPart(c: Captures): seq<Token> {
    if c.keepLowest.Some? then [KeepLowest(c.keepLowest.value)] else []
  }

  function KeepHighestPart(c: Captures): seq<Token> {
    if c.keepHighest.Some? then [KeepHighest(c.keepHighest.value)] else []
  }

  function DisadvantagePart(c: Captures): seq<Token> {
    if c.disadvantage.Some? then [Disadvantage(c.disadvantage.value)] else []
  }

  function AdvantagePart(c: Captures): seq<Token> {
    if c.advantage.Some? then [Advantage(c.advantage.value)] else []
  }

  function RepeatPart(c: Captures): seq<Token> {
    if c.repeat2.Some? then [Repeat(c.repeat2.value)] else []
  }

  function RerollPart(c: Captures): seq<Token> {
    if c.reroll.Some? then [Reroll(c.reroll.value)] else []
  }

  function ModifierPart(c: Captures): seq<Token> {
    if c.modifier.Some? then [Modifier(c.modifier.value)] else []
  }

  /** The trailing tokens of a capture set, one per present group, in the grammar's order. */
  function Trailing(c: Captures): seq<Token> {
    DropLowestPart(c) + DropHighestPart(c) + KeepLowestPart(c) + KeepHighestPart(c)
    + DisadvantagePart(c) + AdvantagePart(c) + RepeatPart(c) + RerollPart(c) + ModifierPart(c)
  }

  lemma PartsCanonical(c: Captures)
    requires CanonicalCaptures(c)
    ensures AllCanonical(DropLowestPart(c)) && AllCanonical(DropHighestPart(c))
    ensures AllCanonical(KeepLowestPart(c)) && AllCanonical(KeepHighestPart(c))
    ensures AllCanonical(DisadvantagePart(c)) && AllCanonical(AdvantagePart(c))
    ensures AllCanonical(RepeatPart(c)) && AllCanonical(RerollPart(c)) && AllCanonical(ModifierPart(c))
  {
  }

  lemma AllCanonicalAppend(a: seq<Token>, b: seq<Token>)
    requires AllCanonical(a) && AllCanonical(b)
    ensures AllCanonical(a + b)
  {
  }

  lemma TrailingCanonical(c: Captures)
    requires CanonicalCaptures(c)
    ensures forall i :: 0 <= i < |Trailing(c)| ==> TokenWellFormed(Trailing(c)[i]) && Canonical(Trailing(c)[i])
  {
    PartsCanonical(c);
    var x := DropLowestPart(c);
    AllCanonicalAppend(x, DropHighestPart(c));
    x := x + DropHighestPart(c);
    AllCanonicalAppend(x, KeepLowestPart(c));
    x := x + KeepLowestPart(c);
    AllCanonicalAppend(x, KeepHighestPart(c));
    x := x + KeepHighestPart(c);
    AllCanonicalAppend(x, DisadvantagePart(c));
    x := x + DisadvantagePart(c);
    AllCanonicalAppend(x, AdvantagePart(c));
    x := x + AdvantagePart(c);
    AllCanonicalAppend(x, RepeatPart(c));
    x := x + RepeatPart(c);
    AllCanonicalAppend(x, RerollPart(c));
    x := x + RerollPart(c);
    AllCanonicalAppend(x, ModifierPart(c));
    x := x + ModifierPart(c);
    assert x == Trailing(c);
    assert forall i :: 0 <= i < |x| ==> x[i] in x;
  }

  /** The groups before the trailing tokens, and nothing else. */
  function Base(c: Captures): Captures {
    NoCaptures.(repeat1 := c.repeat1, numDice := c.numDice, diceSize := c.diceSize)
  }

  /** Recording one part onto an empty group fills that group from `c` and nothing else. */
  lemma PartRecorded(c: Captures, d: Captures)
    ensures d.dropLowest.None? ==> RecordAll(d, DropLowestPart(c)) == d.(dropLowest := c.dropLowest)
    ensures d.dropHighest.None? ==> RecordAll(d, DropHighestPart(c)) == d.(dropHighest := c.dropHighest)
    ensures d.keepLowest.None? ==> RecordAll(d, KeepLowestPart(c)) == d.(keepLowest := c.keepLowest)
    ensures d.keepHighest.None? ==> RecordAll(d, KeepHighestPart(c)) == d.(keepHighest := c.keepHighest)
    ensures d.disadvantage.None? ==> RecordAll(d, DisadvantagePart(c)) == d.(disadvantage := c.disadvantage)
    ensures d.advantage.None? ==> RecordAll(d, AdvantagePart(c)) == d.(advantage := c.advantage)
    ensures d.repeat2.None? ==> RecordAll(d, RepeatPart(c)) == d.(repeat2 := c.repeat2)
    ensures d.reroll.None? ==> RecordAll(d, RerollPart(c)) == d.(reroll := c.reroll)
    ensures d.modifier.None? ==> RecordAll(d, ModifierPart(c)) == d.(modifier := c.modifier)
  {
  }

  /** Recording the trailing tokens on the leading groups rebuilds the capture set. */
  lemma RecordTrailing(c: Captures)
    ensures RecordAll(Base(c), Trailing(c)) == c
  {
    var x1 := DropLowestPart(c);
    var x2 := x1 + DropHighestPart(c);
    var x3 := x2 + KeepLowestPart(c);
    var x4 := x3 + KeepHighestPart(c);
    var x5 := x4 + DisadvantagePart(c);
    var x6 := x5 + AdvantagePart(c);
    var x7 := x6 + RepeatPart(c);
    var x8 := x7 + RerollPart(c);
    var b := Base(c);
    var c1 := b.(dropLowest := c.dropLowest);
    var c2 := c1.(dropHighest := c.dropHighest);
    var c3 := c2.(keepLowest := c.keepLowest);
    var c4 := c3.(keepHighest := c.keepHighest);
    var c5 := c4.(disadvantage := c.disadvantage);
    var c6 := c5.(advantage := c.advantage);
    var c7 := c6.(repeat2 := c.repeat2);
    var c8 := c7.(reroll := c.reroll);
    PartRecorded(c, b);
    RecordAllAppend(b, x1, DropHighestPart(c));
    PartRecorded(c, c1);
    RecordAllAppend(b, x2, KeepLowestPart(c));
    PartRecorded(c, c2);
    RecordAllAppend(b, x3, KeepHighestPart(c));
    PartRecorded(c, c3);
    RecordAllAppend(b, x4, DisadvantagePart(c));
    PartRecorded(c, c4);
    RecordAllAppend(b, x5, AdvantagePart(c));
    PartRecorded(c, c5);
    RecordAllAppend(b, x6, RepeatPart(c));
    PartRecorded(c, c6);
    RecordAllAppend(b, x7, RerollPart(c));
    PartRecorded(c, c7);
    RecordAllAppend(b, x8, ModifierPart(c));
    PartRecorded(c, c8);
    assert c8.(modifier := c.modifier) == c;
  }

  /** The leading repeat count and the dice group. */
  function DiceText(c: Captures): string {
    if c.diceSize.Some? then (if c.numDice.Some? then c.numDice.value else "") + "d" + c.diceSize.value else ""
  }

  function Lead(c: Captures): string {
    (if c.repeat1.Some? then c.repeat1.value + "*" else "") + DiceText(c)
  }

  /** The canonical spelling of a capture set. */
  function Unparse(c: Captures): string
    requires CanonicalCaptures(c)
  {
    TrailingCanonical(c);
    Lead(c) + SpellAll(Trailing(c))
  }

  /** A leading `N*` is read as the repeat count. */
  lemma RepeatPrefix(n: string, rest: string)
    requires |n| >= 1 && AllDigits(n)
    ensures var s := n + "*" + rest;
            DigitRun(s) == |n| && s[|n|] == '*' && s[..|n|] == n && s[|n| + 1..] == rest
  {
    var s := n + "*" + rest;
    assert s == n + ("*" + rest);
    DigitRunOf(n, "*" + rest);
    assert s[..|n|] == n;
    assert s[|n| + 1..] == rest;
  }

  /** The count of a dice group is the leading run of digits, and `d` follows it. */
  lemma DiceStart(count: string, size: string, tail: string)
    requires AllDigits(count)
    ensures var r := count + "d" + size + tail;
            DigitRun(r) == |count| && r[|count|] == 'd' && r[..|count|] == count
  {
    var r := count + "d" + size + tail;
    assert r == count + ("d" + size + tail);
    DigitRunOf(count, "d" + size + tail);
    assert r[..|count|] == count;
  }

  /** A dice group `[N]dM` followed by separated text. */
  lemma DicePrefix(count: string, size: string, tail: string)
    requires AllDigits(count) && |size| >= 1 && AllDigits(size) && Separated(tail)
    ensures var r := count + "d" + size + tail;
            DigitRun(r) == |count| &&
            DiceGroup(r) == Some((if |count| > 0 then Some(count) else None, size, |count| + 1 + |size|)) &&
            r[|count| + 1 + |size|..] == tail
  {
    DiceStart(count, size, tail);
    DigitsAfter(count + "d", size, tail);
  }

  /** Trailing tokens alone: no dice group is taken from them. */
  lemma NoDicePrefix(tail: string)
    requires Separated(tail)
    requires |tail| >= 1 && tail[0] == 'd' ==> |tail| >= 2 && !IsDigit(tail[1])
    ensures DigitRun(tail) == 0
    ensures DiceGroup(tail).None?
  {
  }

  /** After the leading repeat count, the dice group and the trailing tokens are read back. */
  lemma DiceAndTokensOfUnparse(c: Captures)
    requires CanonicalCaptures(c)
    ensures DiceAndTokens(DiceText(c) + (TrailingCanonical(c); SpellAll(Trailing(c))), NoCaptures.(repeat1 := c.repeat1)) == Some(c)
  {
    TrailingCanonical(c);
    var tail := SpellAll(Trailing(c));
    TokensRoundTrip(Trailing(c), Base(c));
    RecordTrailing(c);
    var rest := DiceText(c) + tail;
    if c.diceSize.Some? {
      var count := if c.numDice.Some? then c.numDice.value else "";
      assert rest == count + "d" + c.diceSize.value + tail;
      DicePrefix(count, c.diceSize.value, tail);
    } else {
      assert rest == tail;
      NoDicePrefix(tail);
    }
  }

  lemma MatchRepeat(n: string, rest: string)
    requires |n| >= 1 && AllDigits(n)
    ensures Match(n + "*" + rest) == DiceAndTokens(rest, NoCaptures.(repeat1 := Some(n)))
  {
    RepeatPrefix(n, rest);
  }

  lemma MatchNoRepeat(rest: string)
    requires !(0 < DigitRun(rest) < |rest| && rest[DigitRun(rest)] == '*')
    ensures Match(rest) == DiceAndTokens(rest, NoCaptures)
  {
  }

  lemma LeadWithRepeat(c: Captures, tail: string)
    requires c.repeat1.Some?
    ensures Lead(c) + tail == c.repeat1.value + "*" + (DiceText(c) + tail)
  {
  }

  /** Without a leading repeat count, the text starts with the dice group or a trailing token. */
  lemma LeadWithoutRepeat(c: Captures, tail: string)
    requires WellFormed(c) && c.repeat1.None?
    requires Separated(tail)
    requires |tail| >= 1 && tail[0] == 'd' ==> |tail| >= 2 && !IsDigit(tail[1])
    ensures Match(Lead(c) + tail) == DiceAndTokens(DiceText(c) + tail, NoCaptures)
  {
    var rest := DiceText(c) + tail;
    assert Lead(c) + tail == rest;
    if c.diceSize.Some? {
      var count := if c.numDice.Some? then c.numDice.value else "";
      assert rest == count + "d" + c.diceSize.value + tail;
      DiceStart(count, c.diceSize.value, tail);
    } else {
      NoDicePrefix(tail);
    }
    MatchNoRepeat(rest);
  }

  /** The leading groups in front of trailing text that is read back as `c`. */
  lemma MatchLead(c: Captures, tail: string)
    requires WellFormed(c)
    requires Separated(tail)
    requires |tail| >= 1 && tail[0] == 'd' ==> |tail| >= 2 && !IsDigit(tail[1])
    requires DiceAndTokens(DiceText(c) + tail, NoCaptures.(repeat1 := c.repeat1)) == Some(c)
    ensures Match(Lead(c) + tail) == Some(c)
  {
    if c.repeat1.Some? {
      LeadWithRepeat(c, tail);
      MatchRepeat(c.repeat1.value, DiceText(c) + tail);
    } else {
      LeadWithoutRepeat(c, tail);
      assert NoCaptures.(repeat1 := c.repeat1) == NoCaptures;
    }
  }

  /** The grammar reads every canonical spelling back as the capture set it spells. */
  lemma MatchUnparse(c: Captures)
    requires CanonicalCaptures(c)
    ensures Match(Unparse(c)) == Some(c)
  {
    TrailingCanonical(c);
    DiceAndTokensOfUnparse(c);
    MatchLead(c, SpellAll(Trailing(c)));
  }

  // ---------------------------------------------------------------------------
  // The raw message

  /** No spaces and no capitals: removing spaces and folding case leave the text as it is. */
  predicate Plain(s: string) {
    forall i :: 0 <= i < |s| ==> s[i] != ' ' && !('A' <= s[i] <= 'Z')
  }

  lemma PlainAppend(a: string, b: string)
    requires Plain(a) && Plain(b)
    ensures Plain(a + b)
  {
    assert forall i :: |a| <= i < |a| + |b| ==> (a + b)[i] == b[i - |a|];
  }

  lemma DigitsPlain(ds: string)
    requires AllDigits(ds)
    ensures Plain(ds)
  {
  }

  /** A word of plain letters followed by digits. */
  lemma PlainDigits(w: string, ds: string)
    requires Plain(w) && AllDigits(ds)
    ensures Plain(w + ds)
  {
    DigitsPlain(ds);
    PlainAppend(w, ds);
  }

  /** The letters the spellings use are plain. */
  lemma WordsPlain()
    ensures Plain("dl") && Plain("dh") && Plain("kl") && Plain("kh") && Plain("*") && Plain("r")
    ensures Plain("disadvantage") && Plain("advantage")
  {
  }

  lemma SpellPlain(t: Token)
    requires TokenWellFormed(t)
    ensures Plain(Spell(t))
  {
    WordsPlain();
    match t
    case DropLowest(a) => PlainDigits("dl", a);
    case DropHighest(a) => PlainDigits("dh", a);
    case KeepLowest(a) => PlainDigits("kl", a);
    case KeepHighest(a) => PlainDigits("kh", a);
    case Disadvantage(_) =>
    case Advantage(_) =>
    case Repeat(n) => PlainDigits("*", n);
    case Reroll(n) => PlainDigits("r", n);
    case Modifier(m) =>
      PlainDigits([m[0]], m[1..]);
      assert [m[0]] + m[1..] == m;
  }

  lemma {:induction false} SpellAllPlain(ts: seq<Token>)
    requires forall i :: 0 <= i < |ts| ==> TokenWellFormed(ts[i])
    ensures Plain(SpellAll(ts))
    decreases |ts|
  {
    if |ts| > 0 {
      SpellPlain(ts[0]);
      SpellAllPlain(ts[1..]);
      PlainAppend(Spell(ts[0]), SpellAll(ts[1..]));
    }
  }

  lemma LeadPlain(c: Captures)
    requires WellFormed(c)
    ensures Plain(Lead(c))
  {
    var r := if c.repeat1.Some? then c.repeat1.value + "*" else "";
    if c.repeat1.Some? {
      PlainAppend(c.repeat1.value, "*");
    }
    if c.diceSize.Some? {
      var count := if c.numDice.Some? then c.numDice.value else "";
      PlainAppend(count, "d");
      PlainAppend(count + "d", c.diceSize.value);
    }
    PlainAppend(r, DiceText(c));
  }

  lemma UnparsePlain(c: Captures)
    requires CanonicalCaptures(c)
    ensures Plain(Unparse(c))
  {
    TrailingCanonical(c);
    LeadPlain(c);
    SpellAllPlain(Trailing(c));
    PlainAppend(Lead(c), SpellAll(Trailing(c)));
  }

  /**
   * The recognizer reads the canonical spelling of every capture set it can
   * produce with long keywords back as that capture set.
   */
  lemma RecognizeUnparse(c: Captures)
    requires CanonicalCaptures(c)
    ensures Recognize(Unparse(c)) == Some(c)
  {
    var s := Unparse(c);
    UnparsePlain(c);
    assert ' ' !in s;
    StripSpacesNoop(s);
    assert Fold(s) == s;
    MatchUnparse(c);
  }
}
