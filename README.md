# Dice-expression engine of dicebot, in Dafny

This project models the engine behind the bot's dice replies. `eval_dice_expression` takes a message such as `4d6dl1 + 2` or `3*d20 adv`. It removes spaces and matches the text case-insensitively against the dice grammar. It then resolves the captured groups into parameters: dice count, die size, reroll threshold, modifier, advantage or disadvantage, one drop/keep selection, and a repeat count. It writes a normalized description and runs `repeat` cycles of rolls. The reply lists each cycle's roll texts and sum, plus a grand total when there are several cycles. The helper `get_circled_number` renders a number as a circled glyph.

The project is split into modules:

- `Numerals`: the decimal display of integers and Rust's `str::parse::<i32>`.
- `Text`: `join` and `split`.
- `Util`: `Roll`, `MarkCondition`, `CIRCLED_NUMS` and `get_circled_number`.
- `Recognizer`: the grammar, as a tokenizer.
- `Spelling`: a canonical spelling of capture sets, and the round trip through the recognizer.
- `Resolver`: `parse`, `parse_option`, the clamps and the selection priority.
- `Description`: the normalized description.
- `Scoring`: one cycle.
- `Evaluator`: the whole evaluation, once as a specification function and once as the imperative loop that performs the `reduce`.

`roll`, `mark_rolls` and `format_roll` are parameters:

- `roll` is a roll source `draw(dice_size, reroll, k)`. It gives the k-th roll drawn during one evaluation, so the order of the calls is part of the model.
- `mark_rolls` maps the rolls, an amount and a condition to a flag per roll.
- `format_roll` maps a roll and a "struck" flag to a string.

Behaviour of the code that a reader might not expect, modelled as written:

- No die size is rejected. `d0` resolves to a die size of 0. Only `src/main.rs` has a rejection rule, and it is not part of this model.
- The selection text still appears in the description under advantage or disadvantage, although those cycles never use the selection.
- With both `adv` and `dis` given:
  - the description says ` with disadvantage`;
  - the sum takes the larger roll;
  - no roll is emphasized on a tie, and the first roll is emphasized whenever the two values differ (`Scoring.DuelBothKeywords`).
- The ` ??? ` separators before a negative modifier's magnitude and before each bold sum are kept verbatim, as constants.

## Model

| member | source | states |
|---|---|---|
| Numerals.ParseI32 | src/eval_dice_expression.rs:48 | a parsed value is always an i32, and only text made of an optional sign then at least one digit and nothing else parses |
| Numerals.ParseDigits | src/eval_dice_expression.rs:48 | a run of digits parses to its decimal value exactly when that value fits in an i32, and to nothing otherwise |
| Numerals.ParseDisplayed | src/eval_dice_expression.rs:48 | parsing the decimal display of n gives n back exactly when n is an i32 |
| Numerals.ParseSigned | src/eval_dice_expression.rs:48 | a `+` or `-` followed by digits parses to the signed value exactly when it fits in an i32, and to nothing otherwise |
| Numerals.NatToDecimal | src/eval_dice_expression.rs:83-85 | the display is a non-empty digit string with no leading zero whose decimal value is n |
| Text.JoinSnoc | src/eval_dice_expression.rs:265-266 | pushing a separator and then one more item onto a join is the join of the longer list |
| Text.SplitJoin | src/eval_dice_expression.rs:148-151 | splitting a join at a one-character separator that no item contains gives the items back |
| Util.CircledNumsSpelled | src/util.rs:2-5 | the table has 51 entries, from ⓪ at index 0 and ① at index 1 up to ㊿ at index 50, with the block boundaries ⑳ ㉑ ㉟ ㊱ in place |
| Util.CircledNumsIncreasing | src/util.rs:3 | table entries 1 to 50 are strictly increasing code points |
| Util.CircledNumber | src/util.rs:8-16 | `X` exactly for num ≤ 0; the single table glyph at index num for 1..50, so the index is in bounds; `(` decimal `)` above 50 |
| Util.CircledRoundTrip | src/util.rs:8-16 | every positive number is read back from its rendering |
| Util.CircledInjective | src/util.rs:8-16 | distinct positive numbers render differently |
| Util.TableGlyphIsNotFallback | src/util.rs:9-14 | a glyph for 1..50 is one character, is not `X` and does not start with `(` |
| Recognizer.StripSpaces | src/eval_dice_expression.rs:62 | the result has no space and holds every other character exactly as often as the input does |
| Recognizer.SpacesIgnored | src/eval_dice_expression.rs:62 | removing spaces before recognizing changes nothing |
| Recognizer.CaseIgnored | src/eval_dice_expression.rs:12 | folding capitals before recognizing changes nothing |
| Recognizer.NextToken | src/eval_dice_expression.rs:20-41 | a token consumes at least one character, never more than remain, and captures text of its group's form |
| Recognizer.Record | src/eval_dice_expression.rs:20-41 | a token overwrites its own capture group and leaves all eleven other groups unchanged |
| Recognizer.Tokens | src/eval_dice_expression.rs:20-42 | the repeated group, to the end of the text; its contract is `Recognizer.TokensWellFormed` (well-formed captures, leading groups untouched), and `Spelling.TokensRoundTrip` reads canonical token runs back |
| Recognizer.DiceGroup | src/eval_dice_expression.rs:15-19 | the optional dice group never reaches past the text; `Recognizer.DiceGroupWellFormed` shows its count and size are digit runs |
| Recognizer.DiceAndTokens | src/eval_dice_expression.rs:15-42 | the dice group then the trailing tokens; `Recognizer.DiceAndTokensWellFormed` shows the captures are well formed |
| Recognizer.Match | src/eval_dice_expression.rs:13-43 | the anchored match of the whole grammar; `Spelling.MatchUnparse` reads every canonical spelling back as its captures |
| Recognizer.Recognize | src/eval_dice_expression.rs:11-43 | `RE.captures` on the text without spaces; `Recognizer.SpacesIgnored`, `Recognizer.CaseIgnored`, `Recognizer.RecognizeWellFormed` and `Spelling.RecognizeUnparse` state its properties |
| Recognizer.TokensWellFormed | src/eval_dice_expression.rs:14-19 | trailing tokens keep the captures well formed and never set the leading repeat, the count or the size: the dice group is only recognized before any trailing token |
| Recognizer.RecognizeWellFormed | src/eval_dice_expression.rs:11-43 | every capture is digits, a sign and digits, or one of the keyword spellings, and a count is only captured together with a size |
| Recognizer.DropLowestBeforeDisadvantage | src/eval_dice_expression.rs:21-29 | `d` or `dl` followed by digits is drop-lowest, not disadvantage, because that alternative comes first |
| Recognizer.BareDIsDisadvantage | src/eval_dice_expression.rs:21-29 | a `d` followed by no digits, directly or after `l`/`h`, is the disadvantage keyword |
| Spelling.SpellNext | src/eval_dice_expression.rs:20-41 | every canonical token is read back, whole, from its spelling, whatever non-digit text follows |
| Spelling.TokensRoundTrip | src/eval_dice_expression.rs:20-42 | a run of canonical tokens is read back as the captures that recording them in order gives |
| Spelling.RecordTrailing | src/eval_dice_expression.rs:20-41 | recording the trailing tokens of a capture set onto its leading groups rebuilds the set |
| Spelling.MatchUnparse | src/eval_dice_expression.rs:13-43 | the anchored grammar reads the canonical spelling of any well-formed capture set with long keywords back as that set |
| Spelling.RecognizeUnparse | src/eval_dice_expression.rs:11-43 | the same round trip through the whole recognizer, space removal and case folding included |
| Resolver.Parse | src/eval_dice_expression.rs:46-51 | the result is the default, or the i32 the capture parses to; it is that i32 whenever one parses |
| Resolver.ParseNumeral | src/eval_dice_expression.rs:46-51 | a displayed number is parsed back when it is an i32, and the default is used when it overflows |
| Resolver.ParseOption | src/eval_dice_expression.rs:52-60 | `Some(n)` exactly when the capture parses to an i32 n with 1 ≤ n ≤ max, and `None` otherwise |
| Resolver.Clamp | src/eval_dice_expression.rs:64 | the result lies in the bounds, equals the input inside them, and equals the nearest bound outside them |
| Resolver.CountedDice | src/eval_dice_expression.rs:64 | the parsed count is clamped to 1..100 |
| Resolver.FirstSome | src/eval_dice_expression.rs:101-128 | `None` exactly when every candidate is `None`; otherwise the first candidate that is `Some` |
| Resolver.ChooseSelection | src/eval_dice_expression.rs:101-128 | the if-else chain of selections; `Resolver.SelectionPriority` proves it equal to the first present candidate of `Resolver.FirstSome` |
| Resolver.SelectionPriority | src/eval_dice_expression.rs:101-128 | the if-else chain picks drop-lowest, then drop-highest, then keep-lowest, then keep-highest; that candidate fixes amount, condition and action together |
| Resolver.Resolve | src/eval_dice_expression.rs:63-128 | parameters exist exactly when a size or a modifier was captured; the count is in 1..100 and is 1 under advantage or disadvantage; repeat is `clamp(max(repeat1, repeat2), 1, 20)`; an amount is at most the count before forcing minus one, so a single die has no selection; the die size defaults to 20, the reroll threshold and the modifier to 0 |
| Resolver.ResolvedSelection | src/eval_dice_expression.rs:68-72 | the selection is the first valid candidate among the four groups, each bounded by the counted dice minus one |
| Resolver.ResolvedNumbers | src/eval_dice_expression.rs:65-74 | a recognized die size is its digits' value, or 20 when absent or beyond i32; the reroll threshold likewise with 0; a modifier `+N`/`-N` is its signed value, or 0 beyond i32 |
| Resolver.WellFormedSizes | src/eval_dice_expression.rs:65 | a recognized die size and reroll threshold are never negative |
| Description.SelectionText | src/eval_dice_expression.rs:129-145 | the selection text is empty exactly when there is no selection |
| Description.ModifierText | src/eval_dice_expression.rs:81-88 | empty exactly for a zero modifier; ` + n` above zero; the separator and the magnitude below zero |
| Description.AdvantageText | src/eval_dice_expression.rs:89-95 | empty exactly when neither keyword was given |
| Description.RerollText | src/eval_dice_expression.rs:147-155 | the reroll text is empty exactly when the threshold is not positive |
| Description.RerollListed | src/eval_dice_expression.rs:147-155 | with a positive threshold N, the text lists `1s/2s/.../Ns`, and splitting it at `/` gives exactly those faces in order |
| Description.RepeatText | src/eval_dice_expression.rs:157-161 | the repeat text is empty exactly when repeat ≤ 1 |
| Description.Normalized | src/eval_dice_expression.rs:163-164 | the description in its fixed part order; `Description.NormalizedOneLine` shows it is one line, and the rows of its parts give each part's contract |
| Description.NormalizedOneLine | src/eval_dice_expression.rs:163-164 | the description holds no line break |
| Scoring.RollsPerIteration | src/eval_dice_expression.rs:172-208 | a cycle draws exactly two rolls under advantage or disadvantage, and the dice count otherwise |
| Scoring.DuelSum | src/eval_dice_expression.rs:189-194 | the sum minus the modifier is one of the two rolls: the larger one under advantage, the smaller one otherwise |
| Scoring.DuelEmphasis | src/eval_dice_expression.rs:179-187 | which roll is bold: none on a tie, whatever the keywords; `Scoring.DuelOneKeyword` and `Scoring.DuelBothKeywords` characterise it against the rolls |
| Scoring.DuelText | src/eval_dice_expression.rs:179-187 | the two rendered rolls with the chosen one in bold; `Scoring.DuelOneLine` keeps it on one line |
| Scoring.Duel | src/eval_dice_expression.rs:172-199 | the advantage/disadvantage cycle; `Scoring.IterationSum` and `Evaluator.DuelDraws` give its sum and its two draws |
| Scoring.DuelOneKeyword | src/eval_dice_expression.rs:179-194 | with exactly one keyword: no emphasis exactly when the rolls are equal; otherwise exactly the larger (advantage) or smaller (disadvantage) roll is emphasized, and it is the roll the sum uses |
| Scoring.DuelBothKeywords | src/eval_dice_expression.rs:179-194 | with both keywords, no roll is emphasized exactly when the rolls are equal, the first roll is emphasized when they differ, and the sum takes the larger roll |
| Scoring.StruckFlags | src/eval_dice_expression.rs:219-222 | under Drop a roll is struck exactly when it is marked; under Keep exactly when it is not |
| Scoring.PlainSumIsTotal | src/eval_dice_expression.rs:253 | the fold without a selection is the modifier plus the sum of all the values |
| Scoring.SelectedSumIsUnstruck | src/eval_dice_expression.rs:227-245 | with one mark per roll, the selected fold is the modifier plus the values of exactly the unstruck rolls |
| Scoring.PlainSum | src/eval_dice_expression.rs:253 | the fold without a selection; `Scoring.PlainSumIsTotal` equates it with the modifier plus `Scoring.Total` |
| Scoring.SelectedSum | src/eval_dice_expression.rs:227-245 | the fold over the zipped rolls and marks; `Scoring.SelectedSumIsUnstruck` equates it with the modifier plus `Scoring.UnstruckTotal` |
| Scoring.RollTexts | src/eval_dice_expression.rs:213-225 | as many parts as the shorter of the rolls and the flags, part `i` being roll `i` rendered with flag `i` |
| Scoring.GeneralParts | src/eval_dice_expression.rs:206-255 | the roll string and sum of the general case; `Scoring.GeneralScore` states both |
| Scoring.General | src/eval_dice_expression.rs:206-259 | the general cycle; `Scoring.GeneralScore` and `Scoring.GeneralOneLine` state its sum, its rendering and its single line |
| Scoring.GeneralScore | src/eval_dice_expression.rs:206-259 | the general sum is the modifier plus all the values without a selection, and plus the unstruck values with one (given one mark per roll); the roll string joins with ` + ` every roll in rolled order, each rendered with the struck flag `false` without a selection and with its struck flag (marked under drop, unmarked under keep) with one |
| Scoring.DuelScored | src/eval_dice_expression.rs:172-199 | under advantage or disadvantage a cycle draws exactly two rolls and is the duel of the first against the second |
| Scoring.IterationSum | src/eval_dice_expression.rs:172-260 | a cycle's sum in each branch: modifier plus max or min of the two rolls, the lone die's value with its bare rendering, modifier plus the total without a selection, or modifier plus the unstruck values with one (given one mark per roll) |
| Scoring.ScoreIteration | src/eval_dice_expression.rs:171-260 | the three-way branch of one cycle; its precondition is the number of draws the branch makes, and `Scoring.IterationSum` and `Scoring.IterationOneLine` state its sum and its single line |
| Scoring.IterationOneLine | src/eval_dice_expression.rs:196-259 | a cycle renders as one line when `format_roll` does |
| Evaluator.CycleRolls | src/eval_dice_expression.rs:172-208 | the rolls of a cycle are the consecutive draws from its first call on, as many as the cycle draws |
| Evaluator.Cycle | src/eval_dice_expression.rs:171-260 | cycle i scores the next draws in turn; `Evaluator.RunCycle` computes it imperatively and `Evaluator.DuelDraws` names its draws |
| Evaluator.Cycles | src/eval_dice_expression.rs:170-260 | `(0..repeat).map(...)`: exactly n cycles in order; `Evaluator.CyclesSnoc` and `Evaluator.Aggregate` relate it to the `reduce` |
| Evaluator.TotalText | src/eval_dice_expression.rs:274-279 | the total text is present exactly when repeat > 1 |
| Evaluator.Heading | src/eval_dice_expression.rs:282 | `Rolling <normalized>:`; `Evaluator.HeadingOneLine` shows it is one line |
| Evaluator.Reply | src/eval_dice_expression.rs:274-282 | the heading, the joined cycle lines and the total text; `Evaluator.ReplyShape` gives its exact lines |
| Evaluator.Evaluate | src/eval_dice_expression.rs:62-289 | the whole evaluation as a function; `Evaluator.EvalDiceExpression` computes it, `Evaluator.NoReply` and `Evaluator.ReplyOfExpression` say when and what it replies |
| Evaluator.DrawRolls | src/eval_dice_expression.rs:207-208 | the collected rolls are the `count` consecutive draws starting at `start` |
| Evaluator.RunCycle | src/eval_dice_expression.rs:171-260 | the imperative cycle body draws, scores and renders exactly the specified cycle |
| Evaluator.Aggregate | src/eval_dice_expression.rs:261-271 | the push-based `reduce` yields the cycle texts joined by line breaks and the sum of the cycle sums |
| Evaluator.CyclesSnoc | src/eval_dice_expression.rs:261-270 | one more cycle appends a line break and its text, and adds its sum |
| Evaluator.EvalDiceExpression | src/eval_dice_expression.rs:8-289 | the imperative evaluation returns exactly the specified reply |
| Evaluator.NoReply | src/eval_dice_expression.rs:62-63 | there is no reply exactly when the text does not match, or matches without a size and without a modifier |
| Evaluator.CycleCount | src/eval_dice_expression.rs:75-77 | between 1 and 20 cycles run, never zero, so `reduce(...).unwrap()` always has a cycle; the count is `clamp(max(repeat1, repeat2), 1, 20)` |
| Evaluator.DuelDraws | src/eval_dice_expression.rs:172-174 | under advantage or disadvantage, cycle i scores exactly draws 2i and 2i+1 |
| Evaluator.ReplySplits | src/eval_dice_expression.rs:274-282 | a reply assembled from one-line pieces splits at line breaks into the heading, the cycle lines, and the total line when repeat > 1 |
| Evaluator.ReplyShape | src/eval_dice_expression.rs:261-282 | with a one-line `format_roll`, the reply's lines are `Rolling <normalized>:`, the cycle lines in order, then `Total: **T**` exactly when repeat > 1, where T is the sum of the cycle sums |
| Evaluator.ReplyOfExpression | src/eval_dice_expression.rs:62-282 | a reply is built from the resolved parameters, with 1 to 20 cycles |

## Left out

- `src/main.rs` is not part of this model. It holds the bot's start-up, token file, message handler, an older copy of the dice logic and that copy's rejection rule.
- The bodies of `roll`, `mark_rolls` and `format_roll` (and any randomness) are not part of this model. They are parameters, described above.
- `Recognizer.Recognize`: the regular expression is replaced by a greedy, first-alternative tokenizer. It is not proved equivalent to the `regex` crate's matcher. It agrees with it for this grammar because no token starts with a digit and a shorter keyword spelling never lets a match succeed where the longest fails. The proved round trip covers canonical spellings only.
- `Recognizer.Recognize`: `\d` and case-insensitivity are modelled for ASCII only. The `regex` crate also accepts other Unicode decimal digits, and folds letters such as the Kelvin sign `K` to `k`.
- `Recognizer.Record`: a keyword's capture holds the case-folded text rather than the original letters. Only the presence of these captures is ever used.
- `Scoring.DuelSum`, `Scoring.PlainSum`, `Scoring.SelectedSum`, `Evaluator.SumOf`: sums use unbounded integers. The i32 overflow panic of a debug build, or the wrap-around of a release build, is not modelled.
- `Description.ModifierText`: `modifier.abs()` on i32::MIN, which overflows in Rust, is taken mathematically (2147483648).
- `Util.CircledNums`: the table is defined by its code-point ranges instead of the literal string, so its glyphs can be indexed. `Util.CircledNumsSpelled` ties the ranges to the glyphs at their boundaries.
- `lazy_static` and `indoc` initialisation are left out.
