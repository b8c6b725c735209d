/**
 * The shared dice types and the circled-number glyphs of `src/util.rs`.
 * Only the glyph lookup has its body in the model; `roll`, `format_roll`
 * and `mark_rolls` are parameters of the evaluator.
 */
module Util {
  import opened Wrappers
  import opened Numerals

  /** One die: `value` is what is scored; `originalValue` is the discarded first draw of a reroll. */
  datatype Roll = Roll(value: int, originalValue: Option<int>)

  /** Which extreme `mark_rolls` selects. */
  datatype MarkCondition = Highest | Lowest

  /** `n` consecutive code points starting at `first`. */
  function Run(first: nat, n: nat): (s: seq<char>)
    requires first + n <= 0xD800
    ensures |s| == n
    ensures forall k :: 0 <= k < n ==> s[k] as int == first + k
  {
    seq(n, k requires 0 <= k < n => (first + k) as char)
  }

  /**
   * CIRCLED_NUMS: ⓪ (U+24EA), then ① to ⑳ (U+2460 to U+2473), ㉑ to ㉟
   * (U+3251 to U+325F) and ㊱ to ㊿ (U+32B1 to U+32BF); entry k shows k.
   */
  const CircledNums: seq<char> := ['⓪'] + Run(0x2460, 20) + Run(0x3251, 15) + Run(0x32B1, 15)

  /** The table has 51 entries and spells the glyphs of the source at its block boundaries. */
  lemma CircledNumsSpelled()
    ensures |CircledNums| == 51
    ensures CircledNums[0] == '⓪' && CircledNums[1] == '①' && CircledNums[20] == '⑳'
    ensures CircledNums[21] == '㉑' && CircledNums[35] == '㉟'
    ensures CircledNums[36] == '㊱' && CircledNums[50] == '㊿'
  {
  }

  /** Entries 1 to 50 are in increasing code-point order. */
  lemma CircledNumsIncreasing(i: int, j: int)
    requires 1 <= i < j <= 50
    ensures CircledNums[i] < CircledNums[j]
  {
  }

  /** `get_circled_number`: `X` for zero and below, the table glyph up to 50, `(num)` beyond. */
  function CircledNumber(num: int): (g: string)
    ensures num <= 0 <==> g == "X"
    ensures 1 <= num <= 50 ==> g == [CircledNums[num]]
    ensures num > 50 ==> g == "(" + NatToDecimal(num) + ")"
  {
    if num <= 0 then
      "X"
    else if num > 50 then
      assert ("(" + NatToDecimal(num) + ")")[0] == '(';
      "(" + NatToDecimal(num) + ")"
    else
      assert CircledNums[num] as int >= 0x2460;
      [CircledNums[num]]
  }

  /** The first table index from `k` to 50 whose glyph is `c`. */
  function FindGlyph(c: char, k: nat): (r: Option<int>)
    requires k >= 1
    ensures r.Some? ==> k <= r.value <= 50 && CircledNums[r.value] == c
    decreases 51 - k
  {
    if k > 50 then None
    else if CircledNums[k] == c then Some(k)
    else FindGlyph(c, k + 1)
  }

  /** The number a rendered glyph stands for; `None` for `X`, which hides the value. */
  function ReadCircledNumber(g: string): (r: Option<int>)
    ensures r.Some? ==> r.value >= 1
  {
    if |g| == 1 then
      FindGlyph(g[0], 1)
    else if |g| >= 3 && g[0] == '(' && g[|g| - 1] == ')' && AllDigits(g[1..|g| - 1]) &&
            DigitsValue(g[1..|g| - 1]) > 50 then
      Some(DigitsValue(g[1..|g| - 1]))
    else
      None
  }

  lemma {:induction false} FindGlyphFinds(n: int, k: nat)
    requires 1 <= k <= n <= 50
    ensures FindGlyph(CircledNums[n], k) == Some(n)
    decreases n - k
  {
    if k < n {
      CircledNumsIncreasing(k, n);
      FindGlyphFinds(n, k + 1);
    }
  }

  /** Every positive number can be read back from its glyph. */
  lemma CircledRoundTrip(n: int)
    requires n >= 1
    ensures ReadCircledNumber(CircledNumber(n)) == Some(n)
  {
    if n <= 50 {
      FindGlyphFinds(n, 1);
    } else {
      var d := NatToDecimal(n);
      var g := "(" + d + ")";
      assert g[1..|g| - 1] == d;
    }
  }

  /** Distinct positive numbers get distinct glyphs. */
  lemma CircledInjective(m: int, n: int)
    requires m >= 1 && n >= 1
    requires CircledNumber(m) == CircledNumber(n)
    ensures m == n
  {
    CircledRoundTrip(m);
    CircledRoundTrip(n);
  }

  /** A table glyph is one character that is neither the `X` fallback nor a parenthesised numeral. */
  lemma TableGlyphIsNotFallback(n: int)
    requires 1 <= n <= 50
    ensures |CircledNumber(n)| == 1
    ensures CircledNumber(n) != "X" && CircledNumber(n)[0] != '('
  {
  }
}
