/**
 * Joining strings with a separator, as Rust's `[String]::join`, and its
 * inverse for a one-character separator, as `str::split`.
 */
module Text {

  /** `items.join(sep)`: the items in order with `sep` between neighbours. */
  function Join(items: seq<string>, sep: string): string
  {
    if |items| == 0 then ""
    else if |items| == 1 then items[0]
    else items[0] + sep + Join(items[1..], sep)
  }

  /** Appending one more item, as a `push_str` after a `push` of the separator. */
  lemma {:induction false} JoinSnoc(items: seq<string>, item: string, sep: string)
    requires |items| >= 1
    ensures Join(items + [item], sep) == Join(items, sep) + sep + item
  {
    var all := items + [item];
    if |items| == 1 {
      assert all[1..] == [item];
    } else {
      assert all[1..] == items[1..] + [item];
      JoinSnoc(items[1..], item, sep);
    }
  }

  /** A character that is in no item and not in the separator is not in the join. */
  lemma {:induction false} JoinAvoids(items: seq<string>, sep: string, c: char)
    requires c !in sep
    requires forall k :: 0 <= k < |items| ==> c !in items[k]
    ensures c !in Join(items, sep)
  {
    if |items| > 1 {
      JoinAvoids(items[1..], sep, c);
    }
  }

  /** The index of the first `c` in `s`, or `|s|` if there is none. */
  function IndexOf(s: string, c: char): (i: nat)
    ensures i <= |s|
    ensures i < |s| ==> s[i] == c
    ensures forall j :: 0 <= j < i ==> s[j] != c
  {
    if |s| == 0 then 0
    else if s[0] == c then 0
    else 1 + IndexOf(s[1..], c)
  }

  /** `s.split(c)`: the pieces between occurrences of `c`; never empty. */
  function Split(s: string, c: char): (parts: seq<string>)
    ensures |parts| >= 1
    decreases |s|
  {
    var i := IndexOf(s, c);
    if i == |s| then [s] else [s[..i]] + Split(s[i + 1..], c)
  }

  /** Splitting at the separator gives back the joined items when no item holds it. */
  lemma {:induction false} SplitJoin(items: seq<string>, c: char)
    requires |items| >= 1
    requires forall k :: 0 <= k < |items| ==> c !in items[k]
    ensures Split(Join(items, [c]), c) == items
  {
    var s := Join(items, [c]);
    var first := items[0];
    if |items| == 1 {
      assert c !in s;
      assert IndexOf(s, c) == |s|;
    } else {
      var rest := Join(items[1..], [c]);
      assert s == first + [c] + rest;
      assert forall j :: 0 <= j < |first| ==> s[j] == first[j] && s[j] != c;
      assert s[|first|] == c;
      assert IndexOf(s, c) == |first|;
      assert s[..|first|] == first;
      assert s[|first| + 1..] == rest;
      SplitJoin(items[1..], c);
      assert items == [first] + items[1..];
    }
  }
}
