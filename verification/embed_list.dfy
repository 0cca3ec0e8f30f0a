/**
 * The list operation behind removing one pending attachment: Kotlin's
 * `MutableList.remove(element)`, which drops the first element equal to the
 * argument and changes nothing when there is none.
 */
module EmbedList {

  /** `i` is the position of the first occurrence of `x` in `s`. */
  predicate IsFirstIndex<T(==)>(s: seq<T>, x: T, i: int) {
    0 <= i < |s| && s[i] == x && x !in s[..i]
  }

  /** `s` without its first occurrence of `x`; `s` itself when `x` does not occur. */
  function RemoveFirst<T(==)>(s: seq<T>, x: T): (r: seq<T>)
    ensures x !in s ==> r == s
    ensures x in s ==> |r| == |s| - 1
  {
    if |s| == 0 then s
    else if s[0] == x then
      assert s == [s[0]] + s[1..];
      s[1..]
    else
      assert s == [s[0]] + s[1..];
      [s[0]] + RemoveFirst(s[1..], x)
  }

  /** When `x` first occurs at `i`, removal deletes exactly position `i` and keeps the rest in order. */
  lemma {:induction false} RemoveFirstDeletesFirstOccurrence<T>(s: seq<T>, x: T, i: int)
    requires IsFirstIndex(s, x, i)
    ensures RemoveFirst(s, x) == s[..i] + s[i + 1..]
  {
    if i == 0 {
      assert s[..0] + s[1..] == s[1..];
    } else {
      var tail := s[1..];
      assert s[..i] == [s[0]] + tail[..i - 1];
      assert s[0] != x && x !in tail[..i - 1];
      RemoveFirstDeletesFirstOccurrence(tail, x, i - 1);
      assert tail[i..] == s[i + 1..];
      calc {
        RemoveFirst(s, x);
        [s[0]] + RemoveFirst(tail, x);
        [s[0]] + (tail[..i - 1] + tail[i..]);
        s[..i] + s[i + 1..];
      }
    }
  }

  /** Removal takes exactly one copy of `x` out of the list's contents, when there is one. */
  lemma {:induction false} RemoveFirstContents<T>(s: seq<T>, x: T)
    ensures multiset(RemoveFirst(s, x)) == multiset(s) - multiset{x}
  {
    if |s| > 0 {
      assert s == [s[0]] + s[1..];
      RemoveFirstContents(s[1..], x);
    }
  }

  /** Removing what was just appended, when it was not there before, restores the list. */
  lemma {:induction false} RemoveFirstUndoesAppend<T>(s: seq<T>, x: T)
    requires x !in s
    ensures RemoveFirst(s + [x], x) == s
  {
    assert (s + [x])[..|s|] == s;
    RemoveFirstDeletesFirstOccurrence(s + [x], x, |s|);
  }
}
