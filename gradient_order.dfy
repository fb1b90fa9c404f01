/** The order in which the gradient colours are stored. The widget keeps
    one colour array and reverses it in place, so that the first colour
    always sits at the edge progress grows from. */
module GradientOrder {
  import opened Enums

  /** The sequence read back to front. */
  function Reversed(s: seq<int>): (r: seq<int>)
    ensures |r| == |s|
  {
    if |s| == 0 then [] else [s[|s| - 1]] + Reversed(s[..|s| - 1])
  }

  lemma {:induction false} ReversedAt(s: seq<int>, k: int)
    requires 0 <= k < |s|
    ensures Reversed(s)[k] == s[|s| - 1 - k]
  {
    if k > 0 {
      ReversedAt(s[..|s| - 1], k - 1);
    }
  }

  lemma ReversedIndexes(s: seq<int>)
    ensures forall k :: 0 <= k < |s| ==> Reversed(s)[k] == s[|s| - 1 - k]
  {
    forall k | 0 <= k < |s|
      ensures Reversed(s)[k] == s[|s| - 1 - k]
    {
      ReversedAt(s, k);
    }
  }

  /** Kotlin's `IntArray.reverse()`: swaps the two ends pairwise, moving
      toward the middle. */
  method ReverseInPlace(a: array<int>)
    modifies a
    ensures a[..] == Reversed(old(a[..]))
  {
    var n := a.Length;
    var i := 0;
    while i < n / 2
      invariant 0 <= i <= n / 2
      invariant forall k :: 0 <= k < i ==> a[k] == old(a[n - 1 - k]) && a[n - 1 - k] == old(a[k])
      invariant forall k :: i <= k < n - i ==> a[k] == old(a[k])
    {
      a[i], a[n - 1 - i] := a[n - 1 - i], a[i];
      i := i + 1;
    }
    ReversedIndexes(old(a[..]));
  }

  /** Reversing is an involution. */
  lemma ReversedTwice(s: seq<int>)
    ensures Reversed(Reversed(s)) == s
  {
    forall k | 0 <= k < |s|
      ensures Reversed(Reversed(s))[k] == s[k]
    {
      ReversedAt(Reversed(s), k);
      ReversedAt(s, |s| - 1 - k);
    }
  }

  /** The stored order of colours `cs` applied while the direction is `d`. */
  function Oriented(d: Direction, cs: seq<int>): (r: seq<int>)
    ensures |r| == |cs|
    ensures d == FromLeft ==> r == cs
    ensures d == FromRight ==> forall k :: 0 <= k < |cs| ==> r[k] == cs[|cs| - 1 - k]
  {
    ReversedIndexes(cs);
    if d == FromRight then Reversed(cs) else cs
  }

  /** The stored order after the direction changes from `from` to `to`:
      reversed exactly when the direction actually changes. */
  function Redirected(from: Direction, to: Direction, stored: seq<int>): (r: seq<int>)
    ensures |r| == |stored|
    ensures from == to ==> r == stored
    ensures from != to ==> forall k :: 0 <= k < |stored| ==> r[k] == stored[|stored| - 1 - k]
  {
    ReversedIndexes(stored);
    if from != to then Reversed(stored) else stored
  }

  /** A direction change keeps the colours anchored: whatever the direction
      was when they were applied, after the change they are stored as if
      they had been applied under the new direction. */
  lemma RedirectKeepsOrientation(from: Direction, to: Direction, cs: seq<int>)
    ensures Redirected(from, to, Oriented(from, cs)) == Oriented(to, cs)
  {
    if from != to {
      ReversedTwice(cs);
    }
  }

  /** Changing the direction and changing it back restores the stored order. */
  lemma RedirectRoundTrip(from: Direction, to: Direction, stored: seq<int>)
    ensures Redirected(to, from, Redirected(from, to, stored)) == stored
  {
    if from != to {
      ReversedTwice(stored);
    }
  }
}
