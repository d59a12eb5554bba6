/**
 * The array move the drag-and-drop list applies when an item is dropped:
 * remove the element at `from`, then insert it at `to` in what remains.
 */
module ArrayMove {

  /** The sequence without its element at `i`. */
  function RemoveAt<T>(s: seq<T>, i: nat): (r: seq<T>)
    requires i < |s|
    ensures |r| == |s| - 1
    ensures forall k :: 0 <= k < i ==> r[k] == s[k]
    ensures forall k :: i <= k < |r| ==> r[k] == s[k + 1]
  {
    s[..i] + s[i + 1..]
  }

  /** The sequence with `x` inserted so that it ends up at index `i`. */
  function InsertAt<T>(s: seq<T>, i: nat, x: T): (r: seq<T>)
    requires i <= |s|
    ensures |r| == |s| + 1 && r[i] == x
    ensures forall k :: 0 <= k < i ==> r[k] == s[k]
    ensures forall k :: i < k < |r| ==> r[k] == s[k - 1]
  {
    s[..i] + [x] + s[i..]
  }

  /** Removing what was just inserted gives back the original. */
  lemma RemoveInserted<T>(s: seq<T>, i: nat, x: T)
    requires i <= |s|
    ensures RemoveAt(InsertAt(s, i, x), i) == s
  {
  }

  /** Putting a removed element back where it was gives back the original. */
  lemma InsertRemoved<T>(s: seq<T>, i: nat)
    requires i < |s|
    ensures InsertAt(RemoveAt(s, i), i, s[i]) == s
  {
  }

  /**
   * Moves the element at `from` to index `to`. The result has the same length
   * and the same elements, holds the moved element at `to`, and every other
   * element keeps its relative order (removing the moved element from both
   * sides gives the same sequence).
   */
  function Move<T>(s: seq<T>, from: nat, to: nat): (r: seq<T>)
    requires from < |s| && to < |s|
    ensures |r| == |s|
    ensures r[to] == s[from]
    ensures RemoveAt(r, to) == RemoveAt(s, from)
    ensures multiset(r) == multiset(s)
  {
    var rest := RemoveAt(s, from);
    RemoveInserted(rest, to, s[from]);
    assert s == s[..from] + [s[from]] + s[from + 1..];
    assert multiset(s) == multiset(rest) + multiset{s[from]};
    assert InsertAt(rest, to, s[from]) == rest[..to] + [s[from]] + rest[to..];
    assert rest == rest[..to] + rest[to..];
    assert multiset(InsertAt(rest, to, s[from])) == multiset(rest) + multiset{s[from]};
    InsertAt(rest, to, s[from])
  }

  /** Moving an element onto its own index changes nothing. */
  lemma MoveSameIndex<T>(s: seq<T>, i: nat)
    requires i < |s|
    ensures Move(s, i, i) == s
  {
    InsertRemoved(s, i);
  }

  /** Moving back from `to` to `from` undoes a move from `from` to `to`. */
  lemma MoveInverse<T>(s: seq<T>, from: nat, to: nat)
    requires from < |s| && to < |s|
    ensures Move(Move(s, from, to), to, from) == s
  {
    var r := Move(s, from, to);
    InsertRemoved(s, from);
    assert Move(r, to, from) == InsertAt(RemoveAt(r, to), from, r[to]);
  }

  /**
   * Where every element goes, as classic array-move semantics describes it:
   * moving forward shifts the elements in between one place down, moving back
   * shifts them one place up, and the elements outside that range stay put.
   */
  lemma MoveShifts<T>(s: seq<T>, from: nat, to: nat)
    requires from < |s| && to < |s|
    ensures forall k :: 0 <= k < |s| && k < from && k < to ==> Move(s, from, to)[k] == s[k]
    ensures forall k :: 0 <= k < |s| && k > from && k > to ==> Move(s, from, to)[k] == s[k]
    ensures from < to ==> forall k :: from <= k < to ==> Move(s, from, to)[k] == s[k + 1]
    ensures to < from ==> forall k :: to < k <= from ==> Move(s, from, to)[k] == s[k - 1]
  {
  }
}
