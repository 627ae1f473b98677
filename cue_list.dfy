/**
 * The ordered cue collection shared by both timelines: cues are kept in
 * ascending order, a new cue goes in front of the first strictly greater one
 * (so after every equal cue), and a dragged cue is taken out and put back.
 */
module CueList {

  ghost predicate Sorted(s: seq<real>)
  {
    forall i, j :: 0 <= i < j < |s| ==> s[i] <= s[j]
  }

  /** Where AddCue inserts c: the index of the first cue strictly greater than c, or |s|. */
  function InsertPos(s: seq<real>, c: real): (i: nat)
    ensures i <= |s|
    ensures forall k :: 0 <= k < i ==> s[k] <= c
    ensures i < |s| ==> c < s[i]
  {
    if |s| == 0 then 0
    else if c < s[0] then 0
    else 1 + InsertPos(s[1..], c)
  }

  /** In a sorted list every cue from the insertion point on is greater than c. */
  lemma InsertPosSplitsSorted(s: seq<real>, c: real)
    requires Sorted(s)
    ensures forall k :: InsertPos(s, c) <= k < |s| ==> c < s[k]
  {
  }

  /** The list with x placed at index i; everything else keeps its relative order. */
  function InsertAt<T>(s: seq<T>, i: nat, x: T): (r: seq<T>)
    requires i <= |s|
    ensures |r| == |s| + 1 && r[i] == x
    ensures forall k :: 0 <= k < i ==> r[k] == s[k]
    ensures forall k :: i < k < |r| ==> r[k] == s[k - 1]
  {
    s[..i] + [x] + s[i..]
  }

  /** Inserting adds x and keeps every other element. */
  lemma InsertAtMultiset<T>(s: seq<T>, i: nat, x: T)
    requires i <= |s|
    ensures multiset(InsertAt(s, i, x)) == multiset(s) + multiset{x}
  {
    assert s == s[..i] + s[i..];
  }

  /** The list without its element at index i; everything else keeps its relative order. */
  function RemoveAt<T>(s: seq<T>, i: nat): (r: seq<T>)
    requires i < |s|
    ensures |r| == |s| - 1
    ensures forall k :: 0 <= k < i ==> r[k] == s[k]
    ensures forall k :: i <= k < |r| ==> r[k] == s[k + 1]
  {
    s[..i] + s[i + 1..]
  }

  /** Removing drops exactly the element at i and keeps every other element. */
  lemma RemoveAtMultiset<T>(s: seq<T>, i: nat)
    requires i < |s|
    ensures multiset(RemoveAt(s, i)) == multiset(s) - multiset{s[i]}
  {
    assert s == s[..i] + [s[i]] + s[i + 1..];
  }

  /** Inserting at InsertPos keeps a sorted list sorted. */
  lemma InsertKeepsSorted(s: seq<real>, c: real)
    requires Sorted(s)
    ensures Sorted(InsertAt(s, InsertPos(s, c), c))
  {
    var i := InsertPos(s, c);
    var r := InsertAt(s, i, c);
    InsertPosSplitsSorted(s, c);
    forall a, b | 0 <= a < b < |r| ensures r[a] <= r[b] {
      if b < i {
      } else if b == i {
      } else if a < i {
      } else if a == i {
      } else {
      }
    }
  }

  /** InsertPos is the only index that has the two properties AddCue's search stops on. */
  lemma InsertPosUnique(s: seq<real>, c: real, i: nat)
    requires i <= |s|
    requires forall k :: 0 <= k < i ==> !(c < s[k])
    requires i < |s| ==> c < s[i]
    ensures InsertPos(s, c) == i
  {
  }

  lemma RemoveKeepsSorted(s: seq<real>, i: nat)
    requires Sorted(s) && i < |s|
    ensures Sorted(RemoveAt(s, i))
  {
  }

  /** In a sorted list equal cues stay in insertion order: a new cue goes after every cue equal to it. */
  lemma InsertAfterEqual(s: seq<real>, c: real, k: nat)
    requires Sorted(s) && k < |s| && s[k] == c
    ensures k < InsertPos(s, c)
  {
  }
}
