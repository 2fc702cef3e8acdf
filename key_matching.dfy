/** The order-insensitive comparison a binding uses to decide that its
    watched keys are being held (PendingKeyboardEvent.js, lines 172-194),
    and how a key-down is recorded (lines 93-99). Keys are strings. */
module KeyMatching {

  /** The set of values a key array holds. */
  ghost function Elements(s: seq<string>): set<string> {
    set x | x in s
  }

  /** `items.every(item => container.includes(item))`. */
  function EveryIncluded(items: seq<string>, container: seq<string>): (r: bool)
    ensures r <==> forall i :: 0 <= i < |items| ==> items[i] in container
  {
    if items == [] then true
    else
      assert forall i :: 0 < i < |items| ==> items[i] == items[1..][i - 1];
      items[0] in container && EveryIncluded(items[1..], container)
  }

  /** `_arraysAreEqual`: equal lengths and mutual inclusion. */
  function ArraysAreEqual(a: seq<string>, b: seq<string>): (r: bool)
    ensures r <==> |a| == |b| && Elements(a) == Elements(b)
  {
    if |a| != |b| then false
    else if !EveryIncluded(b, a) then
      var i :| 0 <= i < |b| && b[i] !in a;
      assert b[i] in Elements(b) && b[i] !in Elements(a);
      false
    else if !EveryIncluded(a, b) then
      var i :| 0 <= i < |a| && a[i] !in b;
      assert a[i] in Elements(a) && a[i] !in Elements(b);
      false
    else
      assert Elements(a) == Elements(b) by {
        forall x | x in Elements(a) ensures x in Elements(b) {
          var i :| 0 <= i < |a| && a[i] == x;
        }
        forall x | x in Elements(b) ensures x in Elements(a) {
          var i :| 0 <= i < |b| && b[i] == x;
        }
      }
      true
  }

  /** `checkArraysHaveSameValuesRegardlessOfOrder`: `_arraysAreEqual`
      followed by a second, redundant, length comparison. */
  function SameValues(pressed: seq<string>, watched: seq<string>): (r: bool)
    ensures r <==> |pressed| == |watched| && Elements(pressed) == Elements(watched)
  {
    if !ArraysAreEqual(pressed, watched) then false
    else |pressed| == |watched|
  }

  /** The token a key-down records: the physical code when the binding
      watches that code, the logical key otherwise (also for unwatched keys). */
  function Recorded(watched: seq<string>, key: string, code: string): (r: string)
    ensures r == code || r == key
    ensures code in watched ==> r == code
    ensures r in watched <==> code in watched || key in watched
  {
    if code in watched then code else key
  }

  /** The comparison is symmetric. */
  lemma SameValuesSymmetric(a: seq<string>, b: seq<string>)
    ensures SameValues(a, b) == SameValues(b, a)
  {
  }

  /** Holding exactly the watched keys, in any order, compares equal. */
  lemma {:induction false} PermutationMatches(pressed: seq<string>, watched: seq<string>)
    requires multiset(pressed) == multiset(watched)
    ensures SameValues(pressed, watched)
  {
    assert |pressed| == |multiset(pressed)| == |multiset(watched)| == |watched|;
    forall x ensures x in Elements(pressed) <==> x in Elements(watched) {
      assert x in pressed <==> x in multiset(pressed);
      assert x in watched <==> x in multiset(watched);
    }
  }

  /** A recorded key outside the watched keys rules out a match. */
  lemma {:induction false} StrayKeyPreventsMatch(pressed: seq<string>, watched: seq<string>, i: nat)
    requires i < |pressed| && pressed[i] !in watched
    ensures !SameValues(pressed, watched)
  {
    assert pressed[i] in Elements(pressed);
    assert pressed[i] !in Elements(watched);
  }

  /** The comparison is weaker than multiset equality: repeated entries
      are not counted ("a","a","b" matches "a","b","b"). */
  lemma DuplicatesAreNotCounted()
    ensures SameValues(["a", "a", "b"], ["a", "b", "b"])
    ensures multiset(["a", "a", "b"]) != multiset(["a", "b", "b"])
  {
    var p, w := ["a", "a", "b"], ["a", "b", "b"];
    assert Elements(p) == {"a", "b"} by {
      assert p[0] == "a" && p[2] == "b";
    }
    assert Elements(w) == {"a", "b"} by {
      assert w[0] == "a" && w[1] == "b";
    }
    assert multiset(p)["a"] == 2;
    assert multiset(w)["a"] == 1;
  }

  /** Pressing "z","c","a" never matches a binding watching "z","a". */
  lemma ExtraKeyNeverMatches()
    ensures !SameValues(["z"], ["z", "a"])
    ensures !SameValues(["z", "c"], ["z", "a"])
    ensures !SameValues(["z", "c", "a"], ["z", "a"])
  {
    StrayKeyPreventsMatch(["z", "c"], ["z", "a"], 1);
  }
}
