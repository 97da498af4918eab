/** Sequences without repetition, and the first-in-first-out window kept in a growing list with a head index. */
module Sequences {
  ghost predicate NoDuplicates<T>(s: seq<T>) {
    forall i, k :: 0 <= i < k < |s| ==> s[i] != s[k]
  }

  ghost function Members<T>(s: seq<T>): set<T> { set x | x in s }

  lemma AppendDistinct<T>(s: seq<T>, x: T)
    requires NoDuplicates(s) && x !in Members(s)
    ensures NoDuplicates(s + [x]) && Members(s + [x]) == Members(s) + {x}
  {
    forall i | 0 <= i < |s| ensures s[i] != x { assert s[i] in Members(s); }
  }

  lemma {:induction false} MembersCount<T>(s: seq<T>)
    requires NoDuplicates(s)
    ensures |Members(s)| == |s|
  {
    if s != [] {
      var n := |s| - 1;
      MembersCount(s[..n]);
      assert s == s[..n] + [s[n]];
      assert Members(s) == Members(s[..n]) + {s[n]};
      assert s[n] !in Members(s[..n]);
    }
  }

  function Window<T>(order: seq<T>, head: nat): seq<T> {
    if head <= |order| then order[head..] else []
  }

  /** The entries from `head` on are the window. Between calls the head has not passed the capacity, so the
      list is at most twice as long as the window may be. */
  predicate Windowed<T>(order: seq<T>, head: nat, cap: nat) {
    head <= cap && head <= |order| <= head + cap
  }

  /** The most recent `cap` entries after appending x. */
  function Remember<T>(window: seq<T>, x: T, cap: nat): (r: seq<T>)
    ensures |r| <= cap
    ensures |window| < cap ==> r == window + [x]
    ensures |window| == cap > 0 ==> r == window[1..] + [x]
  {
    var w := window + [x];
    if |w| <= cap then w else w[|w| - cap..]
  }

  /** Appending, and dropping the oldest entry of a full window, is remembering. */
  lemma AppendRemembers<T>(order: seq<T>, head: nat, x: T, cap: nat)
    requires Windowed(order, head, cap) && cap > 0
    ensures var dropped := if |order| - head < cap then 0 else 1;
      Window(order + [x], head + dropped) == Remember(Window(order, head), x, cap)
  {
    assert head < |order| ==> order[head..][1..] == order[head + 1..];
  }

  lemma {:induction false} MembersAtMost<T>(s: seq<T>)
    ensures |Members(s)| <= |s|
  {
    if s != [] {
      var n := |s| - 1;
      MembersAtMost(s[..n]);
      assert s == s[..n] + [s[n]];
      assert Members(s) == Members(s[..n]) + {s[n]};
    }
  }

  lemma AppendNew<T>(order: seq<T>, head: nat, x: T)
    requires head <= |order| && |Members(order[head..])| == |order| - head && x !in order[head..]
    ensures Members((order + [x])[head..]) == Members(order[head..]) + {x}
    ensures |Members((order + [x])[head..])| == |order| + 1 - head
  {
    assert (order + [x])[head..] == order[head..] + [x];
  }

  /** A window with as many members as entries keeps that when its oldest entry goes. */
  lemma DropOldest<T>(order: seq<T>, head: nat)
    requires head < |order| && |Members(order[head..])| == |order| - head
    ensures Members(order[head..]) - {order[head]} == Members(order[head + 1..])
    ensures |Members(order[head + 1..])| == |order| - head - 1
  {
    var rest := order[head + 1..];
    assert order[head..] == [order[head]] + rest;
    assert Members(order[head..]) == Members(rest) + {order[head]};
    MembersAtMost(rest);
  }

  /** A set that is the window of its order list, without repetition. */
  ghost predicate SetWindow<T>(members: set<T>, order: seq<T>, head: nat, cap: nat) {
    Windowed(order, head, cap) && members == Members(Window(order, head)) && |members| == |Window(order, head)|
  }

  /** The compaction at the end of each append. The window stays what it is, and a head past the capacity is
      always reset: the second test, on the length, never decides. */
  method Compact<T>(order: seq<T>, head: nat, cap: nat) returns (list: seq<T>, first: nat)
    requires head <= cap + 1 && head <= |order| <= head + cap
    ensures Windowed(list, first, cap) && Window(list, first) == Window(order, head) && |list| <= 2 * cap
    ensures first == if head > cap then 0 else head
  {
    if head > cap && head * 2 >= |order| { return order[head..], 0; }
    return order, head;
  }

  /** After appending and dropping what is too much, the window is the remembered one. */
  lemma PushedWindow<T>(list: seq<T>, first: nat, x: T, cap: nat, head: nat)
    requires cap > 0 && Windowed(list, first, cap)
    requires head == if |list| + 1 - first <= cap then first else |list| + 1 - cap
    ensures head <= cap + 1 && head <= |list + [x]| <= head + cap
    ensures Window(list + [x], head) == (list + [x])[head..] == Remember(Window(list, first), x, cap)
  {
    AppendRemembers(list, first, x, cap);
  }
}
