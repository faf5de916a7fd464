/**
 * The bounded, newest-first message buffer kept twice by the program: the
 * chat history (capped at the `chat_buffer` setting) and the giveaway
 * winner's messages (capped at 100). Both do `push_front` and then
 * `truncate(cap)` when the length exceeds the cap.
 */
module NewestFirst {
  import opened Common

  /** One `push_front` followed by the conditional `truncate`. */
  function PushFront<T>(buf: seq<T>, x: T, cap: nat): (r: seq<T>)
    ensures |r| == Min(cap, |buf| + 1)
    ensures cap > 0 ==> r[0] == x
    ensures forall i :: 1 <= i < |r| ==> r[i] == buf[i - 1]
  {
    var pushed := [x] + buf;
    if |pushed| > cap then pushed[..cap] else pushed
  }

  /** Pushes `xs` in arrival order, `xs[0]` first. */
  function PushAll<T>(buf: seq<T>, xs: seq<T>, cap: nat): seq<T>
    decreases |xs|
  {
    if xs == [] then buf else PushAll(PushFront(buf, xs[0], cap), xs[1..], cap)
  }

  /**
   * After pushing `xs` onto a buffer within its cap, the buffer holds the
   * `cap` most recent items, newest first: the pushed items in reverse
   * arrival order, then what was there before.
   */
  lemma {:induction false} PushAllNewestFirst<T>(buf: seq<T>, xs: seq<T>, cap: nat)
    requires |buf| <= cap
    ensures |PushAll(buf, xs, cap)| == Min(cap, |xs| + |buf|)
    ensures forall i :: 0 <= i < |PushAll(buf, xs, cap)| ==>
      PushAll(buf, xs, cap)[i] == if i < |xs| then xs[|xs| - 1 - i] else buf[i - |xs|]
    decreases |xs|
  {
    if xs != [] {
      var p := PushFront(buf, xs[0], cap);
      PushAllNewestFirst(p, xs[1..], cap);
      var r := PushAll(buf, xs, cap);
      assert r == PushAll(p, xs[1..], cap);
      forall i | 0 <= i < |r|
        ensures r[i] == if i < |xs| then xs[|xs| - 1 - i] else buf[i - |xs|]
      {
        if i >= |xs| - 1 {
          assert r[i] == p[i - (|xs| - 1)];
        }
      }
    }
  }

  /** `xs` in reverse order. */
  function Reversed<T>(xs: seq<T>): seq<T>
  {
    seq(|xs|, i requires 0 <= i < |xs| => xs[|xs| - 1 - i])
  }

  /**
   * The same fact in closed form: pushing `xs` yields `xs` reversed followed
   * by the old contents, cut at the cap.
   */
  lemma PushAllIsReversedPrefix<T>(buf: seq<T>, xs: seq<T>, cap: nat)
    requires |buf| <= cap
    ensures PushAll(buf, xs, cap) == (Reversed(xs) + buf)[..Min(cap, |xs| + |buf|)]
  {
    PushAllNewestFirst(buf, xs, cap);
  }

  /** Starting from empty, exactly the last `min(cap, |xs|)` items are kept, newest first. */
  lemma MostRecentKept<T>(xs: seq<T>, cap: nat)
    ensures |PushAll([], xs, cap)| == Min(cap, |xs|)
    ensures forall i :: 0 <= i < |PushAll([], xs, cap)| ==> PushAll([], xs, cap)[i] == xs[|xs| - 1 - i]
  {
    PushAllNewestFirst([], xs, cap);
  }
}
