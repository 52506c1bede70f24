/** The bounded log buffer both the network log and the console capture keep: append the new entry
    at the end, then drop the oldest one when the length exceeds the maximum. */
module Bounded {

  /** `log.push(x); if (log.length > max) log.shift();` */
  function Push<T>(log: seq<T>, x: T, max: nat): (r: seq<T>)
    requires max >= 1
    ensures |log| <= max ==> |r| <= max
    ensures |r| >= 1 && r[|r| - 1] == x
    ensures |log| < max ==> r == log + [x]
    ensures |log| >= max ==> |r| == |log| && r == log[1..] + [x]
  {
    var grown := log + [x];
    if |grown| > max then grown[1..] else grown
  }

  /** The last `max` elements of `s` (all of them when there are fewer). */
  function Window<T>(s: seq<T>, max: nat): (r: seq<T>)
    ensures |r| == if |s| < max then |s| else max
    ensures r == s[|s| - |r|..]
  {
    if |s| <= max then s else s[|s| - max..]
  }

  /** Pushing every element of `xs` in turn. */
  function PushAll<T>(log: seq<T>, xs: seq<T>, max: nat): seq<T>
    requires max >= 1
    decreases |xs|
  {
    if xs == [] then log else Push(PushAll(log, xs[..|xs| - 1], max), xs[|xs| - 1], max)
  }

  /** One push on a window is the window of one element more. */
  lemma PushWindow<T>(s: seq<T>, x: T, max: nat)
    requires max >= 1
    ensures Push(Window(s, max), x, max) == Window(s + [x], max)
  {
    if |s| >= max {
      assert Window(s, max)[1..] + [x] == (s + [x])[|s| + 1 - max..];
    }
  }

  /** However many entries arrive, a buffer that starts within bounds holds the most recent `max`
      of everything it was given, oldest first. */
  lemma {:induction false} PushAllWindow<T>(log: seq<T>, xs: seq<T>, max: nat)
    requires max >= 1 && |log| <= max
    ensures PushAll(log, xs, max) == Window(log + xs, max)
    decreases |xs|
  {
    if xs == [] {
      assert log + xs == log;
    } else {
      var init, x := xs[..|xs| - 1], xs[|xs| - 1];
      assert PushAll(log, xs, max) == Push(PushAll(log, init, max), x, max);
      PushAllWindow(log, init, max);
      PushWindow(log + init, x, max);
      assert xs == init + [x];
      assert log + xs == (log + init) + [x];
    }
  }
}
