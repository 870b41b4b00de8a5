/**
 * The timer half of the turn queue. Each `waitTurn` hands a fresh
 * single-thread `ScheduledExecutorService` a command (`addToQueue`) and a
 * delay in seconds. Sequentially, "every armed timer eventually fires, the
 * smaller delay first" is a stable sort of the armed timers by delay; timers
 * with the same delay fire in the order they were armed.
 */
module Scheduling {
  import opened KotlinInt

  /** One scheduled `addToQueue` of `owner`, after `delay` seconds. */
  datatype Timer<T> = Timer(owner: T, delay: int)

  /** A scheduled executor runs a command with a negative delay at once. */
  function Wait<T>(t: Timer<T>): (w: nat)
    ensures w == 0 <==> t.delay <= 0
    ensures t.delay >= 0 ==> w == t.delay
  {
    if t.delay < 0 then 0 else t.delay
  }

  /** Timers listed in the order they fire. */
  predicate SortedByWait<T>(s: seq<Timer<T>>)
  {
    forall i, j :: 0 <= i < j < |s| ==> Wait(s[i]) <= Wait(s[j])
  }

  /**
   * Arming one more timer: it fires after every pending timer with the same
   * or a smaller wait, and before every one with a greater wait.
   */
  function Insert<T>(s: seq<Timer<T>>, t: Timer<T>): (r: seq<Timer<T>>)
    ensures multiset(r) == multiset(s) + multiset{t}
    ensures |r| == |s| + 1
    ensures r[0] == t || (s != [] && r[0] == s[0])
    ensures SortedByWait(s) ==> SortedByWait(r)
  {
    if s == [] then [t]
    else if Wait(t) < Wait(s[0]) then [t] + s
    else
      var rest := Insert(s[1..], t);
      assert s == [s[0]] + s[1..];
      [s[0]] + rest
  }

  /** The order in which the timers armed so far (oldest first) fire. */
  function FiringOrder<T>(armed: seq<Timer<T>>): (r: seq<Timer<T>>)
    ensures multiset(r) == multiset(armed)
    ensures |r| == |armed|
    ensures SortedByWait(r)
  {
    if armed == [] then []
    else
      var prefix := armed[..|armed| - 1];
      assert armed == prefix + [armed[|armed| - 1]];
      Insert(FiringOrder(prefix), armed[|armed| - 1])
  }

  /** The characters that `addToQueue` enqueues, in firing order. */
  function Owners<T>(s: seq<Timer<T>>): (r: seq<T>)
    ensures |r| == |s|
    ensures forall i :: 0 <= i < |s| ==> r[i] == s[i].owner
  {
    seq(|s|, i requires 0 <= i < |s| => s[i].owner)
  }

  /** Firing one more timer enqueues its owner after the ones already enqueued. */
  lemma OwnersSnoc<T>(s: seq<Timer<T>>, t: Timer<T>)
    ensures Owners(s + [t]) == Owners(s) + [t.owner]
  {
  }

  /** Only armed timers fire. */
  lemma FiredWereArmed<T>(armed: seq<Timer<T>>, t: Timer<T>)
    requires t in FiringOrder(armed)
    ensures t in armed
  {
    assert t in multiset(FiringOrder(armed));
  }

  /** The timers of `s` whose wait is `w`, in the order of `s`. */
  function WithWait<T>(s: seq<Timer<T>>, w: nat): (r: seq<Timer<T>>)
    ensures |r| <= |s|
    ensures forall x :: x in r ==> x in s && Wait(x) == w
  {
    if s == [] then []
    else (if Wait(s[0]) == w then [s[0]] else []) + WithWait(s[1..], w)
  }

  lemma {:induction false} WithWaitAppend<T>(a: seq<Timer<T>>, b: seq<Timer<T>>, w: nat)
    ensures WithWait(a + b, w) == WithWait(a, w) + WithWait(b, w)
  {
    if a == [] {
      assert a + b == b;
    } else {
      assert (a + b)[0] == a[0];
      assert (a + b)[1..] == a[1..] + b;
      WithWaitAppend(a[1..], b, w);
    }
  }

  lemma {:induction false} NoneWithWait<T>(s: seq<Timer<T>>, w: nat)
    requires forall x :: x in s ==> Wait(x) > w
    ensures WithWait(s, w) == []
  {
    if s != [] {
      assert s[0] in s;
      assert forall x :: x in s[1..] ==> x in s;
      NoneWithWait(s[1..], w);
    }
  }

  /** Arming a timer into a sorted schedule puts it after every pending timer with the same wait. */
  lemma {:induction false} InsertIsStable<T>(s: seq<Timer<T>>, t: Timer<T>, w: nat)
    requires SortedByWait(s)
    ensures WithWait(Insert(s, t), w) == WithWait(s, w) + (if Wait(t) == w then [t] else [])
  {
    if s == [] {
    } else if Wait(t) < Wait(s[0]) {
      var r := Insert(s, t);
      assert r == [t] + s;
      assert r[0] == t && r[1..] == s;
      if Wait(t) == w {
        forall x | x in s
          ensures Wait(x) > w
        {
          var i :| 0 <= i < |s| && s[i] == x;
          assert Wait(s[0]) <= Wait(s[i]);
        }
        NoneWithWait(s, w);
      }
    } else {
      var r := Insert(s, t);
      assert r == [s[0]] + Insert(s[1..], t);
      assert r[0] == s[0] && r[1..] == Insert(s[1..], t);
      InsertIsStable(s[1..], t, w);
    }
  }

  /**
   * Stability: for every wait, the timers with that wait fire in the order
   * they were armed.
   */
  lemma {:induction false} FiringOrderIsStable<T>(armed: seq<Timer<T>>, w: nat)
    ensures WithWait(FiringOrder(armed), w) == WithWait(armed, w)
  {
    if armed != [] {
      var prefix := armed[..|armed| - 1];
      var t := armed[|armed| - 1];
      var tail := if Wait(t) == w then [t] else [];
      assert armed == prefix + [t];
      assert WithWait([t], w) == tail by {
        assert [t][1..] == [];
      }
      calc {
        WithWait(FiringOrder(armed), w);
        WithWait(Insert(FiringOrder(prefix), t), w);
        { InsertIsStable(FiringOrder(prefix), t, w); }
        WithWait(FiringOrder(prefix), w) + tail;
        { FiringOrderIsStable(prefix, w); }
        WithWait(prefix, w) + tail;
        { WithWaitAppend(prefix, [t], w); }
        WithWait(armed, w);
      }
    }
  }

  /** Once every armed timer has fired, the owner of each one is in the queue. */
  lemma ArmedOwnersEnqueued<T>(armed: seq<Timer<T>>, k: nat)
    requires k < |armed|
    ensures armed[k].owner in Owners(FiringOrder(armed))
  {
    var r := FiringOrder(armed);
    assert armed[k] in multiset(armed);
    assert armed[k] in multiset(r);
    var i :| 0 <= i < |r| && r[i] == armed[k];
    assert Owners(r)[i] == armed[k].owner;
  }

  /** A timer with a strictly smaller wait fires strictly earlier. */
  lemma SoonerFiresFirst<T>(armed: seq<Timer<T>>, a: Timer<T>, b: Timer<T>)
    requires a in armed && b in armed && Wait(a) < Wait(b)
    ensures exists i, j :: 0 <= i < j < |FiringOrder(armed)| && FiringOrder(armed)[i] == a && FiringOrder(armed)[j] == b
  {
    var r := FiringOrder(armed);
    assert a in multiset(armed) && b in multiset(armed);
    assert a in multiset(r) && b in multiset(r);
    var i :| 0 <= i < |r| && r[i] == a;
    var j :| 0 <= j < |r| && r[j] == b;
    assert i < j;
  }

  /**
   * Two enemies of weight 70 and 1 armed in that order: the delays, weight
   * divided by ten with truncation, are 7 and 0 seconds, so the lighter one
   * reaches the queue first.
   */
  lemma LightEnemyPolledFirst<T>(heavy: T, light: T)
    ensures Owners(FiringOrder([Timer(heavy, Div10(70)), Timer(light, Div10(1))])) == [light, heavy]
  {
    var armed := [Timer(heavy, 7), Timer(light, 0)];
    assert armed[..1] == [Timer(heavy, 7)];
    assert FiringOrder(armed[..1]) == Insert(FiringOrder([]), Timer(heavy, 7));
    assert FiringOrder(armed) == [Timer(light, 0), Timer(heavy, 7)];
  }
}
