/**
 * What the rate limiter guarantees across many requests from one identity:
 * replaying a non-decreasing sequence of request times through `Step`, the
 * queue is always the admitted times that are still inside the window, a
 * request is admitted exactly when fewer than `RATE_LIMIT` admitted requests
 * fall in the trailing window, and no closed window of `RATE_WINDOW_SECONDS`
 * seconds ever holds more than `RATE_LIMIT` admitted requests.
 */
module SlidingWindow {
  import opened RateLimit

  /** The limiter's queue and the times it admitted, after some requests. */
  datatype Trace = Trace(queue: seq<int>, admitted: seq<int>)

  /** Feeds the request times, oldest first, to one identity's limiter. */
  function Replay(times: seq<int>): Trace
    decreases |times|
  {
    if times == [] then Trace([], [])
    else
      var prev := Replay(times[..|times| - 1]);
      var now := times[|times| - 1];
      var v := Step(prev.queue, now);
      Trace(v.queue, if v.admitted then prev.admitted + [now] else prev.admitted)
  }

  /** How many times of `s` lie in `[lo, hi]`. */
  function CountIn(s: seq<int>, lo: int, hi: int): (n: nat)
    ensures n <= |s|
  {
    if s == [] then 0 else (if lo <= s[0] <= hi then 1 else 0) + CountIn(s[1..], lo, hi)
  }

  lemma {:induction false} CountInAppend(s: seq<int>, x: int, lo: int, hi: int)
    ensures CountIn(s + [x], lo, hi) == CountIn(s, lo, hi) + (if lo <= x <= hi then 1 else 0)
  {
    if s != [] {
      assert (s + [x])[1..] == s[1..] + [x];
      CountInAppend(s[1..], x, lo, hi);
    }
  }

  /** Times the trim drops are older than `lo`, so they are never counted in `[lo, hi]`. */
  lemma {:induction false} CountInBelowPurged(s: seq<int>, windowStart: int, lo: int, hi: int)
    requires windowStart <= lo
    ensures CountIn(s, lo, hi) <= |Purge(s, windowStart)|
  {
    if s != [] && s[0] < windowStart {
      CountInBelowPurged(s[1..], windowStart, lo, hi);
    }
  }

  /** On an ordered sequence with nothing after `hi`, the trim keeps exactly the times in `[windowStart, hi]`. */
  lemma {:induction false} PurgeCountsOrdered(s: seq<int>, windowStart: int, hi: int)
    requires NonDecreasing(s) && AtMost(s, hi)
    ensures |Purge(s, windowStart)| == CountIn(s, windowStart, hi)
  {
    if s != [] {
      var rest := s[1..];
      assert NonDecreasing(rest) by {
        forall i, j | 0 <= i <= j < |rest| ensures rest[i] <= rest[j] {
          assert rest[i] == s[i + 1] && rest[j] == s[j + 1];
        }
      }
      assert AtMost(rest, hi) by {
        forall i | 0 <= i < |rest| ensures rest[i] <= hi {
          assert rest[i] == s[i + 1];
        }
      }
      if s[0] < windowStart {
        PurgeCountsOrdered(rest, windowStart, hi);
      } else {
        assert AllWithin(rest, windowStart, hi) by {
          forall i | 0 <= i < |rest| ensures windowStart <= rest[i] <= hi {
            assert rest[i] == s[i + 1] && s[0] <= s[i + 1];
          }
        }
        CountInAll(rest, windowStart, hi);
      }
    }
  }

  lemma {:induction false} CountInAll(s: seq<int>, lo: int, hi: int)
    requires AllWithin(s, lo, hi)
    ensures CountIn(s, lo, hi) == |s|
  {
    if s != [] {
      assert AllWithin(s[1..], lo, hi) by {
        forall i | 0 <= i < |s| - 1 ensures lo <= s[1..][i] <= hi {
          assert s[1..][i] == s[i + 1];
        }
      }
      CountInAll(s[1..], lo, hi);
    }
  }

  /** Trimming twice, the second time at a later window start, is one trim at the later start. */
  lemma {:induction false} PurgeTwice(s: seq<int>, a: int, b: int)
    requires a <= b
    ensures Purge(Purge(s, a), b) == Purge(s, b)
  {
    if s != [] && s[0] < a {
      PurgeTwice(s[1..], a, b);
    }
  }

  /** Appending a time inside the window survives the trim. */
  lemma {:induction false} PurgeAppend(s: seq<int>, x: int, windowStart: int)
    requires windowStart <= x
    ensures Purge(s + [x], windowStart) == Purge(s, windowStart) + [x]
  {
    if s != [] && s[0] < windowStart {
      assert (s + [x])[1..] == s[1..] + [x];
      PurgeAppend(s[1..], x, windowStart);
    }
  }

  /** One unfolding of `Replay`: the last request is checked against the queue the others left. */
  lemma ReplayLast(times: seq<int>)
    requires times != []
    ensures var prev := Replay(times[..|times| - 1]);
      var now := times[|times| - 1];
      var v := Step(prev.queue, now);
      && Replay(times).queue == v.queue
      && Replay(times).admitted == AdmittedAfter(times[..|times| - 1], now)
  {
  }

  /** The times the limiter has admitted after `init` and then a request at `now`. */
  function AdmittedAfter(init: seq<int>, now: int): seq<int> {
    if Step(Replay(init).queue, now).admitted then Replay(init).admitted + [now] else Replay(init).admitted
  }

  /**
   * The queue holds exactly the admitted times that the last trim kept:
   * refused requests leave no trace in it.
   */
  lemma {:induction false} QueueIsRecentAdmissions(times: seq<int>)
    requires times != [] && NonDecreasing(times)
    ensures Replay(times).queue == Purge(Replay(times).admitted, times[|times| - 1] - RATE_WINDOW_SECONDS)
    decreases |times|, 2
  {
    ReplayLast(times);
    PrefixBelowLast(times);
    QueueAfterStep(times[..|times| - 1], times[|times| - 1]);
  }

  /** One request at `now` keeps the queue equal to the trimmed admitted times. */
  lemma {:induction false} QueueAfterStep(init: seq<int>, now: int)
    requires NonDecreasing(init) && AtMost(init, now)
    ensures Step(Replay(init).queue, now).queue == Purge(AdmittedAfter(init, now), now - RATE_WINDOW_SECONDS)
    decreases |init| + 1, 1
  {
    var w := now - RATE_WINDOW_SECONDS;
    var prev := Replay(init);
    TrimOfPrevious(init, now);
    StepRecordsOnlyAdmissions(prev.queue, now);
    if Step(prev.queue, now).admitted {
      PurgeAppend(prev.admitted, now, w);
    }
  }

  /** Appending a time no earlier than every element keeps a sequence ordered. */
  lemma AppendInOrder(a: seq<int>, x: int)
    requires NonDecreasing(a) && AtMost(a, x)
    ensures NonDecreasing(a + [x]) && AtMost(a + [x], x)
  {
    var b := a + [x];
    forall i, j | 0 <= i <= j < |b| ensures b[i] <= b[j] {
      if j == |a| { assert b[i] <= x; } else { assert b[i] == a[i] && b[j] == a[j]; }
    }
  }

  /** Every admitted time is one of the request times, in order, none after the last. */
  lemma {:induction false} AdmittedAreOrdered(times: seq<int>)
    requires times != [] && NonDecreasing(times)
    ensures NonDecreasing(Replay(times).admitted) && AtMost(Replay(times).admitted, times[|times| - 1])
  {
    var init := times[..|times| - 1];
    var now := times[|times| - 1];
    ReplayLast(times);
    PrefixBelowLast(times);
    if init != [] {
      AdmittedAreOrdered(init);
    }
    var prev := Replay(init).admitted;
    assert AtMost(prev, now) by {
      if init != [] {
        var last := init[|init| - 1];
        assert last <= now;
        forall i | 0 <= i < |prev| ensures prev[i] <= now {
          assert prev[i] <= last;
        }
      }
    }
    AppendInOrder(prev, now);
  }

  /** Before a request at `now`, trimming the queue is trimming every time admitted so far. */
  lemma {:induction false} TrimOfPrevious(init: seq<int>, now: int)
    requires NonDecreasing(init) && AtMost(init, now)
    ensures var w := now - RATE_WINDOW_SECONDS;
      Purge(Replay(init).queue, w) == Purge(Replay(init).admitted, w)
    decreases |init| + 1, 0
  {
    if init != [] {
      QueueIsRecentAdmissions(init);
      PurgeTwice(Replay(init).admitted, init[|init| - 1] - RATE_WINDOW_SECONDS, now - RATE_WINDOW_SECONDS);
    }
  }

  /**
   * Sliding-window admission: a request at `now`, after requests at `init`,
   * is admitted exactly when fewer than `RATE_LIMIT` of those were admitted
   * in `[now - RATE_WINDOW_SECONDS, now]`.
   */
  lemma AdmitIffWindowNotFull(init: seq<int>, now: int)
    requires NonDecreasing(init) && AtMost(init, now)
    ensures Step(Replay(init).queue, now).admitted
      == (CountIn(Replay(init).admitted, now - RATE_WINDOW_SECONDS, now) < RATE_LIMIT)
  {
    var w := now - RATE_WINDOW_SECONDS;
    TrimOfPrevious(init, now);
    if init != [] {
      AdmittedAreOrdered(init);
      PurgeCountsOrdered(Replay(init).admitted, w, now);
    }
  }

  /** The last request time bounds all earlier ones. */
  lemma PrefixBelowLast(times: seq<int>)
    requires times != [] && NonDecreasing(times)
    ensures NonDecreasing(times[..|times| - 1]) && AtMost(times[..|times| - 1], times[|times| - 1])
  {
  }

  /** One more request keeps every window within the limit. */
  lemma {:induction false} WindowAfterStep(init: seq<int>, now: int, lo: int)
    requires NonDecreasing(init) && AtMost(init, now)
    requires CountIn(Replay(init).admitted, lo, lo + RATE_WINDOW_SECONDS) <= RATE_LIMIT
    ensures CountIn(AdmittedAfter(init, now), lo, lo + RATE_WINDOW_SECONDS) <= RATE_LIMIT
  {
    var prev := Replay(init);
    var hi := lo + RATE_WINDOW_SECONDS;
    var w := now - RATE_WINDOW_SECONDS;
    if Step(prev.queue, now).admitted {
      CountInAppend(prev.admitted, now, lo, hi);
      if lo <= now <= hi {
        TrimOfPrevious(init, now);
        StepRecordsOnlyAdmissions(prev.queue, now);
        CountInBelowPurged(prev.admitted, w, lo, hi);
      }
    }
  }

  /**
   * The rate limit itself: for every closed window `[lo, lo + RATE_WINDOW_SECONDS]`,
   * at most `RATE_LIMIT` of the requests fed in order are admitted.
   */
  lemma {:induction false} AtMostLimitPerWindow(times: seq<int>, lo: int)
    requires NonDecreasing(times)
    ensures CountIn(Replay(times).admitted, lo, lo + RATE_WINDOW_SECONDS) <= RATE_LIMIT
  {
    if times != [] {
      var init := times[..|times| - 1];
      ReplayLast(times);
      PrefixBelowLast(times);
      AtMostLimitPerWindow(init, lo);
      WindowAfterStep(init, times[|times| - 1], lo);
    }
  }

  // ---------------------------------------------------------------------
  // A clock that steps back

  /** Times none of which lies in `[lo, hi]` count zero. */
  lemma {:induction false} CountInNone(s: seq<int>, lo: int, hi: int)
    requires forall i :: 0 <= i < |s| ==> !(lo <= s[i] <= hi)
    ensures CountIn(s, lo, hi) == 0
  {
    if s != [] {
      CountInNone(s[1..], lo, hi);
    }
  }

  /**
   * After a request at `t[0]`, the clock steps back to `back`, still inside
   * the window `t[0]` opens: every request at `back` is admitted behind the
   * later-looking front, and the queue is never trimmed.
   */
  lemma {:induction false} ReplayBehindLaterFront(t: seq<int>, back: int)
    requires t != [] && t[0] >= back - RATE_WINDOW_SECONDS && |t| <= RATE_LIMIT
    requires forall i :: 1 <= i < |t| ==> t[i] == back
    ensures Replay(t).queue == t && Replay(t).admitted == t
    decreases |t|
  {
    if |t| == 1 {
      assert t == [t[0]];
      ReplaySingle(t[0]);
    } else {
      ReplayBehindLaterFront(t[..|t| - 1], back);
      ReplayLast(t);
      ReplayAdmitsBehind(t);
    }
  }

  /** A lone request is admitted and queued. */
  lemma ReplaySingle(now: int)
    ensures Replay([now]).queue == [now] && Replay([now]).admitted == [now]
  {
    ReplayLast([now]);
    assert [now][..0] == [];
  }

  /**
   * When every request so far was admitted and none trimmed, one more
   * behind a front still inside its window is admitted and queued too.
   */
  lemma ReplayAdmitsBehind(t: seq<int>)
    requires |t| >= 2 && t[0] >= t[|t| - 1] - RATE_WINDOW_SECONDS && |t| <= RATE_LIMIT
    requires Replay(t[..|t| - 1]).queue == t[..|t| - 1] && Replay(t[..|t| - 1]).admitted == t[..|t| - 1]
    ensures Step(Replay(t[..|t| - 1]).queue, t[|t| - 1]).queue == t
    ensures AdmittedAfter(t[..|t| - 1], t[|t| - 1]) == t
  {
    AdmittedBehindFront(t[..|t| - 1], t[|t| - 1]);
    DropLastAppend(t);
  }

  /** A non-empty sequence is its prefix without the last element, then that element. */
  lemma DropLastAppend(t: seq<int>)
    requires t != []
    ensures t[..|t| - 1] + [t[|t| - 1]] == t
  {
  }

  /** A short queue whose front is inside the window admits `now` without trimming. */
  lemma AdmittedBehindFront(q: seq<int>, now: int)
    requires q != [] && q[0] >= now - RATE_WINDOW_SECONDS && |q| < RATE_LIMIT
    ensures Step(q, now) == Verdict(true, q + [now])
  {
  }

  /**
   * With a wall clock that steps back, the limiter refuses a request at
   * `now` although only one admitted request lies in the trailing window:
   * after one request at `init[0]`, `RATE_LIMIT - 1` requests stamped with an
   * earlier `back` sit behind it, and the front-only trim never reaches
   * them (for instance one request at 100, 59 at 0, then one at 130).
   * `AdmitIffWindowNotFull` needs non-decreasing times.
   */
  lemma ClockStepBackRefusesOpenWindow(init: seq<int>, back: int, now: int)
    requires |init| == RATE_LIMIT && back < now - RATE_WINDOW_SECONDS <= init[0] <= now
    requires forall i :: 1 <= i < |init| ==> init[i] == back
    ensures !Step(Replay(init).queue, now).admitted
    ensures CountIn(Replay(init).admitted, now - RATE_WINDOW_SECONDS, now) == 1
  {
    ReplayBehindLaterFront(init, back);
    FullQueueRefuses(init, now);
    CountInFrontOnly(init, now - RATE_WINDOW_SECONDS, now);
  }

  /** A full queue whose front is still inside the window refuses. */
  lemma FullQueueRefuses(q: seq<int>, now: int)
    requires |q| == RATE_LIMIT && q[0] >= now - RATE_WINDOW_SECONDS
    ensures !Step(q, now).admitted
  {
  }

  /** Only the front lies in `[lo, hi]` when everything behind it is older than `lo`. */
  lemma CountInFrontOnly(s: seq<int>, lo: int, hi: int)
    requires s != [] && lo <= s[0] <= hi
    requires forall i :: 1 <= i < |s| ==> s[i] < lo
    ensures CountIn(s, lo, hi) == 1
  {
    CountInNone(s[1..], lo, hi);
  }
}
