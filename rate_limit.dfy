/**
 * The per-identity sliding-window rate limiter (app.py:25-27, app.py:71-79).
 * Each identity owns a queue of request times; a check drops from the front
 * every time strictly older than `now - RATE_WINDOW_SECONDS`, refuses without
 * recording when `RATE_LIMIT` times remain, and otherwise records `now`.
 * Times are whole seconds passed in by the caller.
 */
module RateLimit {

  const RATE_LIMIT: nat := 60
  const RATE_WINDOW_SECONDS: int := 60

  /**
   * The queue after the front trim: the longest suffix of `q` whose first
   * time is not older than `windowStart`.
   */
  function Purge(q: seq<int>, windowStart: int): (r: seq<int>)
    ensures |r| <= |q| && r == q[|q| - |r|..]
    ensures forall i :: 0 <= i < |q| - |r| ==> q[i] < windowStart
    ensures r == [] || r[0] >= windowStart
  {
    if q != [] && q[0] < windowStart then Purge(q[1..], windowStart) else q
  }

  /** What one check decides for one identity, and the queue it leaves behind. */
  datatype Verdict = Verdict(admitted: bool, queue: seq<int>)

  /**
   * One check (app.py:72-78). Whatever the queue held, the one it leaves is
   * non-empty with its front inside the window, ends with `now` when the
   * request was admitted, and stays within `RATE_LIMIT` when it was.
   */
  function Step(q: seq<int>, now: int): (v: Verdict)
    ensures v.queue != [] && v.queue[0] >= now - RATE_WINDOW_SECONDS
    ensures v.admitted ==> v.queue[|v.queue| - 1] == now && |v.queue| <= RATE_LIMIT
    ensures |q| <= RATE_LIMIT ==> |v.queue| <= RATE_LIMIT
  {
    var kept := Purge(q, now - RATE_WINDOW_SECONDS);
    if |kept| >= RATE_LIMIT then Verdict(false, kept) else Verdict(true, kept + [now])
  }

  /**
   * A refusal records nothing (the queue is only trimmed); an admission
   * appends exactly `now`, and happens exactly when fewer than `RATE_LIMIT`
   * times survive the trim.
   */
  lemma StepRecordsOnlyAdmissions(q: seq<int>, now: int)
    ensures var v := Step(q, now); var kept := Purge(q, now - RATE_WINDOW_SECONDS);
      && (v.admitted <==> |kept| < RATE_LIMIT)
      && (!v.admitted ==> v.queue == kept)
      && (v.admitted ==> v.queue == kept + [now] && |v.queue| == |kept| + 1)
  {
  }

  ghost predicate NonDecreasing(s: seq<int>) {
    forall i, j :: 0 <= i <= j < |s| ==> s[i] <= s[j]
  }

  /** No time in `s` is after `hi`. */
  ghost predicate AtMost(s: seq<int>, hi: int) {
    forall i :: 0 <= i < |s| ==> s[i] <= hi
  }

  /** Every time in `s` lies in `[lo, hi]`. */
  ghost predicate AllWithin(s: seq<int>, lo: int, hi: int) {
    forall i :: 0 <= i < |s| ==> lo <= s[i] <= hi
  }

  /** Trimming an ordered queue keeps it ordered and leaves only times at or after the window start. */
  lemma {:induction false} PurgeOrderedInWindow(q: seq<int>, windowStart: int, hi: int)
    requires NonDecreasing(q) && AtMost(q, hi)
    ensures NonDecreasing(Purge(q, windowStart))
    ensures AllWithin(Purge(q, windowStart), windowStart, hi)
  {
    if q != [] && q[0] < windowStart {
      var rest := q[1..];
      assert NonDecreasing(rest) by {
        forall i, j | 0 <= i <= j < |rest| ensures rest[i] <= rest[j] {
          assert rest[i] == q[i + 1] && rest[j] == q[j + 1];
        }
      }
      assert AtMost(rest, hi) by {
        forall i | 0 <= i < |rest| ensures rest[i] <= hi {
          assert rest[i] == q[i + 1];
        }
      }
      PurgeOrderedInWindow(rest, windowStart, hi);
    } else if q != [] {
      forall i | 0 <= i < |q| ensures windowStart <= q[i] {
        assert q[0] <= q[i];
      }
    }
  }

  /**
   * When times were recorded in non-decreasing order and none is in the
   * future, a check leaves the queue ordered and wholly inside
   * `[now - RATE_WINDOW_SECONDS, now]`: no stale entry survives anywhere.
   */
  lemma StepKeepsOrderedWindow(q: seq<int>, now: int)
    requires NonDecreasing(q) && AtMost(q, now)
    ensures NonDecreasing(Step(q, now).queue)
    ensures AllWithin(Step(q, now).queue, now - RATE_WINDOW_SECONDS, now)
  {
    var w := now - RATE_WINDOW_SECONDS;
    var kept := Purge(q, w);
    PurgeOrderedInWindow(q, w, now);
    var v := Step(q, now);
    if v.admitted {
      assert v.queue == kept + [now];
      assert NonDecreasing(v.queue) by {
        forall i, j | 0 <= i <= j < |v.queue| ensures v.queue[i] <= v.queue[j] {
          if j == |kept| { assert v.queue[j] == now; } else { assert v.queue[i] == kept[i] && v.queue[j] == kept[j]; }
        }
      }
    }
  }

  /** The queue recorded for `id`; a `defaultdict(deque)` reads a missing key as empty. */
  function QueueIn(m: map<string, seq<int>>, id: string): seq<int> {
    if id in m then m[id] else []
  }

  /** Every queue in the log holds at most `RATE_LIMIT` times. */
  ghost predicate BoundedLog(m: map<string, seq<int>>) {
    forall id :: id in m ==> |m[id]| <= RATE_LIMIT
  }

  /** Every queue in the log is ordered and holds no time after `t`. */
  ghost predicate OrderedLog(m: map<string, seq<int>>, t: int) {
    forall id :: id in m ==> NonDecreasing(m[id]) && AtMost(m[id], t)
  }

  /** One check keeps both log invariants, changing only the checked identity. */
  lemma StepKeepsLogInvariants(m: map<string, seq<int>>, id: string, now: int)
    ensures var m' := m[id := Step(QueueIn(m, id), now).queue];
      && (BoundedLog(m) ==> BoundedLog(m'))
      && (OrderedLog(m, now) ==> OrderedLog(m', now) && AllWithin(m'[id], now - RATE_WINDOW_SECONDS, now))
  {
    var q := QueueIn(m, id);
    StepRecordsOnlyAdmissions(q, now);
    if OrderedLog(m, now) {
      assert NonDecreasing(q) && AtMost(q, now);
      StepKeepsOrderedWindow(q, now);
    }
  }

  /** `_request_log`: identity -> queue of request times. */
  class RequestLog {
    var entries: map<string, seq<int>>

    constructor ()
      ensures entries == map[]
    {
      entries := map[];
    }

    /** The queue for `id`. */
    function Queue(id: string): seq<int>
      reads this
    {
      QueueIn(entries, id)
    }


    /** The trim-then-count-then-record step for one identity (app.py:71-79). */
    method Admit(id: string, now: int) returns (admitted: bool)
      modifies this
      ensures var v := Step(old(Queue(id)), now);
        admitted == v.admitted && entries == old(entries)[id := v.queue]
      ensures var kept := Purge(old(Queue(id)), now - RATE_WINDOW_SECONDS);
        && (admitted <==> |kept| < RATE_LIMIT)
        && entries[id] == (if admitted then kept + [now] else kept)
      ensures entries[id] != [] && entries[id][0] >= now - RATE_WINDOW_SECONDS
      ensures forall other :: other != id ==> Queue(other) == old(Queue(other))
      ensures old(BoundedLog(entries)) ==> BoundedLog(entries)
      ensures old(OrderedLog(entries, now)) ==> OrderedLog(entries, now) && AllWithin(entries[id], now - RATE_WINDOW_SECONDS, now)
    {
      var q := Queue(id);
      ghost var q0 := q;
      var windowStart := now - RATE_WINDOW_SECONDS;
      while q != [] && q[0] < windowStart
        invariant Purge(q, windowStart) == Purge(q0, windowStart)
        decreases |q|
      {
        q := q[1..];
      }
      assert q == Purge(q0, windowStart);
      if |q| >= RATE_LIMIT {
        entries := entries[id := q];
        admitted := false;
      } else {
        entries := entries[id := q + [now]];
        admitted := true;
      }
      assert entries == old(entries)[id := Step(q0, now).queue];
      StepRecordsOnlyAdmissions(q0, now);
      StepKeepsLogInvariants(old(entries), id, now);
    }
  }
}
