/** The Redis-backed fixed-window limiter (app/security/rate_limit.py) for one key. INCR and the
    EXPIRE after the first INCR are one step; the EXPIRE may fail, which the source swallows. */
module RateLimit {
  import opened Common

  /** A stored counter; without an expiry it never goes away. */
  datatype Counter = Counter(count: int, expiresAt: Option<int>)

  /** The counter as Redis shows it at `now`: an expired key is gone. */
  function Live(key: Option<Counter>, now: int): Option<Counter> {
    if key.Some? && key.value.expiresAt.Some? && key.value.expiresAt.value <= now then None else key
  }

  function Incr(key: Option<Counter>, now: int): Counter {
    var live := Live(key, now);
    if live.Some? then live.value.(count := live.value.count + 1) else Counter(1, None)
  }

  class Limiter {
    var key: Option<Counter>

    constructor ()
      ensures key == None
    {
      key := None;
    }

    /** Counts a request and says whether it is admitted; `up` is whether INCR works, and `expires`
        whether EXPIRE does. */
    method CheckRateLimit(limit: int, windowSec: int, now: int, up: bool, expires: bool) returns (admitted: bool)
      modifies this
      ensures limit <= 0 || windowSec <= 0 || !up ==> admitted && key == old(key)
      ensures limit > 0 && windowSec > 0 && up ==>
                && key == Some(After(old(key), windowSec, now, expires))
                && (admitted <==> After(old(key), windowSec, now, expires).count <= limit)
    {
      if limit <= 0 || windowSec <= 0 || !up {
        return true;
      }
      var counter := Incr(key, now);
      key := Some(counter);
      if counter.count == 1 {
        if !expires {
          return true;
        }
        key := Some(counter.(expiresAt := Some(now + windowSec)));
      }
      return counter.count <= limit;
    }
  }

  function After(key: Option<Counter>, windowSec: int, now: int, expires: bool): Counter {
    var counter := Incr(key, now);
    if counter.count == 1 && expires then counter.(expiresAt := Some(now + windowSec)) else counter
  }

  // ---- Histories -----------------------------------------------------------------------------

  datatype Request = Request(time: int, expires: bool)

  /** A request as served: the start of the window it fell in, its number in that window, and
      whether it was admitted. */
  datatype Served = Served(time: int, window: int, number: int, admitted: bool)

  datatype State = State(key: Option<Counter>, log: seq<Served>)

  function Serve(s: State, limit: int, windowSec: int, r: Request): State {
    var counter := After(s.key, windowSec, r.time, r.expires);
    var window := if s.log != [] && Live(s.key, r.time).Some? then Last(s.log).window else r.time;
    State(Some(counter), s.log + [Served(r.time, window, counter.count, counter.count <= limit)])
  }

  function Run(limit: int, windowSec: int, requests: seq<Request>): State
    decreases |requests|
  {
    if requests == [] then State(None, [])
    else Serve(Run(limit, windowSec, requests[..|requests| - 1]), limit, windowSec, Last(requests))
  }

  lemma RunNext(limit: int, windowSec: int, requests: seq<Request>, r: Request)
    ensures Run(limit, windowSec, requests + [r])
         == Serve(Run(limit, windowSec, requests), limit, windowSec, r)
  {
    assert (requests + [r])[..|requests|] == requests;
  }

  ghost predicate Ordered(requests: seq<Request>) {
    forall i, j :: 0 <= i <= j < |requests| ==> requests[i].time <= requests[j].time
  }

  /** How many requests of the log fell in the window that started at `window`. */
  function Arrived(log: seq<Served>, window: int): int {
    if log == [] then 0
    else Arrived(log[..|log| - 1], window) + if Last(log).window == window then 1 else 0
  }

  function AdmittedIn(log: seq<Served>, window: int): int {
    if log == [] then 0
    else AdmittedIn(log[..|log| - 1], window)
         + if Last(log).window == window && Last(log).admitted then 1 else 0
  }

  function AdmittedBetween(log: seq<Served>, from: int, to: int): int {
    if log == [] then 0
    else AdmittedBetween(log[..|log| - 1], from, to)
         + if from <= Last(log).time <= to && Last(log).admitted then 1 else 0
  }

  /** Windows do not overlap: a request of an earlier window came before that window's end, and
      the later window starts no earlier than that end. */
  ghost predicate Disjoint(log: seq<Served>, windowSec: int) {
    forall i, j :: 0 <= i < j < |log| ==>
      || log[i].window == log[j].window
      || (log[i].time < log[i].window + windowSec <= log[j].window)
  }

  /** The log serves the requests in order, and its last window is its latest. */
  ghost predicate Faithful(log: seq<Served>, requests: seq<Request>) {
    && |log| == |requests|
    && (forall i :: 0 <= i < |log| ==> log[i].time == requests[i].time && log[i].window <= log[i].time)
    && (forall i :: 0 <= i < |log| ==> log[i].window <= Last(log).window && log[i].time <= Last(log).time)
  }

  /** The stored counter is the number of requests that arrived in the last window. */
  predicate KeyFollowsLog(s: State, windowSec: int) {
    && (s.key.Some? <==> s.log != [])
    && (s.log != [] ==>
          && s.key.value.count == Last(s.log).number == Arrived(s.log, Last(s.log).window)
          && s.key.value.count >= 1
          && (s.key.value.expiresAt.Some? ==>
                s.key.value.expiresAt.value == Last(s.log).window + windowSec > Last(s.log).time))
  }

  ghost predicate Sound(s: State, requests: seq<Request>, windowSec: int) {
    Faithful(s.log, requests) && KeyFollowsLog(s, windowSec) && Disjoint(s.log, windowSec)
  }

  lemma {:induction false} NothingArrivedYet(log: seq<Served>, window: int)
    requires forall i :: 0 <= i < |log| ==> log[i].window < window
    ensures Arrived(log, window) == 0
  {
    if log != [] {
      NothingArrivedYet(log[..|log| - 1], window);
    }
  }

  lemma DisjointGrows(log: seq<Served>, requests: seq<Request>, e: Served, windowSec: int)
    requires Disjoint(log, windowSec) && Faithful(log, requests) && windowSec > 0
    requires log != [] ==>
               || e.window == Last(log).window
               || Last(log).time < Last(log).window + windowSec <= e.window
    ensures Disjoint(log + [e], windowSec)
  {
    forall i | 0 <= i < |log|
      ensures || log[i].window == e.window
              || (log[i].time < log[i].window + windowSec <= e.window)
    {
      if i < |log| - 1 && log[i].window != Last(log).window {
        assert log[i].window + windowSec <= log[|log| - 1].window;
      }
    }
  }

  lemma KeyStillFollows(s: State, requests: seq<Request>, r: Request, limit: int, windowSec: int)
    requires windowSec > 0 && KeyFollowsLog(s, windowSec) && Faithful(s.log, requests)
    requires s.log != [] ==> Last(s.log).time <= r.time
    ensures KeyFollowsLog(Serve(s, limit, windowSec, r), windowSec)
  {
    var t := Serve(s, limit, windowSec, r);
    assert t.log[..|s.log|] == s.log;
    if s.log != [] && Live(s.key, r.time).None? {
      NothingArrivedYet(s.log, r.time);
    }
  }

  lemma ServeIsSound(s: State, requests: seq<Request>, r: Request, limit: int, windowSec: int)
    requires windowSec > 0 && Sound(s, requests, windowSec)
    requires requests != [] ==> Last(requests).time <= r.time
    ensures Sound(Serve(s, limit, windowSec, r), requests + [r], windowSec)
  {
    hide Arrived;
    KeyStillFollows(s, requests, r, limit, windowSec);
    DisjointGrows(s.log, requests, Last(Serve(s, limit, windowSec, r).log), windowSec);
  }

  /** For every history: windows are disjoint, and a request is admitted exactly when at most
      `limit` requests, admitted or not, have arrived in its window so far. */
  lemma {:induction false} EveryHistoryIsSound(limit: int, windowSec: int, requests: seq<Request>)
    requires windowSec > 0 && Ordered(requests)
    ensures Sound(Run(limit, windowSec, requests), requests, windowSec)
    decreases |requests|
  {
    if requests != [] {
      var shorter := requests[..|requests| - 1];
      EveryHistoryIsSound(limit, windowSec, shorter);
      assert requests == shorter + [Last(requests)];
      ServeIsSound(Run(limit, windowSec, shorter), shorter, Last(requests), limit, windowSec);
    }
  }

  lemma {:induction false} WindowAdmitsFewest(limit: int, windowSec: int, requests: seq<Request>, window: int)
    requires windowSec > 0 && limit > 0 && Ordered(requests)
    ensures var log := Run(limit, windowSec, requests).log;
            AdmittedIn(log, window) == Min(limit, Arrived(log, window))
    decreases |requests|
  {
    if requests != [] {
      var shorter := requests[..|requests| - 1];
      WindowAdmitsFewest(limit, windowSec, shorter, window);
      EveryHistoryIsSound(limit, windowSec, shorter);
      EveryHistoryIsSound(limit, windowSec, requests);
      var log := Run(limit, windowSec, requests).log;
      assert log[..|log| - 1] == Run(limit, windowSec, shorter).log;
    }
  }

  lemma {:induction false} TwoWindowsCover(log: seq<Served>, from: int, to: int, v: int, w: int)
    requires forall i :: 0 <= i < |log| && from <= log[i].time <= to ==> log[i].window in {v, w}
    ensures AdmittedBetween(log, from, to) <= AdmittedIn(log, v) + AdmittedIn(log, w)
  {
    if log != [] {
      TwoWindowsCover(log[..|log| - 1], from, to, v, w);
    }
  }

  /** Any interval of the window's length meets at most two windows. */
  lemma IntervalMeetsTwoWindows(log: seq<Served>, windowSec: int, from: int) returns (v: int, w: int)
    requires windowSec > 0 && Disjoint(log, windowSec)
    requires forall i :: 0 <= i < |log| ==> log[i].window <= log[i].time
    ensures forall i :: 0 <= i < |log| && from <= log[i].time <= from + windowSec ==> log[i].window in {v, w}
  {
    v, w := from, from;
    if i :| 0 <= i < |log| && from <= log[i].time <= from + windowSec {
      v := log[i].window;
      w := v;
      if j :| 0 <= j < |log| && from <= log[j].time <= from + windowSec && log[j].window != v {
        w := log[j].window;
        forall k | 0 <= k < |log| && from <= log[k].time <= from + windowSec
          ensures log[k].window in {v, w}
        {
        }
      }
    }
  }

  /** The bound a fixed window gives: an interval as long as the window, wherever it lies, admits
      at most twice the limit, whatever EXPIRE does. */
  lemma IntervalAdmitsTwiceTheLimit(limit: int, windowSec: int, requests: seq<Request>, from: int)
    requires windowSec > 0 && limit > 0 && Ordered(requests)
    ensures AdmittedBetween(Run(limit, windowSec, requests).log, from, from + windowSec) <= 2 * limit
  {
    EveryHistoryIsSound(limit, windowSec, requests);
    var log := Run(limit, windowSec, requests).log;
    var v, w := IntervalMeetsTwoWindows(log, windowSec, from);
    TwoWindowsCover(log, from, from + windowSec, v, w);
    WindowAdmitsFewest(limit, windowSec, requests, v);
    WindowAdmitsFewest(limit, windowSec, requests, w);
  }

  function Times(n: nat, time: int): seq<Request> {
    if n == 0 then [] else Times(n - 1, time) + [Request(time, true)]
  }

  /** One request more: it is admitted, and the key counts it. */
  lemma ServedInInterval(limit: int, windowSec: int, requests: seq<Request>, time: int, count: int, expiresAt: int)
    requires windowSec > 0 && 0 <= time <= windowSec && count <= limit
    requires After(Run(limit, windowSec, requests).key, windowSec, time, true) == Counter(count, Some(expiresAt))
    ensures var s := Run(limit, windowSec, requests + [Request(time, true)]);
            && s.key == Some(Counter(count, Some(expiresAt)))
            && AdmittedBetween(s.log, 0, windowSec)
               == AdmittedBetween(Run(limit, windowSec, requests).log, 0, windowSec) + 1
  {
    hide Run, After;
    RunNext(limit, windowSec, requests, Request(time, true));
    var before := Run(limit, windowSec, requests).log;
    var after := Run(limit, windowSec, requests + [Request(time, true)]).log;
    assert after[..|before|] == before;
  }

  lemma {:induction false} StartIsAdmitted(limit: int, windowSec: int, early: nat)
    requires windowSec > 0 && 0 < early <= limit
    ensures var s := Run(limit, windowSec, Times(early, 0));
            && s.key == Some(Counter(early, Some(windowSec)))
            && AdmittedBetween(s.log, 0, windowSec) == early
  {
    if early > 1 {
      StartIsAdmitted(limit, windowSec, early - 1);
    } else {
      assert Times(0, 0) == [];
    }
    ServedInInterval(limit, windowSec, Times(early - 1, 0), 0, early, windowSec);
  }

  lemma {:induction false} EndIsAdmitted(limit: int, windowSec: int, late: nat)
    requires windowSec > 0 && 0 < limit && late <= limit
    ensures var s := Run(limit, windowSec, Times(limit, 0) + Times(late, windowSec));
            && s.key == Some(if late == 0 then Counter(limit, Some(windowSec)) else Counter(late, Some(2 * windowSec)))
            && AdmittedBetween(s.log, 0, windowSec) == limit + late
  {
    hide Run;
    if late == 0 {
      StartIsAdmitted(limit, windowSec, limit);
      assert Times(limit, 0) + Times(0, windowSec) == Times(limit, 0);
    } else {
      EndIsAdmitted(limit, windowSec, late - 1);
      var fewer := Times(limit, 0) + Times(late - 1, windowSec);
      ServedInInterval(limit, windowSec, fewer, windowSec, late, 2 * windowSec);
      assert Times(limit, 0) + Times(late, windowSec) == fewer + [Request(windowSec, true)];
    }
  }

  lemma {:induction false} TimesAre(n: nat, time: int)
    ensures |Times(n, time)| == n && forall i :: 0 <= i < n ==> Times(n, time)[i] == Request(time, true)
  {
    if n > 0 {
      TimesAre(n - 1, time);
    }
  }

  /** The bound is reached, for every limit and window: as many requests as the limit at each end
      of an interval all get in. */
  lemma BoundIsReached(limit: nat, windowSec: int)
    requires windowSec > 0 && limit > 0
    ensures var requests := Times(limit, 0) + Times(limit, windowSec);
            && Ordered(requests)
            && AdmittedBetween(Run(limit, windowSec, requests).log, 0, windowSec) == 2 * limit
  {
    EndIsAdmitted(limit, windowSec, limit);
    TimesAre(limit, 0);
    TimesAre(limit, windowSec);
  }

  // ---- Recovery -----------------------------------------------------------------------------------

  /** A key whose first EXPIRE worked lets the client in again one window after it was opened. */
  lemma WindowReopens(limit: int, windowSec: int, requests: seq<Request>, r: Request)
    requires windowSec > 0 && limit > 0 && Ordered(requests + [r])
    requires requests != []
    requires var s := Run(limit, windowSec, requests);
             s.key.Some? && s.key.value.expiresAt.Some? && Last(s.log).window + windowSec <= r.time
    ensures Last(Run(limit, windowSec, requests + [r]).log).admitted
  {
    assert (requests + [r])[..|requests|] == requests;
    forall i, j | 0 <= i <= j < |requests|
      ensures requests[i].time <= requests[j].time
    {
      assert (requests + [r])[i].time <= (requests + [r])[j].time;
    }
    EveryHistoryIsSound(limit, windowSec, requests);
  }

  /** The request that opened the last window. */
  predicate Opens(log: seq<Served>, k: nat) {
    k < |log| && log[k].number == 1 && log[k].window == Last(log).window
  }

  /** It is the only one, and the key has an expiry exactly when its EXPIRE worked. */
  lemma {:induction false} OpenerDecides(limit: int, windowSec: int, requests: seq<Request>) returns (k: nat)
    requires windowSec > 0 && Ordered(requests) && requests != []
    ensures var s := Run(limit, windowSec, requests);
            && |s.log| == |requests| && s.key.Some?
            && Opens(s.log, k) && (forall i: nat :: Opens(s.log, i) ==> i == k)
            && (s.key.value.expiresAt.Some? <==> requests[k].expires)
    decreases |requests|
  {
    hide Arrived, Disjoint;
    var shorter := requests[..|requests| - 1];
    EveryHistoryIsSound(limit, windowSec, shorter);
    EveryHistoryIsSound(limit, windowSec, requests);
    var before, s := Run(limit, windowSec, shorter), Run(limit, windowSec, requests);
    assert s.log[..|before.log|] == before.log;
    if shorter == [] || Live(before.key, Last(requests).time).None? {
      k := |requests| - 1;
    } else {
      k := OpenerDecides(limit, windowSec, shorter);
      assert forall i: nat :: i < |shorter| ==> (Opens(s.log, i) <==> Opens(before.log, i));
    }
  }

  /** After any history, a request that comes a whole window after the last window was opened is
      admitted exactly when the EXPIRE of the request that opened that window worked, or the window
      has not counted up to the limit. */
  lemma ReopensExactly(limit: int, windowSec: int, requests: seq<Request>, r: Request) returns (k: nat)
    requires windowSec > 0 && limit > 0 && Ordered(requests + [r]) && requests != []
    requires var log := Run(limit, windowSec, requests).log;
             log != [] && Last(log).window + windowSec <= r.time
    ensures var log := Run(limit, windowSec, requests).log;
            && Opens(log, k) && k < |requests|
            && (Last(Run(limit, windowSec, requests + [r]).log).admitted <==>
                  requests[k].expires || Arrived(log, Last(log).window) < limit)
  {
    forall i, j | 0 <= i <= j < |requests|
      ensures requests[i].time <= requests[j].time
    {
      assert (requests + [r])[i].time <= (requests + [r])[j].time;
    }
    EveryHistoryIsSound(limit, windowSec, requests);
    k := OpenerDecides(limit, windowSec, requests);
    RunNext(limit, windowSec, requests, r);
    if requests[k].expires {
      WindowReopens(limit, windowSec, requests, r);
    }
  }

  /** If the EXPIRE of a new key fails, its window never ends: later requests are admitted exactly
      while the key has counted no more than the limit, however much time passes. */
  lemma {:induction false} FailedExpireNeverReopens(
    limit: int, windowSec: int, before: seq<Request>, r: Request, later: seq<Request>)
    requires windowSec > 0 && limit > 0
    requires !r.expires && Live(Run(limit, windowSec, before).key, r.time).None?
    ensures var s := Run(limit, windowSec, before + [r] + later);
            && s.key == Some(Counter(1 + |later|, None))
            && s.log != []
            && (Last(s.log).admitted <==> 1 + |later| <= limit)
    decreases |later|
  {
    var all := before + [r] + later;
    if later == [] {
      assert all[..|all| - 1] == before;
    } else {
      var fewer := later[..|later| - 1];
      FailedExpireNeverReopens(limit, windowSec, before, r, fewer);
      assert all[..|all| - 1] == before + [r] + fewer;
    }
  }
}
