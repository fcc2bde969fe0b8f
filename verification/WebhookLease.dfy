/** The claim/mark protocol that lets several API workers receive the same Stripe event
    (app/routes/billing.py). Every database command filters on the event id, so the row of
    one event id is the whole shared state; each command is one step of the protocol. */
module WebhookLease {
  import opened Common

  datatype Status = Unset | Processing | Processed | Failed

  datatype Event = Event(status: Status, startedAt: int, attempts: nat)

  datatype Outcome = Claimed | AlreadyProcessed | Busy

  // ---- Database commands on the row --------------------------------------------------

  /** The first read: may the caller go on to insert or reclaim? */
  predicate MayTry(row: Option<Event>, now: int, ttl: nat) {
    row.Some? ==>
      && row.value.status != Processed
      && !(row.value.status == Processing && row.value.startedAt > now - ttl)
  }

  /** The filter of the conditional update. */
  predicate Reclaimable(row: Option<Event>, now: int, ttl: nat) {
    && row.Some?
    && (|| row.value.status == Failed
        || (row.value.status == Processing && row.value.startedAt <= now - ttl)
        || row.value.status == Unset)
  }

  function Reclaimed(row: Option<Event>, now: int): Option<Event>
    requires row.Some?
  {
    Some(Event(Processing, now, row.value.attempts + 1))
  }

  function Marked(row: Option<Event>, status: Status): Option<Event> {
    if row.None? then None else Some(row.value.(status := status))
  }

  /** The row of one event id, with the source's claim and mark operations run without
      interference from other workers. */
  class EventRow {
    var row: Option<Event>

    constructor ()
      ensures row == None
    {
      row := None;
    }

    method Claim(now: int, ttl: nat) returns (outcome: Outcome)
      modifies this
      ensures outcome == Claimed <==> old(row).None? || Reclaimable(old(row), now, ttl)
      ensures outcome == AlreadyProcessed <==> old(row).Some? && old(row).value.status == Processed
      ensures row == if outcome != Claimed then old(row)
                     else Some(Event(Processing, now,
                                     if old(row).None? then 1 else old(row).value.attempts + 1))
    {
      var staleBefore := now - ttl;
      if row.Some? {
        if row.value.status == Processed {
          return AlreadyProcessed;
        }
        if row.value.status == Processing && row.value.startedAt > staleBefore {
          return Busy;
        }
      }
      if row.None? {
        row := Some(Event(Processing, now, 1));
        return Claimed;
      }
      if Reclaimable(row, now, ttl) {
        row := Reclaimed(row, now);
        return Claimed;
      }
      return if row.value.status == Processed then AlreadyProcessed else Busy;
    }

    method Mark(status: Status)
      modifies this
      ensures row == Marked(old(row), status)
    {
      if row.Some? {
        row := Some(row.value.(status := status));
      }
    }

    /** The webhook route: claim, handle, mark. `handled` is whether the handler returns. A
        processed event is answered without being handled again, and a failed one is handled. */
    method Deliver(now: int, ttl: nat, handled: bool) returns (outcome: Outcome)
      modifies this
      ensures outcome == Claimed <==> old(row).None? || Reclaimable(old(row), now, ttl)
      ensures outcome == Claimed ==>
                && row.Some? && row.value.status == (if handled then Processed else Failed)
                && row.value.attempts == (if old(row).None? then 1 else old(row).value.attempts + 1)
      ensures outcome != Claimed ==> row == old(row)
    {
      outcome := Claim(now, ttl);
      if outcome == Claimed {
        if handled {
          Mark(Processed);
        } else {
          Mark(Failed);
        }
      }
    }
  }

  // ---- The protocol under interference ------------------------------------------------

  /** Where one delivery of the event is, with the `now` it captured on entry. */
  datatype Worker =
    | Idle
    | Began(now: int)      // `now` captured, row not read yet
    | Cleared(now: int)    // the first read found nothing that forbids a claim
    | Collided(now: int)   // the insert raised
    | Missed(now: int)     // the conditional update matched nothing
    | Holding(now: int)    // claimed; the handler runs and has not marked the event
    | Finished

  /** What happened to the row, in order. */
  datatype Record = Claim(start: int) | MarkedFailed | MarkedProcessed

  datatype State = State(clock: int, row: Option<Event>, workers: seq<Worker>, history: seq<Record>)

  datatype Step =
    | Tick(to: int)
    | Begin(w: nat)
    | Find(w: nat)
    | Insert(w: nat)
    | InsertRaises(w: nat)
    | Reclaim(w: nat)
    | Reread(w: nat)
    | MarkProcessed(w: nat)
    | MarkFailed(w: nat)
    | Crash(w: nat)

  predicate Init(s: State) {
    && s.row == None
    && s.history == []
    && forall w :: 0 <= w < |s.workers| ==> s.workers[w] == Idle
  }

  predicate Holds(s: State, w: int) {
    0 <= w < |s.workers| && s.workers[w].Holding?
  }

  predicate Enabled(s: State, step: Step) {
    match step
    case Tick(to) => s.clock <= to
    case Begin(w) => w < |s.workers| && s.workers[w].Idle?
    case Find(w) => w < |s.workers| && s.workers[w].Began?
    case Insert(w) => w < |s.workers| && s.workers[w].Cleared? && s.row.None?
    case InsertRaises(w) => w < |s.workers| && s.workers[w].Cleared?
    case Reclaim(w) => w < |s.workers| && s.workers[w].Collided?
    case Reread(w) => w < |s.workers| && s.workers[w].Missed?
    case MarkProcessed(w) => Holds(s, w)
    case MarkFailed(w) => Holds(s, w)
    case Crash(w) => w < |s.workers| && !s.workers[w].Idle?
  }

  function After(s: State, step: Step, ttl: nat): State
    requires Enabled(s, step)
  {
    match step
    case Tick(to) => s.(clock := to)
    case Begin(w) => s.(workers := s.workers[w := Began(s.clock)])
    case Find(w) =>
      var now := s.workers[w].now;
      s.(workers := s.workers[w := if MayTry(s.row, now, ttl) then Cleared(now) else Finished])
    case Insert(w) =>
      var now := s.workers[w].now;
      s.(row := Some(Event(Processing, now, 1)),
      workers := s.workers[w := Holding(now)],
      history := s.history + [Claim(now)])
    case InsertRaises(w) => s.(workers := s.workers[w := Collided(s.workers[w].now)])
    case Reclaim(w) =>
      var now := s.workers[w].now;
      if Reclaimable(s.row, now, ttl) then
        s.(row := Reclaimed(s.row, now),
        workers := s.workers[w := Holding(now)],
        history := s.history + [Claim(now)])
      else
        s.(workers := s.workers[w := Missed(now)])
    case Reread(w) => s.(workers := s.workers[w := Finished])
    case MarkProcessed(w) =>
      s.(row := Marked(s.row, Processed),
      workers := s.workers[w := Finished],
      history := s.history + [MarkedProcessed])
    case MarkFailed(w) =>
      s.(row := Marked(s.row, Failed),
      workers := s.workers[w := Finished],
      history := s.history + [MarkedFailed])
    case Crash(w) => s.(workers := s.workers[w := Finished])
  }

  ghost predicate Next(s: State, t: State, ttl: nat) {
    exists step :: Enabled(s, step) && t == After(s, step, ttl)
  }

  ghost predicate Run(run: seq<State>, ttl: nat) {
    && run != []
    && Init(run[0])
    && forall i :: 0 <= i < |run| - 1 ==> Next(run[i], run[i + 1], ttl)
  }

  /** Every worker that holds the event is still within the TTL of the `now` it captured. */
  ghost predicate OnTime(s: State, ttl: nat) {
    forall w :: Holds(s, w) ==> s.clock < s.workers[w].now + ttl
  }

  // ---- What holds of every run ---------------------------------------------------------

  function Claims(history: seq<Record>): nat {
    if history == [] then 0
    else Claims(history[..|history| - 1]) + if Last(history).Claim? then 1 else 0
  }

  function ProcessedMarks(history: seq<Record>): nat {
    if history == [] then 0
    else ProcessedMarks(history[..|history| - 1]) + if Last(history).MarkedProcessed? then 1 else 0
  }

  /** A claim after the first comes directly after a failed mark, or after a claim that started
      a whole TTL earlier and was never marked. */
  predicate ClaimsSeparated(history: seq<Record>, ttl: nat) {
    forall j :: 0 < j < |history| && history[j].Claim? ==>
      || history[j - 1].MarkedFailed?
      || (history[j - 1].Claim? && history[j - 1].start + ttl <= history[j].start)
  }

  /** The row is what the history says it is. */
  predicate RowFollowsHistory(s: State) {
    && (s.history == [] ==> s.row.None?)
    && (s.history != [] ==>
          && s.row.Some?
          && s.row.value.attempts == Claims(s.history)
          && s.history[0].Claim?
          && (Last(s.history).Claim? ==>
                s.row.value.status == Processing && s.row.value.startedAt == Last(s.history).start)
          && (Last(s.history).MarkedFailed? ==> s.row.value.status == Failed)
          && (Last(s.history).MarkedProcessed? ==> s.row.value.status == Processed))
  }

  ghost predicate Untimed(s: State, ttl: nat) {
    && RowFollowsHistory(s)
    && ClaimsSeparated(s.history, ttl)
    && forall w :: Holds(s, w) ==> s.history != []
  }

  lemma UntimedStep(s: State, step: Step, ttl: nat)
    requires Untimed(s, ttl) && Enabled(s, step)
    ensures Untimed(After(s, step, ttl), ttl)
  {
    var t := After(s, step, ttl);
    assert t.history != s.history ==> t.history[..|t.history| - 1] == s.history;
    assert forall w :: Holds(t, w) ==> Holds(s, w) || t.history != [];
  }

  /** With no assumption on timing: `attempt_count` counts the successful claims, and two
      consecutive claims are separated by a failed mark or by a whole TTL. */
  lemma {:induction false} EveryRunSeparatesClaims(run: seq<State>, i: nat, ttl: nat)
    requires Run(run, ttl) && i < |run|
    ensures Untimed(run[i], ttl)
  {
    if i > 0 {
      EveryRunSeparatesClaims(run, i - 1, ttl);
      assert Next(run[i - 1], run[i - 1 + 1], ttl);
      var step :| Enabled(run[i - 1], step) && run[i] == After(run[i - 1], step, ttl);
      UntimedStep(run[i - 1], step, ttl);
    }
  }

  // ---- What holds when workers are on time -----------------------------------------------

  /** At most one worker holds the event, and the row is its claim. */
  ghost predicate Held(s: State) {
    && (forall v, w :: Holds(s, v) && Holds(s, w) ==> v == w)
    && (forall w :: Holds(s, w) ==>
          s.row.Some? && s.row.value.status == Processing && s.row.value.startedAt == s.workers[w].now)
    && Started(s)
  }

  ghost predicate Started(s: State) {
    forall w :: 0 <= w < |s.workers| && !s.workers[w].Idle? && !s.workers[w].Finished? ==>
      s.workers[w].now <= s.clock
  }

  ghost predicate Exclusive(s: State) {
    && Held(s)
    && ProcessedMarks(s.history) ==
       (if s.row.Some? && s.row.value.status == Processed then 1 else 0)
  }

  lemma StartedStep(s: State, step: Step, ttl: nat)
    requires Started(s) && Enabled(s, step)
    ensures Started(After(s, step, ttl))
  {
  }

  lemma HeldStep(s: State, step: Step, ttl: nat)
    requires Held(s) && OnTime(s, ttl) && Enabled(s, step)
    ensures Held(After(s, step, ttl))
    ensures s.row.Some? && s.row.value.status == Processed ==> After(s, step, ttl).row == s.row
  {
    var t := After(s, step, ttl);
    StartedStep(s, step, ttl);
    assert step.Reclaim? ==> s.workers[step.w].now <= s.clock;
    hide Started;
    forall w | Holds(t, w) && Holds(s, w)
      ensures t.row == s.row
    {
      assert s.clock < s.workers[w].now + ttl;
    }
    assert forall w :: Holds(t, w) && !Holds(s, w) ==> step == Insert(w) || step == Reclaim(w);
  }

  lemma ExclusiveStep(s: State, step: Step, ttl: nat)
    requires Exclusive(s) && OnTime(s, ttl) && Enabled(s, step)
    ensures Exclusive(After(s, step, ttl))
    ensures s.row.Some? && s.row.value.status == Processed ==> After(s, step, ttl).row == s.row
  {
    HeldStep(s, step, ttl);
    var t := After(s, step, ttl);
    if t.history != s.history {
      assert t.history[..|t.history| - 1] == s.history;
    }
  }

  /** If every worker marks its event within the TTL of the `now` it captured, at most one
      worker is between claim and mark, and the event is marked processed at most once. */
  lemma {:induction false} OnTimeRunIsExclusive(run: seq<State>, i: nat, ttl: nat)
    requires Run(run, ttl) && i < |run|
    requires forall k :: 0 <= k < |run| ==> OnTime(run[k], ttl)
    ensures Exclusive(run[i])
    ensures ProcessedMarks(run[i].history) <= 1
  {
    if i > 0 {
      OnTimeRunIsExclusive(run, i - 1, ttl);
      assert Next(run[i - 1], run[i - 1 + 1], ttl);
      var step :| Enabled(run[i - 1], step) && run[i] == After(run[i - 1], step, ttl);
      ExclusiveStep(run[i - 1], step, ttl);
    }
  }

  /** Under the same assumption a processed row never changes again. */
  lemma {:induction false} ProcessedIsAbsorbing(run: seq<State>, i: nat, j: nat, ttl: nat)
    requires Run(run, ttl) && i <= j < |run|
    requires forall k :: 0 <= k < |run| ==> OnTime(run[k], ttl)
    requires run[i].row.Some? && run[i].row.value.status == Processed
    ensures run[j].row == run[i].row
  {
    hide After, Enabled, Exclusive, OnTime, Init;
    if i < j {
      ProcessedIsAbsorbing(run, i, j - 1, ttl);
      OnTimeRunIsExclusive(run, j - 1, ttl);
      assert Next(run[j - 1], run[j - 1 + 1], ttl);
      var step :| Enabled(run[j - 1], step) && run[j] == After(run[j - 1], step, ttl);
      ExclusiveStep(run[j - 1], step, ttl);
    }
  }

  /** One delivery run from entry to its last claim step with nobody else moving. */
  function Undisturbed(s: State, w: nat, ttl: nat): State
    requires w < |s.workers| && s.workers[w].Idle?
  {
    var read := After(After(s, Begin(w), ttl), Find(w), ttl);
    if read.workers[w].Finished? then read
    else if read.row.None? then After(read, Insert(w), ttl)
    else After(After(read, InsertRaises(w), ttl), Reclaim(w), ttl)
  }

  /** The protocol's steps, taken together, decide and write what `EventRow.Claim` does; the
      conditional update can only miss when another worker moved in between. */
  lemma UndisturbedDeliveryIsClaim(s: State, w: nat, ttl: nat)
    requires w < |s.workers| && s.workers[w].Idle?
    ensures var t := Undisturbed(s, w, ttl);
            var claims := s.row.None? || Reclaimable(s.row, s.clock, ttl);
            && (Holds(t, w) <==> claims)
            && !t.workers[w].Missed?
            && t.row == (if !claims then s.row
                         else Some(Event(Processing, s.clock,
                                         if s.row.None? then 1 else s.row.value.attempts + 1)))
  {
    assert s.row.Some? ==> (MayTry(s.row, s.clock, ttl) <==> Reclaimable(s.row, s.clock, ttl));
  }

  // ---- How long a handler may take ----------------------------------------------------------

  /** Every worker that holds the event has held it for less than `d`. */
  ghost predicate Within(s: State, d: nat) {
    forall w :: Holds(s, w) ==> s.clock < s.workers[w].now + d
  }

  ghost predicate AlwaysWithin(run: seq<State>, d: nat) {
    forall k :: 0 <= k < |run| ==> Within(run[k], d)
  }

  ghost predicate ProcessedStays(run: seq<State>) {
    forall i, j :: 0 <= i <= j < |run| && run[i].row.Some? && run[i].row.value.status == Processed ==>
      run[j].row == run[i].row
  }

  ghost predicate OneHolder(s: State) {
    forall v, w :: Holds(s, v) && Holds(s, w) ==> v == w
  }

  lemma Extend(run: seq<State>, s: State, step: Step, ttl: nat, d: nat) returns (longer: seq<State>, t: State)
    requires Run(run, ttl) && AlwaysWithin(run, d)
    requires s == Last(run) && Enabled(s, step) && Within(After(s, step, ttl), d)
    ensures t == After(s, step, ttl) && longer == run + [t]
    ensures Run(longer, ttl) && AlwaysWithin(longer, d)
  {
    t := After(s, step, ttl);
    longer := run + [t];
    assert Next(s, t, ttl);
    forall i | 0 <= i < |longer| - 1
      ensures Next(longer[i], longer[i + 1], ttl)
    {
      if i < |run| - 1 {
        assert Next(run[i], run[i + 1], ttl);
      }
    }
  }

  lemma FirstWorkerClaims(ttl: nat, d: nat) returns (run: seq<State>, s: State)
    requires 0 < d
    ensures Run(run, ttl) && AlwaysWithin(run, d) && s == Last(run)
    ensures s == State(0, Some(Event(Processing, 0, 1)), [Holding(0), Idle], [Claim(0)])
  {
    s := State(0, None, [Idle, Idle], []);
    run := [s];
    assert Run(run, ttl) && AlwaysWithin(run, d);
    hide Run, AlwaysWithin;
    run, s := Extend(run, s, Begin(0), ttl, d);
    run, s := Extend(run, s, Find(0), ttl, d);
    run, s := Extend(run, s, Insert(0), ttl, d);
  }

  /** A handler that may run longer than the TTL lets a second worker in. */
  lemma LateWorkerSharesEvent(ttl: nat, d: nat) returns (run: seq<State>, s: State)
    requires ttl < d
    ensures Run(run, ttl) && AlwaysWithin(run, d) && s == Last(run)
    ensures s.clock == ttl && s.workers == [Holding(0), Holding(ttl)]
    ensures s.row.Some? && s.row.value.status == Processing
  {
    run, s := FirstWorkerClaims(ttl, d);
    hide Run, AlwaysWithin;
    run, s := Extend(run, s, Tick(ttl), ttl, d);
    run, s := Extend(run, s, Begin(1), ttl, d);
    run, s := Extend(run, s, Find(1), ttl, d);
    run, s := Extend(run, s, InsertRaises(1), ttl, d);
    run, s := Extend(run, s, Reclaim(1), ttl, d);
  }

  /** Two workers then hold the event at once, and the late one undoes what the other did: the row
      goes from processed back to failed, ready to be handled again. */
  lemma LateWorkerUndoesProcessed(ttl: nat, d: nat) returns (run: seq<State>, h: nat, i: nat, j: nat)
    requires ttl < d
    ensures Run(run, ttl) && AlwaysWithin(run, d)
    ensures h < i < j < |run|
    ensures Holds(run[h], 0) && Holds(run[h], 1)
    ensures run[i].row.Some? && run[i].row.value.status == Processed
    ensures run[j].row.Some? && run[j].row.value.status == Failed
    ensures Reclaimable(run[j].row, run[j].clock, ttl)
  {
    var s: State;
    run, s := LateWorkerSharesEvent(ttl, d);
    hide Run, AlwaysWithin;
    h := |run| - 1;
    run, s := Extend(run, s, MarkProcessed(1), ttl, d);
    i := |run| - 1;
    run, s := Extend(run, s, MarkFailed(0), ttl, d);
    j := |run| - 1;
  }

  lemma WithinTtlIsOnTime(run: seq<State>, ttl: nat, d: nat)
    requires AlwaysWithin(run, d) && d <= ttl
    ensures forall k :: 0 <= k < |run| ==> OnTime(run[k], ttl)
  {
    forall k | 0 <= k < |run|
      ensures OnTime(run[k], ttl)
    {
      assert Within(run[k], d);
    }
  }

  /** With handlers that take less than `d`, a processed event stays processed in every run exactly
      when `d` is no more than the TTL. */
  lemma ProcessedStaysExactly(ttl: nat, d: nat)
    ensures (forall run: seq<State> :: Run(run, ttl) && AlwaysWithin(run, d) ==> ProcessedStays(run)) <==> d <= ttl
  {
    if d <= ttl {
      forall run: seq<State> | Run(run, ttl) && AlwaysWithin(run, d)
        ensures ProcessedStays(run)
      {
        WithinTtlIsOnTime(run, ttl, d);
        forall i, j | 0 <= i <= j < |run| && run[i].row.Some? && run[i].row.value.status == Processed
          ensures run[j].row == run[i].row
        {
          ProcessedIsAbsorbing(run, i, j, ttl);
        }
      }
    } else {
      var run, h, i, j := LateWorkerUndoesProcessed(ttl, d);
      assert !ProcessedStays(run);
    }
  }

  /** Nor do two workers ever hold the event at once, exactly under the same condition. */
  lemma OneHolderExactly(ttl: nat, d: nat)
    ensures (forall run: seq<State> :: Run(run, ttl) && AlwaysWithin(run, d) ==>
               forall i :: 0 <= i < |run| ==> OneHolder(run[i])) <==> d <= ttl
  {
    if d <= ttl {
      forall run: seq<State> | Run(run, ttl) && AlwaysWithin(run, d)
        ensures forall i :: 0 <= i < |run| ==> OneHolder(run[i])
      {
        WithinTtlIsOnTime(run, ttl, d);
        forall i | 0 <= i < |run|
          ensures OneHolder(run[i])
        {
          OnTimeRunIsExclusive(run, i, ttl);
        }
      }
    } else {
      var run, h, i, j := LateWorkerUndoesProcessed(ttl, d);
      assert !OneHolder(run[h]);
    }
  }
}
