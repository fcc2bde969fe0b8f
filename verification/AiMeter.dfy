/** The monthly AI-conversation meter (app/services/entitlements.py): the set of leads of one
    tenant and month, checked and then recorded by concurrent workers. */
module AiMeter {
  import opened Common

  type LeadId = int

  /** The check as one read of the set. */
  predicate Allowed(members: set<LeadId>, lead: LeadId, limit: int) {
    limit < 0 || (limit != 0 && (lead in members || |members| < limit))
  }

  class Meter {
    var members: set<LeadId>

    constructor ()
      ensures members == {}
    {
      members := {};
    }

    /** `up` is whether Redis answers; when it does not, every limited plan lets the lead through. */
    method AiConversationAllowed(lead: LeadId, limit: int, up: bool) returns (allowed: bool)
      ensures allowed == if up then Allowed(members, lead, limit) else limit != 0
    {
      if limit < 0 {
        return true;
      }
      if limit == 0 {
        return false;
      }
      if !up || lead in members {
        return true;
      }
      return |members| < limit;
    }

    method RecordAiConversation(lead: LeadId, up: bool)
      modifies this
      ensures members == if up then old(members) + {lead} else old(members)
    {
      if up {
        members := members + {lead};
      }
    }
  }

  // ---- Concurrent workers -----------------------------------------------------------------------

  /** The check makes two reads: is the lead a member, and how many members are there. */
  datatype Worker = Idle | NotMember(lead: LeadId) | Passed(lead: LeadId)

  datatype State = State(members: set<LeadId>, workers: seq<Worker>)

  datatype Step =
    | AskMember(w: nat, lead: LeadId)
    | AskSize(w: nat)
    | Record(w: nat)
    | Abandon(w: nat)

  predicate Enabled(s: State, step: Step) {
    && step.w < |s.workers|
    && match step
       case AskMember(w, _) => s.workers[w].Idle?
       case AskSize(w) => s.workers[w].NotMember?
       case Record(w) => s.workers[w].Passed?
       case Abandon(w) => s.workers[w].Passed?
  }

  function After(s: State, step: Step, limit: int): State
    requires Enabled(s, step)
  {
    match step
    case AskMember(w, lead) =>
      s.(workers := s.workers[w := if lead in s.members then Passed(lead) else NotMember(lead)])
    case AskSize(w) =>
      s.(workers := s.workers[w := if |s.members| < limit then Passed(s.workers[w].lead) else Idle])
    case Record(w) => State(s.members + {s.workers[w].lead}, s.workers[w := Idle])
    case Abandon(w) => s.(workers := s.workers[w := Idle])
  }

  ghost predicate Next(s: State, t: State, limit: int) {
    exists step :: Enabled(s, step) && t == After(s, step, limit)
  }

  ghost predicate Run(run: seq<State>, limit: int) {
    && run != []
    && run[0].members == {}
    && (forall w :: 0 <= w < |run[0].workers| ==> run[0].workers[w] == Idle)
    && forall i :: 0 <= i < |run| - 1 ==> Next(run[i], run[i + 1], limit)
  }

  /** How many workers are between a passed check and the record. */
  function InFlight(workers: seq<Worker>): nat {
    if workers == [] then 0
    else InFlight(workers[..|workers| - 1]) + if Last(workers).Passed? then 1 else 0
  }

  /** The leads those workers will record. */
  function Pending(workers: seq<Worker>): (leads: set<LeadId>)
    ensures forall w :: 0 <= w < |workers| && workers[w].Passed? ==> workers[w].lead in leads
    ensures |leads| <= InFlight(workers)
  {
    if workers == [] then {}
    else Pending(workers[..|workers| - 1]) + if Last(workers).Passed? then {Last(workers).lead} else {}
  }

  lemma {:induction false} PendingIsPassed(workers: seq<Worker>, lead: LeadId) returns (w: nat)
    requires lead in Pending(workers)
    ensures w < |workers| && workers[w] == Passed(lead)
  {
    w := |workers| - 1;
    if workers[w] != Passed(lead) {
      w := PendingIsPassed(workers[..w], lead);
    }
  }

  /** A worker that moves changes what is pending by its own lead only. */
  lemma PendingAfter(workers: seq<Worker>, w: nat, now: Worker)
    requires w < |workers|
    ensures Pending(workers[w := now]) <= Pending(workers) + (if now.Passed? then {now.lead} else {})
  {
    hide Pending;
    var moved := workers[w := now];
    var leads := Pending(workers) + (if now.Passed? then {now.lead} else {});
    forall lead | lead in Pending(moved)
      ensures lead in leads
    {
      var v := PendingIsPassed(moved, lead);
      assert v != w ==> workers[v] == Passed(lead);
    }
  }

  ghost predicate Bounded(s: State, limit: int, k: nat) {
    |s.members + Pending(s.workers)| <= limit + k - 1
  }

  lemma SubsetIsNoLarger(a: set<LeadId>, b: set<LeadId>)
    requires a <= b
    ensures |a| <= |b|
  {
    assert |b| == |a| + |b - a| by {
      assert b == a + (b - a);
    }
  }

  lemma StepKeepsBound(s: State, step: Step, limit: int, k: nat)
    requires Enabled(s, step) && Bounded(s, limit, k)
    requires InFlight(After(s, step, limit).workers) <= k
    ensures Bounded(After(s, step, limit), limit, k)
  {
    var t := After(s, step, limit);
    PendingAfter(s.workers, step.w, t.workers[step.w]);
    var pending := Pending(t.workers);
    if step.AskSize? && t.workers[step.w].Passed? {
      assert |t.members + pending| <= |t.members| + |pending|;
    } else {
      SubsetIsNoLarger(t.members + pending, s.members + Pending(s.workers));
    }
  }

  lemma {:induction false} NothingPending(workers: seq<Worker>)
    requires forall w :: 0 <= w < |workers| ==> workers[w] == Idle
    ensures Pending(workers) == {}
  {
    if workers != [] {
      NothingPending(workers[..|workers| - 1]);
    }
  }

  /** With a limit of at least one and at most `k` workers between check and record, the month
      never counts more than limit + k - 1 leads; a sequential meter never exceeds its limit. */
  lemma {:induction false} MeterIsBounded(run: seq<State>, i: nat, limit: int, k: nat)
    requires limit >= 1 && k >= 1 && Run(run, limit) && i < |run|
    requires forall j :: 0 <= j < |run| ==> InFlight(run[j].workers) <= k
    ensures Bounded(run[i], limit, k)
    ensures |run[i].members| <= limit + k - 1
  {
    if i == 0 {
      NothingPending(run[0].workers);
    } else {
      MeterIsBounded(run, i - 1, limit, k);
      assert Next(run[i - 1], run[i - 1 + 1], limit);
      var step :| Enabled(run[i - 1], step) && run[i] == After(run[i - 1], step, limit);
      StepKeepsBound(run[i - 1], step, limit, k);
    }
    SubsetIsNoLarger(run[i].members, run[i].members + Pending(run[i].workers));
  }

  lemma {:induction false} MembersOnlyGrow(run: seq<State>, i: nat, j: nat, limit: int)
    requires Run(run, limit) && i <= j < |run|
    ensures run[i].members <= run[j].members
  {
    if i < j {
      MembersOnlyGrow(run, i, j - 1, limit);
      assert Next(run[j - 1], run[j - 1 + 1], limit);
    }
  }

  /** A lead that has been counted is allowed for the rest of every run, whoever else is counted in
      between, and counting it again changes nothing. On a plan without conversations nobody is
      allowed, not even a counted lead. */
  lemma CountedLeadStaysAllowed(run: seq<State>, i: nat, j: nat, lead: LeadId, limit: int)
    requires Run(run, limit) && i <= j < |run| && lead in run[i].members
    ensures Allowed(run[j].members, lead, limit) <==> limit != 0
    ensures run[j].members + {lead} == run[j].members
  {
    MembersOnlyGrow(run, i, j, limit);
  }

  // ---- One worker on its own ----------------------------------------------------------------------

  /** The check with nobody else moving. */
  function Checked(s: State, w: nat, lead: LeadId, limit: int): State
    requires w < |s.workers| && s.workers[w].Idle?
  {
    var asked := After(s, AskMember(w, lead), limit);
    if asked.workers[w].NotMember? then After(asked, AskSize(w), limit) else asked
  }

  /** On a limited plan the steps of a worker decide what `AiConversationAllowed` does, and then
      write what `RecordAiConversation` does. */
  lemma UndisturbedCheckIsAllowed(s: State, w: nat, lead: LeadId, limit: int)
    requires w < |s.workers| && s.workers[w].Idle? && limit >= 1
    ensures var t := Checked(s, w, lead, limit);
            && t.members == s.members && |t.workers| == |s.workers|
            && t.workers[w] == (if Allowed(s.members, lead, limit) then Passed(lead) else Idle)
            && (t.workers[w].Passed? ==> After(t, Record(w), limit) == s.(members := s.members + {lead}))
  {
    assert s.workers[w := Idle] == s.workers;
  }

  // ---- The bound is reached -----------------------------------------------------------------------

  lemma Extend(run: seq<State>, s: State, step: Step, limit: int) returns (longer: seq<State>, t: State)
    requires Run(run, limit) && s == Last(run) && Enabled(s, step)
    ensures t == After(s, step, limit)
    ensures Run(longer, limit) && t == Last(longer) && longer[0] == run[0]
  {
    t := After(s, step, limit);
    longer := run + [t];
    assert Next(s, t, limit);
  }

  function Leads(n: nat): (leads: set<LeadId>)
    ensures |leads| == n
    ensures forall lead :: lead in leads <==> 0 <= lead < n
  {
    if n == 0 then {} else Leads(n - 1) + {n - 1}
  }

  function Idlers(k: nat): seq<Worker> {
    seq(k, _ => Idle)
  }

  /** One worker counts leads up to one short of the limit. */
  lemma {:induction false} CountUpTo(n: nat, limit: int, k: nat) returns (run: seq<State>, s: State)
    requires n < limit && k >= 1
    ensures Run(run, limit) && run[0].workers == Idlers(k)
    ensures s == Last(run) && s == State(Leads(n), Idlers(k))
  {
    if n == 0 {
      s := State({}, Idlers(k));
      run := [s];
    } else {
      run, s := CountUpTo(n - 1, limit, k);
      hide Run;
      run, s := Extend(run, s, AskMember(0, n - 1), limit);
      run, s := Extend(run, s, AskSize(0), limit);
      run, s := Extend(run, s, Record(0), limit);
      assert s.workers == Idlers(k);
    }
  }

  /** Then `w` workers pass the check for one new lead each. */
  lemma {:induction false} AllPass(w: nat, limit: int, k: nat) returns (run: seq<State>, s: State)
    requires limit >= 1 && w <= k && k >= 1
    ensures Run(run, limit) && run[0].workers == Idlers(k)
    ensures s == Last(run) && s.members == Leads(limit - 1) && |s.workers| == k
    ensures forall v :: 0 <= v < k ==> s.workers[v] == if v < w then Passed(limit - 1 + v) else Idle
  {
    if w == 0 {
      run, s := CountUpTo(limit - 1, limit, k);
    } else {
      run, s := AllPass(w - 1, limit, k);
      hide Run;
      run, s := Extend(run, s, AskMember(w - 1, limit - 1 + (w - 1)), limit);
      run, s := Extend(run, s, AskSize(w - 1), limit);
    }
  }

  /** And then they record. */
  lemma {:induction false} AllRecord(w: nat, limit: int, k: nat) returns (run: seq<State>, s: State)
    requires limit >= 1 && w <= k && k >= 1
    ensures Run(run, limit) && run[0].workers == Idlers(k)
    ensures s == Last(run) && s.members == Leads(limit - 1 + w) && |s.workers| == k
    ensures forall v :: w <= v < k ==> s.workers[v] == Passed(limit - 1 + v)
  {
    if w == 0 {
      run, s := AllPass(k, limit, k);
    } else {
      run, s := AllRecord(w - 1, limit, k);
      hide Run;
      run, s := Extend(run, s, Record(w - 1), limit);
    }
  }

  /** For every limit and every number of workers some run reaches the bound: each of the workers
      checks before any of them records. */
  lemma WorkersOvershoot(limit: int, k: nat) returns (run: seq<State>)
    requires limit >= 1 && k >= 1
    ensures Run(run, limit) && |run[0].workers| == k
    ensures |Last(run).members| == limit + k - 1
  {
    var s: State;
    run, s := AllRecord(k, limit, k);
  }
}
