/** CSV lead import (app/services/lead_import.py): nested batch and row loops with a per-batch
    lookup cache, proved equal to importing one row at a time. */
module LeadImport {
  import opened Common

  datatype Policy = SkipExisting | UpdateExisting | FailExisting

  /** One tenant's lead document; its phone is its key in the store. */
  datatype Lead = Lead(
    name: string,
    email: Option<string>,
    company: Option<string>,
    source: string,
    tags: seq<string>,
    score: int,
    blacklisted: bool,
    aiPaused: bool,
    consent: Consent,
    consentSource: Option<string>,
    consentAt: Option<int>,
    consentUpdatedAt: Option<int>,
    consentProof: Option<string>,
    optedOutAt: Option<int>,
    optOutReason: Option<string>,
    createdAt: int,
    updatedAt: int)

  type Leads = map<string, Lead>

  /** The consent_status cell after lower-casing. */
  datatype ConsentText = Blank | Known(status: Consent) | Unrecognised(text: string)

  /** A data row as read, its values stripped. */
  datatype Row = Row(
    phone: string,
    email: string,
    name: string,
    company: string,
    source: string,
    tags: string,
    consentStatus: ConsentText,
    consentSource: string,
    consentAt: string)

  datatype Problem =
    | InvalidPhone
    | DuplicateInFile
    | InvalidEmail
    | InvalidConsentStatus(text: string)
    | OptInWithoutEvidence
    | LeadAlreadyExists

  datatype ImportError = ImportError(row: nat, problem: Problem)

  /** What the import does not decide itself: phone, email, date and tag syntax, lead scoring,
      and the clock readings (`now` once, `clock` once per row). */
  datatype Env = Env(
    phone: string -> Option<string>,
    validEmail: string -> bool,
    time: string -> Option<int>,
    tags: string -> seq<string>,
    rescore: Lead -> int,
    now: int,
    clock: nat -> int,
    maxErrors: int)

  function Clip(s: string, n: nat): (clipped: string)
    ensures clipped <= s && |clipped| == Min(|s|, n)
  {
    if |s| <= n then s else s[..n]
  }

  // ---- One row ------------------------------------------------------------------------------

  datatype ConsentFields =
    | OptIn(source: string, at: int, updatedAt: int)
    | OptOut(source: string, updatedAt: int, outAt: int)
    | Neutral(status: Consent, neutralSource: Option<string>, neutralAt: Option<int>)

  datatype Result<T> = Ok(value: T) | Err(problem: Problem)

  /** Never an opt-in without evidence. */
  function ConsentFromRow(env: Env, row: Row, at: nat): (r: Result<ConsentFields>)
    ensures r.Ok? && r.value.OptIn? ==>
              row.consentSource != "" && env.time(row.consentAt) == Some(r.value.at)
  {
    var source := Clip(row.consentSource, 40);
    var time := env.time(row.consentAt);
    if row.consentStatus.Unrecognised? then Err(InvalidConsentStatus(row.consentStatus.text))
    else
      match if row.consentStatus.Known? then row.consentStatus.status else NoConsent
      case OptedIn =>
        if source == "" || time.None? then Err(OptInWithoutEvidence)
        else Ok(OptIn(source, time.value, env.clock(at)))
      case OptedOut =>
        Ok(OptOut(if source == "" then "import" else source, env.clock(at), Or(time, env.clock(at))))
      case PendingConsent => Ok(Neutral(PendingConsent, if source == "" then None else Some(source), time))
      case NoConsent => Ok(Neutral(NoConsent, if source == "" then None else Some(source), None))
  }

  function NewStatus(f: ConsentFields): Consent {
    match f
    case OptIn(_, _, _) => OptedIn
    case OptOut(_, _, _) => OptedOut
    case Neutral(status, _, _) => status
  }

  function SetConsent(lead: Lead, f: ConsentFields): Lead {
    match f
    case OptIn(source, at, updatedAt) =>
      lead.(consent := OptedIn, consentSource := Some(source), consentAt := Some(at),
      consentUpdatedAt := Some(updatedAt), optedOutAt := None, optOutReason := None, blacklisted := false)
    case OptOut(source, updatedAt, outAt) =>
      lead.(consent := OptedOut, consentSource := Some(source), consentUpdatedAt := Some(updatedAt),
      optedOutAt := Some(outAt), optOutReason := Some("import"), blacklisted := true, aiPaused := true)
    case Neutral(status, source, at) =>
      lead.(consent := status, consentSource := source, consentAt := at, consentUpdatedAt := None,
      consentProof := None, optedOutAt := None, optOutReason := None)
  }

  /** May an import overwrite the consent of an existing lead? */
  predicate MaySetConsent(existing: Lead, f: ConsentFields) {
    && !(existing.consent == OptedOut && NewStatus(f) != OptedOut)
    && !(existing.blacklisted && NewStatus(f) == OptedIn)
    && !(NewStatus(f) == NoConsent && existing.consent != NoConsent)
  }

  function NameOf(row: Row, phone: string): string {
    if row.name == "" then phone else Clip(row.name, 100)
  }

  function SourceOf(row: Row): string {
    if row.source == "" then "import" else Clip(row.source, 100)
  }

  /** The document after the update and the score that is recalculated from it. */
  function Updated(env: Env, existing: Lead, row: Row, phone: string, f: ConsentFields): Lead {
    var described := existing.(
                     name := NameOf(row, phone),
                     updatedAt := env.now,
                     source := SourceOf(row),
                     email := if row.email == "" then existing.email else Some(row.email),
                     company := if row.company == "" then existing.company else Some(Clip(row.company, 100)),
                     tags := if env.tags(row.tags) == [] then existing.tags else env.tags(row.tags));
    var lead := if MaySetConsent(existing, f) then SetConsent(described, f) else described;
    lead.(score := env.rescore(lead))
  }

  function Created(env: Env, row: Row, phone: string, f: ConsentFields): Lead {
    SetConsent(
      Lead(NameOf(row, phone),
           if row.email == "" then None else Some(row.email),
           if row.company == "" then None else Some(Clip(row.company, 100)),
           SourceOf(row), env.tags(row.tags), 0, false, false,
           NoConsent, None, None, None, None, None, None, env.now, env.now), f)
  }

  /** What one row with a fresh, valid phone comes to. */
  datatype Verdict = Reject(problem: Problem) | Skip | Write(lead: Lead, isNew: bool)

  function Judge(env: Env, policy: Policy, row: Row, at: nat, phone: string, existing: Option<Lead>): Verdict {
    if row.email != "" && !env.validEmail(row.email) then Reject(InvalidEmail)
    else
      var consent := ConsentFromRow(env, row, at);
      if consent.Err? then Reject(consent.problem)
      else if existing.None? then Write(Created(env, row, phone, consent.value), true)
      else
        match policy
        case SkipExisting => Skip
        case FailExisting => Reject(LeadAlreadyExists)
        case UpdateExisting => Write(Updated(env, existing.value, row, phone, consent.value), false)
  }

  // ---- The reference import: one row at a time -------------------------------------------------

  datatype Stored = Stored(created: int, updated: int)

  datatype Unstored = Unstored(skipped: int, failed: int)

  datatype Tally = Tally(stored: Stored, unstored: Unstored, errors: seq<ImportError>)

  datatype State = State(leads: Leads, seen: set<string>, tally: Tally)

  function Log(env: Env, errors: seq<ImportError>, row: nat, problem: Problem): seq<ImportError> {
    if |errors| < Max(1, env.maxErrors) then errors + [ImportError(row, problem)] else errors
  }

  function Total(t: Tally): int {
    t.stored.created + t.stored.updated + t.unstored.skipped + t.unstored.failed
  }

  /** What a row is counted as; a duplicate within the file is a skip that is also reported. */
  datatype Entry = AsFailed(problem: Problem) | AsDuplicate | AsSkipped | AsCreated | AsUpdated

  function Count(env: Env, t: Tally, row: nat, entry: Entry): (u: Tally)
    ensures Total(u) == Total(t) + 1
    ensures |t.errors| <= Max(1, env.maxErrors) ==> |u.errors| <= Max(1, env.maxErrors)
  {
    var Tally(Stored(created, updated), Unstored(skipped, failed), errors) := t;
    match entry
    case AsFailed(problem) => Tally(t.stored, Unstored(skipped, failed + 1), Log(env, errors, row, problem))
    case AsDuplicate => Tally(t.stored, Unstored(skipped + 1, failed), Log(env, errors, row, DuplicateInFile))
    case AsSkipped => Tally(t.stored, Unstored(skipped + 1, failed), errors)
    case AsCreated => Tally(Stored(created + 1, updated), t.unstored, errors)
    case AsUpdated => Tally(Stored(created, updated + 1), t.unstored, errors)
  }

  function Lookup(leads: Leads, phone: string): Option<Lead> {
    if phone in leads then Some(leads[phone]) else None
  }

  function EntryOf(verdict: Verdict): Entry {
    match verdict
    case Reject(problem) => AsFailed(problem)
    case Skip => AsSkipped
    case Write(_, isNew) => if isNew then AsCreated else AsUpdated
  }

  function ImportRow(env: Env, policy: Policy, s: State, row: Row, at: nat): State {
    var number := at + 2;
    var phone := env.phone(row.phone);
    if phone.None? then s.(tally := Count(env, s.tally, number, AsFailed(InvalidPhone)))
    else if phone.value in s.seen then s.(tally := Count(env, s.tally, number, AsDuplicate))
    else
      var p := phone.value;
      var verdict := Judge(env, policy, row, at, p, Lookup(s.leads, p));
      State(if verdict.Write? then s.leads[p := verdict.lead] else s.leads,
            s.seen + {p},
            Count(env, s.tally, number, EntryOf(verdict)))
  }

  function Import0(leads: Leads): State {
    State(leads, {}, Tally(Stored(0, 0), Unstored(0, 0), []))
  }

  function Import(env: Env, policy: Policy, leads: Leads, rows: seq<Row>): State
    decreases |rows|
  {
    if rows == [] then Import0(leads)
    else ImportRow(env, policy, Import(env, policy, leads, rows[..|rows| - 1]), Last(rows), |rows| - 1)
  }

  // ---- The batched import ------------------------------------------------------------------------

  lemma ImportNext(env: Env, policy: Policy, leads: Leads, rows: seq<Row>, k: nat)
    requires k < |rows|
    ensures Import(env, policy, leads, rows[..k + 1])
         == ImportRow(env, policy, Import(env, policy, leads, rows[..k]), rows[k], k)
  {
    assert rows[..k + 1][..k] == rows[..k];
  }

  /** A row touches only the lead of its own phone, which is then seen. */
  lemma RowWritesSeenPhones(env: Env, policy: Policy, s: State, row: Row, at: nat)
    ensures var t := ImportRow(env, policy, s, row, at);
            && s.seen <= t.seen
            && forall p :: p !in t.seen ==> Lookup(t.leads, p) == Lookup(s.leads, p)
  {
  }

  /** The batch lookup answers for a row's phone what the live store would, unless the phone has
      been seen already. */
  predicate Fresh(env: Env, row: Row, existingMap: Leads, s: State) {
    var p := env.phone(row.phone);
    p.Some? && p.value !in s.seen ==> Lookup(existingMap, p.value) == Lookup(s.leads, p.value)
  }

  predicate CacheFresh(env: Env, rows: seq<Row>, start: nat, end: nat, existingMap: Leads, s: State)
    requires start <= end <= |rows|
  {
    forall k :: start <= k < end ==> Fresh(env, rows[k], existingMap, s)
  }

  lemma RowKeepsCacheFresh(
    env: Env, policy: Policy, s: State, rows: seq<Row>, start: nat, end: nat, i: nat, existingMap: Leads)
    requires start <= i < end <= |rows|
    requires CacheFresh(env, rows, start, end, existingMap, s)
    ensures Fresh(env, rows[i], existingMap, s)
    ensures CacheFresh(env, rows, start, end, existingMap, ImportRow(env, policy, s, rows[i], i))
  {
    RowWritesSeenPhones(env, policy, s, rows[i], i);
  }

  /** One import into a tenant's leads, which are unique by phone. */
  class Importer {
    var leads: Leads
    var seenPhones: set<string>
    var created: int
    var updated: int
    var skipped: int
    var failed: int
    var errors: seq<ImportError>

    constructor (leads: Leads)
      ensures Current() == Import0(leads)
    {
      this.leads := leads;
      seenPhones := {};
      created, updated, skipped, failed := 0, 0, 0, 0;
      errors := [];
    }

    function Current(): State
      reads this
    {
      State(leads, seenPhones,
            Tally(Stored(created, updated), Unstored(skipped, failed), errors))
    }

    method AddError(env: Env, number: nat, problem: Problem)
      modifies `failed, `errors
      ensures Current() == old(Current()).(tally := Count(env, old(Current()).tally, number, AsFailed(problem)))
    {
      failed := failed + 1;
      if |errors| < Max(1, env.maxErrors) {
        errors := errors + [ImportError(number, problem)];
      }
    }

    /** The body of the row loop; `existingMap` is the lookup made when the batch began. */
    method ImportRowCached(env: Env, policy: Policy, row: Row, at: nat, existingMap: Leads)
      requires Fresh(env, row, existingMap, Current())
      modifies this
      ensures Current() == ImportRow(env, policy, old(Current()), row, at)
    {
      hide ConsentFromRow, Updated, Created;
      var number := at + 2;
      var valid := env.phone(row.phone);
      if valid.None? {
        AddError(env, number, InvalidPhone);
        return;
      }
      var phone := valid.value;
      if phone in seenPhones {
        skipped := skipped + 1;
        if |errors| < Max(1, env.maxErrors) {
          errors := errors + [ImportError(number, DuplicateInFile)];
        }
        return;
      }
      seenPhones := seenPhones + {phone};
      if row.email != "" && !env.validEmail(row.email) {
        AddError(env, number, InvalidEmail);
        return;
      }
      var consent := ConsentFromRow(env, row, at);
      if consent.Err? {
        AddError(env, number, consent.problem);
        return;
      }
      if phone in existingMap {
        var existing := existingMap[phone];
        if policy.SkipExisting? {
          skipped := skipped + 1;
          return;
        }
        if policy.FailExisting? {
          AddError(env, number, LeadAlreadyExists);
          return;
        }
        leads := leads[phone := Updated(env, existing, row, phone, consent.value)];
        updated := updated + 1;
        return;
      }
      leads := leads[phone := Created(env, row, phone, consent.value)];
      created := created + 1;
    }

    /** The batch lookup: the leads whose phone some row of the batch carries. */
    method FindExisting(env: Env, rows: seq<Row>, start: nat, end: nat) returns (existingMap: Leads)
      requires start <= end <= |rows|
      ensures CacheFresh(env, rows, start, end, existingMap, Current())
    {
      var phones: set<string> := {};
      for i := start to end
        invariant forall k :: start <= k < i && env.phone(rows[k].phone).Some? ==>
                                env.phone(rows[k].phone).value in phones
      {
        var phone := env.phone(rows[i].phone);
        if phone.Some? {
          phones := phones + {phone.value};
        }
      }
      existingMap := map p | p in phones && p in leads :: leads[p];
    }

    /** One batch: the lookup, then its rows in order. A header that looks like a database operator
        raises at the batch's first row. */
    method ImportBatch(
      env: Env, policy: Policy, operatorHeader: bool, rows: seq<Row>, start: nat, end: nat, ghost before: Leads)
      returns (aborted: Option<nat>)
      requires start < end <= |rows|
      requires Current() == Import(env, policy, before, rows[..start])
      modifies this
      ensures aborted == if operatorHeader then Some(start + 2) else None
      ensures Current() == Import(env, policy, before, if operatorHeader then rows[..start] else rows[..end])
    {
      hide ImportRow;
      var existingMap := FindExisting(env, rows, start, end);
      for i := start to end
        invariant operatorHeader ==> i == start
        invariant Current() == Import(env, policy, before, rows[..i])
        invariant CacheFresh(env, rows, start, end, existingMap, Current())
      {
        if operatorHeader {
          return Some(i + 2);
        }
        ImportNext(env, policy, before, rows, i);
        RowKeepsCacheFresh(env, policy, Current(), rows, start, end, i, existingMap);
        ImportRowCached(env, policy, rows[i], i, existingMap);
      }
      return None;
    }

    /** Imports a file batch by batch. The store, the four counts and the error list do not depend on
        the batch size: they are those of the row-at-a-time import. `operatorHeader` says that some
        header looks like a database operator; headers are shared by all rows, so such a file is
        refused at its first row and writes nothing. */
    method ImportLeads(env: Env, policy: Policy, operatorHeader: bool, rows: seq<Row>, batchSetting: int)
      returns (aborted: Option<nat>)
      modifies this
      ensures aborted == if operatorHeader && rows != [] then Some(2) else None
      ensures Current() == if operatorHeader then Import0(old(leads)) else Import(env, policy, old(leads), rows)
    {
      var batchSize := Max(1, batchSetting);
      seenPhones, errors := {}, [];
      created, updated, skipped, failed := 0, 0, 0, 0;
      ghost var before := leads;
      var start := 0;
      assert rows[..0] == [];
      while start < |rows|
        invariant 0 <= start <= |rows|
        invariant operatorHeader ==> start == 0
        invariant Current() == Import(env, policy, before, rows[..start])
      {
        var end := Min(start + batchSize, |rows|);
        aborted := ImportBatch(env, policy, operatorHeader, rows, start, end, before);
        if aborted.Some? {
          return;
        }
        start := end;
      }
      assert rows[..start] == rows;
      return None;
    }
  }

  // ---- What an import does ---------------------------------------------------------------------

  /** Every row of a file is counted exactly once. */
  lemma {:induction false} EveryRowIsCounted(env: Env, policy: Policy, leads: Leads, rows: seq<Row>)
    ensures var s := Import(env, policy, leads, rows);
            && Total(s.tally) == |rows|
            && |s.tally.errors| <= Max(1, env.maxErrors)
    decreases |rows|
  {
    hide Judge;
    if rows != [] {
      EveryRowIsCounted(env, policy, leads, rows[..|rows| - 1]);
    }
  }

  /** The index of the first row that carries a phone, or |rows|. */
  function FirstRow(env: Env, rows: seq<Row>, phone: string): (k: nat)
    ensures k <= |rows|
    ensures k < |rows| ==> env.phone(rows[k].phone) == Some(phone)
    ensures forall i :: 0 <= i < k ==> env.phone(rows[i].phone) != Some(phone)
    decreases |rows|
  {
    if rows == [] then 0
    else
      var k := FirstRow(env, rows[..|rows| - 1], phone);
      if k < |rows| - 1 || env.phone(Last(rows).phone) == Some(phone) then k else |rows|
  }

  function Outcome(verdict: Verdict, existing: Option<Lead>): Option<Lead> {
    if verdict.Write? then Some(verdict.lead) else existing
  }

  lemma RowDecides(env: Env, policy: Policy, s: State, row: Row, at: nat, phone: string)
    ensures var t := ImportRow(env, policy, s, row, at);
            var mine := env.phone(row.phone) == Some(phone);
            var was := Lookup(s.leads, phone);
            && (phone in t.seen <==> phone in s.seen || mine)
            && Lookup(t.leads, phone) ==
               if mine && phone !in s.seen then Outcome(Judge(env, policy, row, at, phone, was), was) else was
  {
  }

  /** Each lead is decided by the first row that carries its phone, against the lead as it was
      before the import; a phone the file does not carry keeps its lead. */
  lemma {:induction false} FirstRowDecides(env: Env, policy: Policy, leads: Leads, rows: seq<Row>, phone: string)
    ensures var s := Import(env, policy, leads, rows);
            var k := FirstRow(env, rows, phone);
            var was := Lookup(leads, phone);
            && (phone in s.seen <==> k < |rows|)
            && Lookup(s.leads, phone) ==
               if k == |rows| then was else Outcome(Judge(env, policy, rows[k], k, phone, was), was)
    decreases |rows|
  {
    hide ImportRow;
    if rows != [] {
      var shorter := rows[..|rows| - 1];
      FirstRowDecides(env, policy, leads, shorter, phone);
      RowDecides(env, policy, Import(env, policy, leads, shorter), Last(rows), |rows| - 1, phone);
    }
  }

  // ---- Consent ------------------------------------------------------------------------------------

  /** No lead disappears, no opt-out is lifted and no blacklisting is cleared. */
  ghost predicate ConsentKept(before: Leads, after: Leads) {
    forall p :: p in before ==>
      && p in after
      && (before[p].consent == OptedOut ==> after[p].consent == OptedOut)
      && (before[p].blacklisted ==> after[p].blacklisted)
  }

  /** A row keeps an opt-out and a blacklisting, and opts a lead in only on evidence. */
  lemma JudgeRespectsConsent(env: Env, policy: Policy, row: Row, at: nat, phone: string, existing: Option<Lead>)
    ensures var v := Judge(env, policy, row, at, phone, existing);
            v.Write? ==>
              && (existing.Some? && existing.value.consent == OptedOut ==> v.lead.consent == OptedOut)
              && (existing.Some? && existing.value.blacklisted ==> v.lead.blacklisted)
              && (v.lead.consent == OptedIn && !(existing.Some? && existing.value.consent == OptedIn) ==>
                    && row.consentStatus == Known(OptedIn)
                    && row.consentSource != ""
                    && env.time(row.consentAt).Some?
                    && !v.lead.blacklisted)
  {
  }

  lemma RowKeepsConsent(env: Env, policy: Policy, before: Leads, s: State, row: Row, at: nat)
    requires ConsentKept(before, s.leads)
    ensures ConsentKept(before, ImportRow(env, policy, s, row, at).leads)
  {
    var p := env.phone(row.phone);
    if p.Some? {
      JudgeRespectsConsent(env, policy, row, at, p.value, Lookup(s.leads, p.value));
    }
  }

  lemma {:induction false} ImportKeepsConsent(env: Env, policy: Policy, leads: Leads, rows: seq<Row>)
    ensures ConsentKept(leads, Import(env, policy, leads, rows).leads)
    decreases |rows|
  {
    if rows != [] {
      var shorter := rows[..|rows| - 1];
      ImportKeepsConsent(env, policy, leads, shorter);
      RowKeepsConsent(env, policy, leads, Import(env, policy, leads, shorter), Last(rows), |rows| - 1);
    }
  }

  datatype File = File(env: Env, policy: Policy, operatorHeader: bool, rows: seq<Row>)

  function ImportFiles(leads: Leads, files: seq<File>): Leads
    decreases |files|
  {
    if files == [] then leads
    else
      var f, before := Last(files), ImportFiles(leads, files[..|files| - 1]);
      if f.operatorHeader then before else Import(f.env, f.policy, before, f.rows).leads
  }

  /** No sequence of imports lifts an opt-out or a blacklisting. */
  lemma {:induction false} ImportsKeepConsent(leads: Leads, files: seq<File>)
    ensures ConsentKept(leads, ImportFiles(leads, files))
    decreases |files|
  {
    if files != [] {
      ImportsKeepConsent(leads, files[..|files| - 1]);
      var f := Last(files);
      ImportKeepsConsent(f.env, f.policy, ImportFiles(leads, files[..|files| - 1]), f.rows);
    }
  }

  /** A lead is opted in after an import only if it was before, or if the first row with its phone
      says so and carries both a source and a time; it is then not blacklisted. */
  lemma OptInNeedsEvidence(env: Env, policy: Policy, leads: Leads, rows: seq<Row>, phone: string)
    requires phone in Import(env, policy, leads, rows).leads
    requires Import(env, policy, leads, rows).leads[phone].consent == OptedIn
    ensures || (phone in leads && leads[phone].consent == OptedIn)
            || (var k := FirstRow(env, rows, phone);
                && k < |rows|
                && rows[k].consentStatus == Known(OptedIn)
                && rows[k].consentSource != ""
                && env.time(rows[k].consentAt).Some?
                && !Import(env, policy, leads, rows).leads[phone].blacklisted)
  {
    FirstRowDecides(env, policy, leads, rows, phone);
    var k := FirstRow(env, rows, phone);
    if k < |rows| {
      JudgeRespectsConsent(env, policy, rows[k], k, phone, Lookup(leads, phone));
    }
  }

  // ---- What every lead ends with --------------------------------------------------------------------

  /** The consent the row states; a blank cell states none. */
  function Stated(row: Row): Consent {
    if row.consentStatus.Known? then row.consentStatus.status else NoConsent
  }

  /** Does the row pass the checks on its cells? */
  predicate Passes(env: Env, row: Row) {
    && (row.email == "" || env.validEmail(row.email))
    && !row.consentStatus.Unrecognised?
    && (Stated(row) == OptedIn ==> row.consentSource != "" && env.time(row.consentAt).Some?)
  }

  /** The descriptive fields: cells that are filled in win, blank ones fall back. */
  predicate IsDescribed(env: Env, lead: Lead, was: Option<Lead>, row: Row, phone: string) {
    && lead.name == (if row.name == "" then phone else Clip(row.name, 100))
    && lead.source == (if row.source == "" then "import" else Clip(row.source, 100))
    && lead.email == (if row.email != "" then Some(row.email) else if was.Some? then was.value.email else None)
    && lead.company == (if row.company != "" then Some(Clip(row.company, 100))
                        else if was.Some? then was.value.company else None)
    && lead.tags == (if was.Some? && env.tags(row.tags) == [] then was.value.tags else env.tags(row.tags))
    && lead.createdAt == (if was.Some? then was.value.createdAt else env.now)
    && lead.updatedAt == env.now
    && lead.score == (if was.Some? then env.rescore(lead.(score := was.value.score)) else 0)
  }

  /** May the row speak for the lead? An opt-out always does; an opt-in unless the lead is opted out
      or blacklisted; pending unless it is opted out; and no consent only where there was none. */
  predicate Speaks(stated: Consent, consent: Consent, blacklisted: bool) {
    match stated
    case OptedOut => true
    case OptedIn => consent != OptedOut && !blacklisted
    case PendingConsent => consent != OptedOut
    case NoConsent => consent == NoConsent
  }

  predicate SameConsent(a: Lead, b: Lead) {
    && a.consent == b.consent && a.consentSource == b.consentSource && a.consentAt == b.consentAt
    && a.consentUpdatedAt == b.consentUpdatedAt && a.consentProof == b.consentProof
    && a.optedOutAt == b.optedOutAt && a.optOutReason == b.optOutReason
    && a.blacklisted == b.blacklisted && a.aiPaused == b.aiPaused
  }

  /** The consent fields a row leaves when it speaks; `was` is the lead before, or a blank one. */
  predicate IsStated(env: Env, lead: Lead, was: Lead, row: Row, at: nat) {
    var source, time := Clip(row.consentSource, 40), env.time(row.consentAt);
    && lead.consent == Stated(row)
    && match Stated(row)
       case OptedOut =>
         && lead.consentSource == Some(if source == "" then "import" else source)
         && lead.consentAt == was.consentAt && lead.consentProof == was.consentProof
         && lead.consentUpdatedAt == Some(env.clock(at))
         && lead.optedOutAt == (if time.Some? then time else Some(env.clock(at)))
         && lead.optOutReason == Some("import") && lead.blacklisted && lead.aiPaused
       case OptedIn =>
         && lead.consentSource == Some(source) && lead.consentAt == time
         && lead.consentUpdatedAt == Some(env.clock(at)) && lead.consentProof == was.consentProof
         && lead.optedOutAt.None? && lead.optOutReason.None?
         && !lead.blacklisted && lead.aiPaused == was.aiPaused
       case _ =>
         && lead.consentSource == (if source == "" then None else Some(source))
         && lead.consentAt == (if Stated(row) == PendingConsent then time else None)
         && lead.consentUpdatedAt.None? && lead.consentProof.None?
         && lead.optedOutAt.None? && lead.optOutReason.None?
         && lead.blacklisted == was.blacklisted && lead.aiPaused == was.aiPaused
  }

  /** A lead with nothing in it but times and a source. */
  function Blank(env: Env): Lead {
    Lead("", None, None, "", [], 0, false, false, NoConsent, None, None, None, None, None, None, env.now, env.now)
  }

  /** What the import leaves of every phone. Only the first row with the phone counts. If it passes the
      checks and finds no lead, or one that the policy updates, the lead ends with the descriptive
      fields of the row, and with its consent fields exactly if the row may speak for the lead;
      otherwise the lead, or its absence, is as before. */
  lemma ImportLeaves(env: Env, policy: Policy, leads: Leads, rows: seq<Row>, phone: string)
    ensures var after := Import(env, policy, leads, rows).leads;
            var k, was := FirstRow(env, rows, phone), Lookup(leads, phone);
            if k < |rows| && Passes(env, rows[k]) && (was.Some? ==> policy.UpdateExisting?) then
              && phone in after
              && IsDescribed(env, after[phone], was, rows[k], phone)
              && var before := if was.Some? then was.value else Blank(env);
                 if Speaks(Stated(rows[k]), before.consent, before.blacklisted)
                 then IsStated(env, after[phone], before, rows[k], k)
                 else SameConsent(after[phone], before)
            else Lookup(after, phone) == was
  {
    hide Import, Judge, IsDescribed, IsStated, SameConsent, Passes;
    FirstRowDecides(env, policy, leads, rows, phone);
    var k := FirstRow(env, rows, phone);
    if k < |rows| {
      JudgeLeaves(env, policy, rows[k], k, phone, Lookup(leads, phone));
    }
  }

  lemma JudgeLeaves(env: Env, policy: Policy, row: Row, at: nat, phone: string, was: Option<Lead>)
    ensures var v := Judge(env, policy, row, at, phone, was);
            if Passes(env, row) && (was.Some? ==> policy.UpdateExisting?) then
              && v.Write?
              && IsDescribed(env, v.lead, was, row, phone)
              && var before := if was.Some? then was.value else Blank(env);
                 if Speaks(Stated(row), before.consent, before.blacklisted)
                 then IsStated(env, v.lead, before, row, at)
                 else SameConsent(v.lead, before)
            else !v.Write?
  {
    hide Updated, Created, Blank, IsDescribed, IsStated, SameConsent, Speaks;
    var consent := ConsentFromRow(env, row, at);
    if consent.Ok? {
      hide ConsentFromRow;
      if was.Some? {
        UpdateDescribes(env, was.value, row, at, phone);
        UpdateSpeaks(env, was.value, row, at, phone);
      } else {
        CreationDescribes(env, row, at, phone);
        CreationSpeaks(env, row, at, phone);
      }
    }
  }

  lemma UpdateDescribes(env: Env, was: Lead, row: Row, at: nat, phone: string)
    requires ConsentFromRow(env, row, at).Ok?
    ensures IsDescribed(env, Updated(env, was, row, phone, ConsentFromRow(env, row, at).value), Some(was), row, phone)
  {
    hide ConsentFromRow, MaySetConsent, Clip;
  }

  lemma UpdateSpeaks(env: Env, was: Lead, row: Row, at: nat, phone: string)
    requires ConsentFromRow(env, row, at).Ok?
    ensures var lead := Updated(env, was, row, phone, ConsentFromRow(env, row, at).value);
            if Speaks(Stated(row), was.consent, was.blacklisted)
            then IsStated(env, lead, was, row, at)
            else SameConsent(lead, was)
  {
    hide Clip;
  }

  lemma CreationDescribes(env: Env, row: Row, at: nat, phone: string)
    requires ConsentFromRow(env, row, at).Ok?
    ensures IsDescribed(env, Created(env, row, phone, ConsentFromRow(env, row, at).value), None, row, phone)
  {
    hide ConsentFromRow, Clip;
  }

  lemma CreationSpeaks(env: Env, row: Row, at: nat, phone: string)
    requires ConsentFromRow(env, row, at).Ok?
    ensures Speaks(Stated(row), Blank(env).consent, Blank(env).blacklisted)
    ensures IsStated(env, Created(env, row, phone, ConsentFromRow(env, row, at).value), Blank(env), row, at)
  {
    hide Clip;
  }

  // ---- What every row counts as ---------------------------------------------------------------------

  /** Where a row goes, from the file and the store before the import. */
  function Place(env: Env, policy: Policy, leads: Leads, rows: seq<Row>, k: nat): Entry
    requires k < |rows|
  {
    var row := rows[k];
    match env.phone(row.phone)
    case None => AsFailed(InvalidPhone)
    case Some(phone) =>
      if FirstRow(env, rows, phone) < k then AsDuplicate
      else if row.email != "" && !env.validEmail(row.email) then AsFailed(InvalidEmail)
      else if row.consentStatus.Unrecognised? then AsFailed(InvalidConsentStatus(row.consentStatus.text))
      else if !Passes(env, row) then AsFailed(OptInWithoutEvidence)
      else if phone !in leads then AsCreated
      else if policy.UpdateExisting? then AsUpdated
      else if policy.SkipExisting? then AsSkipped
      else AsFailed(LeadAlreadyExists)
  }

  /** A failure adds one to failed and is reported; a duplicate adds one to skipped and is reported;
      the others add one to their count. Reports stop at the cap. */
  predicate IsCounted(env: Env, before: Tally, after: Tally, row: nat, place: Entry) {
    var problem := match place
      case AsFailed(p) => Some(p)
      case AsDuplicate => Some(DuplicateInFile)
      case _ => None;
    && after.stored.created == before.stored.created + (if place.AsCreated? then 1 else 0)
    && after.stored.updated == before.stored.updated + (if place.AsUpdated? then 1 else 0)
    && after.unstored.skipped == before.unstored.skipped + (if place.AsSkipped? || place.AsDuplicate? then 1 else 0)
    && after.unstored.failed == before.unstored.failed + (if place.AsFailed? then 1 else 0)
    && after.errors == before.errors + if problem.Some? && |before.errors| < Max(1, env.maxErrors)
                                       then [ImportError(row, problem.value)] else []
  }

  lemma RowIsCountedAs(env: Env, policy: Policy, leads: Leads, rows: seq<Row>, k: nat)
    requires k < |rows|
    ensures IsCounted(env, Import(env, policy, leads, rows[..k]).tally, Import(env, policy, leads, rows[..k + 1]).tally,
                      k + 2, Place(env, policy, leads, rows, k))
  {
    hide Import, Judge;
    ImportNext(env, policy, leads, rows, k);
    var s := Import(env, policy, leads, rows[..k]);
    var phone := env.phone(rows[k].phone);
    if phone.Some? {
      FirstRowDecides(env, policy, leads, rows[..k], phone.value);
      FirstRowOfPrefix(env, rows, phone.value, k);
      JudgeCounts(env, policy, rows[k], k, phone.value, Lookup(leads, phone.value));
    }
  }

  lemma FirstRowOfPrefix(env: Env, rows: seq<Row>, phone: string, k: nat)
    requires k <= |rows|
    ensures FirstRow(env, rows[..k], phone) < k <==> FirstRow(env, rows, phone) < k
  {
    hide FirstRow;
    var first, early := FirstRow(env, rows, phone), FirstRow(env, rows[..k], phone);
    assert early < k ==> rows[early] == rows[..k][early];
    assert first < k ==> rows[first] == rows[..k][first];
  }

  lemma JudgeCounts(env: Env, policy: Policy, row: Row, at: nat, phone: string, was: Option<Lead>)
    ensures EntryOf(Judge(env, policy, row, at, phone, was)) ==
            if row.email != "" && !env.validEmail(row.email) then AsFailed(InvalidEmail)
            else if row.consentStatus.Unrecognised? then AsFailed(InvalidConsentStatus(row.consentStatus.text))
            else if !Passes(env, row) then AsFailed(OptInWithoutEvidence)
            else if was.None? then AsCreated
            else if policy.UpdateExisting? then AsUpdated
            else if policy.SkipExisting? then AsSkipped
            else AsFailed(LeadAlreadyExists)
  {
    hide Updated, Created;
  }

  // ---- Importing the same file again ---------------------------------------------------------------

  lemma {:induction false} LeadsOnlyGrow(env: Env, policy: Policy, leads: Leads, rows: seq<Row>, k: nat)
    requires k <= |rows|
    ensures Import(env, policy, leads, rows[..k]).leads.Keys <= Import(env, policy, leads, rows).leads.Keys
    decreases |rows|
  {
    hide Judge;
    if k < |rows| {
      LeadsOnlyGrow(env, policy, leads, rows[..|rows| - 1], k);
      assert rows[..|rows| - 1][..k] == rows[..k];
    } else {
      assert rows[..k] == rows;
    }
  }

  ghost predicate SameSyntax(a: Env, b: Env) {
    a.phone == b.phone && a.validEmail == b.validEmail && a.time == b.time
    && a.maxErrors == b.maxErrors
  }

  /** The tally of a second import of what `t` counts. */
  function Again(t: Tally): Tally {
    Tally(Stored(0, 0),
          Unstored(t.unstored.skipped + t.stored.created + t.stored.updated, t.unstored.failed),
          t.errors)
  }

  lemma RowAgain(env: Env, again: Env, policy: Policy, s: State, row: Row, at: nat, second: State)
    requires SameSyntax(env, again) && second.seen == s.seen
    requires ImportRow(env, policy, s, row, at).leads.Keys <= second.leads.Keys
    ensures var t, u := ImportRow(env, policy, s, row, at), ImportRow(again, SkipExisting, second, row, at);
            && u.leads == second.leads && u.seen == t.seen
            && u.tally.stored == second.tally.stored
            && (!policy.FailExisting? && second.tally == Again(s.tally) ==> u.tally == Again(t.tally))
  {
    var t := ImportRow(env, policy, s, row, at);
    var p := env.phone(row.phone);
    if p.Some? && p.value !in s.seen {
      var first := Judge(env, policy, row, at, p.value, Lookup(s.leads, p.value));
      var judged := Judge(again, SkipExisting, row, at, p.value, Lookup(second.leads, p.value));
      assert p.value in s.leads ==> p.value in t.leads;
      assert judged == if first.Reject? && !first.problem.LeadAlreadyExists? then first else Skip;
    }
  }

  /** Importing a file again under the skip policy, whenever and after whichever policy, writes
      nothing. After the skip and update policies the counts are known too: what was created or
      updated is now skipped, and the failures and the error list are the same. */
  lemma {:induction false} ReimportWritesNothing(
    env: Env, again: Env, policy: Policy, leads: Leads, rows: seq<Row>, k: nat)
    requires k <= |rows| && SameSyntax(env, again)
    ensures var done := Import(env, policy, leads, rows).leads;
            var first := Import(env, policy, leads, rows[..k]);
            var second := Import(again, SkipExisting, done, rows[..k]);
            && second.leads == done && second.seen == first.seen
            && second.tally.stored == Stored(0, 0)
            && (!policy.FailExisting? ==> second.tally == Again(first.tally))
    decreases k
  {
    hide ImportRow;
    var done := Import(env, policy, leads, rows).leads;
    if k > 0 {
      LeadsOnlyGrow(env, policy, leads, rows, k);
      ReimportWritesNothing(env, again, policy, leads, rows, k - 1);
      ImportNext(env, policy, leads, rows, k - 1);
      ImportNext(again, SkipExisting, done, rows, k - 1);
      RowAgain(env, again, policy, Import(env, policy, leads, rows[..k - 1]), rows[k - 1], k - 1,
               Import(again, SkipExisting, done, rows[..k - 1]));
    }
  }

  // ---- Consent and the blacklist --------------------------------------------------------------------

  /** Does row `k` write an opt-out? It must be the first with its phone, pass the checks, and find
      either no lead or a policy that updates. */
  predicate OptsOut(env: Env, policy: Policy, leads: Leads, rows: seq<Row>, k: nat)
    requires k < |rows|
  {
    && env.phone(rows[k].phone).Some?
    && var phone := env.phone(rows[k].phone).value;
       && FirstRow(env, rows, phone) == k
       && (rows[k].email == "" || env.validEmail(rows[k].email))
       && rows[k].consentStatus == Known(OptedOut)
       && (phone in leads ==> policy.UpdateExisting?)
  }

  predicate InStep(lead: Lead) {
    lead.blacklisted <==> lead.consent == OptedOut
  }

  lemma JudgeOptsOut(env: Env, policy: Policy, row: Row, at: nat, phone: string, existing: Option<Lead>)
    requires existing.Some? ==> InStep(existing.value)
    ensures var after := Outcome(Judge(env, policy, row, at, phone, existing), existing);
            && (after.Some? ==> InStep(after.value))
            && (after.Some? && after.value.consent == OptedOut <==>
                  || (existing.Some? && existing.value.consent == OptedOut)
                  || ((row.email == "" || env.validEmail(row.email)) && row.consentStatus == Known(OptedOut)
                      && (existing.Some? ==> policy.UpdateExisting?)))
  {
  }

  /** A lead is opted out after an import exactly if it was before or a row of the file opts it out;
      and the flag on the lead stays in step with that. */
  lemma OptOutNeedsRow(env: Env, policy: Policy, leads: Leads, rows: seq<Row>, phone: string)
    requires phone in leads ==> InStep(leads[phone])
    ensures var after := Import(env, policy, leads, rows).leads;
            var k := FirstRow(env, rows, phone);
            && (phone in after ==> InStep(after[phone]))
            && (phone in after && after[phone].consent == OptedOut <==>
                  || (phone in leads && leads[phone].consent == OptedOut)
                  || (k < |rows| && OptsOut(env, policy, leads, rows, k)))
  {
    hide Import, Judge;
    FirstRowDecides(env, policy, leads, rows, phone);
    var k := FirstRow(env, rows, phone);
    if k < |rows| {
      JudgeOptsOut(env, policy, rows[k], k, phone, Lookup(leads, phone));
    }
  }
}
