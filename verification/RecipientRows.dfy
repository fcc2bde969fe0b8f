/** Building the recipients of a campaign from lead ids and phone numbers
    (`build_recipient_rows` in app/services/campaign_service.py), with the send eligibility it
    asks (app/services/whatsapp_eligibility.py). */
module RecipientRows {
  import opened Common
  import C = Campaigns

  /** The part of a lead that eligibility looks at. */
  datatype Standing = Standing(blacklisted: bool, consent: Consent, windowOpen: bool)

  datatype Lead = Lead(id: string, phone: string, name: Option<string>, standing: Standing)

  datatype Reason = Fine | ConfigurationError | InvalidRecipient | ConsentBlocked | ConsentRequired | WindowClosed

  datatype Verdict = Verdict(allowed: bool, reason: Reason)

  datatype RowError = Refused(reason: Reason) | Blacklisted

  datatype Row = Row(
    phone: string,
    leadId: Option<string>,
    name: Option<string>,
    status: C.RecipientStatus,
    error: Option<RowError>)

  datatype Skip =
    | InvalidPhone(raw: string)
    | Duplicate(phone: string)
    | InvalidLeadId(id: string)
    | LeadNotFound(id: string)
    | LeadHasNoPhone(id: string)

  /** What the build reads: the tenant's leads and blacklist, and the functions it calls. */
  datatype Context = Context(
    leads: seq<Lead>,
    blacklist: set<string>,
    isObjectId: string -> bool,
    normalize: string -> Option<string>,
    eligibility: (Standing, string, bool) -> Verdict)

  function FindLead(leads: seq<Lead>, matches: Lead -> bool): (found: Option<Lead>)
    ensures found.Some? ==> found.value in leads && matches(found.value)
    ensures found.None? ==> forall lead :: lead in leads ==> !matches(lead)
    ensures found.Some? ==> exists j :: 0 <= j < |leads| && leads[j] == found.value && NoneBefore(leads, j, matches)
  {
    if leads == [] then None
    else
      var before := FindLead(leads[..|leads| - 1], matches);
      if before.None? && matches(Last(leads)) then Some(Last(leads)) else before
  }

  predicate NoneBefore(leads: seq<Lead>, n: nat, matches: Lead -> bool)
    requires n <= |leads|
  {
    forall i :: 0 <= i < n ==> !matches(leads[i])
  }

  /** One input of the build: something that names no phone at all, or a raw phone with its lead. */
  datatype Candidate = Unusable(why: Skip) | Usable(raw: string, lead: Option<Lead>)

  function FromLeadId(ctx: Context, id: string): Candidate {
    if !ctx.isObjectId(id) then Unusable(InvalidLeadId(id))
    else
      match FindLead(ctx.leads, (lead: Lead) => lead.id == id)
      case None => Unusable(LeadNotFound(id))
      case Some(lead) => if lead.phone == "" then Unusable(LeadHasNoPhone(id)) else Usable(lead.phone, Some(lead))
  }

  function FromPhone(ctx: Context, raw: string): Candidate {
    match ctx.normalize(raw)
    case None => Usable(raw, None)
    case Some(phone) => Usable(raw, FindLead(ctx.leads, (lead: Lead) => lead.phone == phone))
  }

  function Candidates(ctx: Context, leadIds: seq<string>, phones: seq<string>): seq<Candidate> {
    seq(|leadIds|, i requires 0 <= i < |leadIds| => FromLeadId(ctx, leadIds[i]))
    + seq(|phones|, i requires 0 <= i < |phones| => FromPhone(ctx, phones[i]))
  }

  function PhoneOf(ctx: Context, c: Candidate): Option<string> {
    if c.Unusable? then None else ctx.normalize(c.raw)
  }

  /** Why the row for this phone must not be sent, if so. */
  function Refusal(ctx: Context, phone: string, lead: Option<Lead>): Option<RowError> {
    var listed := phone in ctx.blacklist;
    var known := if lead.Some? then lead.value.standing else Standing(listed, NoConsent, false);
    var blacklisted := listed || known.blacklisted;
    var verdict := ctx.eligibility(known.(blacklisted := blacklisted), phone, blacklisted);
    if !verdict.allowed && HardReason(verdict.reason) then Some(Refused(verdict.reason))
    else if listed then Some(Blacklisted)
    else None
  }

  /** Is this the tenant's lead with that id, or with that phone? */
  predicate HasId(lead: Lead, id: string) {
    lead.id == id
  }

  predicate HasPhone(lead: Lead, phone: string) {
    lead.phone == phone
  }

  /** What every input stands for. A lead id is reported unless it is an object id of a lead with a
      phone, and else stands for that lead; a typed phone stands for itself, with the tenant's lead
      of that phone exactly if there is one. */
  lemma InputsStandFor(ctx: Context, leadIds: seq<string>, phones: seq<string>)
    ensures var cs := Candidates(ctx, leadIds, phones);
            && |cs| == |leadIds| + |phones|
            && (forall i :: 0 <= i < |leadIds| ==> LeadIdStandsFor(ctx, leadIds[i], cs[i]))
            && (forall i :: 0 <= i < |phones| ==> PhoneStandsFor(ctx, phones[i], cs[|leadIds| + i]))
  {
  }

  ghost predicate LeadIdStandsFor(ctx: Context, id: string, c: Candidate) {
    var known := exists lead :: lead in ctx.leads && HasId(lead, id);
    if !ctx.isObjectId(id) then c == Unusable(InvalidLeadId(id))
    else if !known then c == Unusable(LeadNotFound(id))
    else exists lead :: lead in ctx.leads && HasId(lead, id) &&
           c == if lead.phone == "" then Unusable(LeadHasNoPhone(id)) else Usable(lead.phone, Some(lead))
  }

  ghost predicate PhoneStandsFor(ctx: Context, raw: string, c: Candidate) {
    var phone := ctx.normalize(raw);
    && c.Usable? && c.raw == raw
    && (c.lead.Some? <==> phone.Some? && exists lead :: lead in ctx.leads && HasPhone(lead, phone.value))
    && (c.lead.Some? ==> c.lead.value in ctx.leads && HasPhone(c.lead.value, phone.value))
  }

  predicate HardReason(reason: Reason) {
    reason.ConsentBlocked? || reason.ConsentRequired? || reason.InvalidRecipient?
  }

  // ---- What the build returns, without its loops --------------------------------------------------

  /** Is candidate `i` the first that names its phone? */
  ghost predicate IsFirst(ctx: Context, cs: seq<Candidate>, i: nat)
    requires i < |cs|
  {
    && PhoneOf(ctx, cs[i]).Some?
    && forall j :: 0 <= j < i ==> PhoneOf(ctx, cs[j]) != PhoneOf(ctx, cs[i])
  }

  /** A row of this candidate: its own lead and phone, and the status it earns. */
  ghost predicate RowOf(ctx: Context, row: Row, c: Candidate) {
    && PhoneOf(ctx, c) == Some(row.phone)
    && row.leadId == (if c.lead.Some? then Some(c.lead.value.id) else None)
    && row.name == (if c.lead.Some? then c.lead.value.name else None)
    && row.error == Refusal(ctx, row.phone, c.lead)
    && row.status == (if row.error.None? then C.Pending else C.Skipped)
  }

  /** The report for a candidate that earns no row. */
  ghost predicate SkipOf(ctx: Context, skip: Skip, c: Candidate) {
    match c
    case Unusable(why) => skip == why
    case Usable(raw, _) =>
      match ctx.normalize(raw)
      case None => skip == InvalidPhone(raw)
      case Some(phone) => skip == Duplicate(phone)
  }

  /** Rows and reports split the candidates in order: the first to name a phone gets a row, every
      other one a report. */
  ghost predicate Splits(ctx: Context, cs: seq<Candidate>, rows: seq<Row>, skipped: seq<Skip>)
    decreases |cs|
  {
    if cs == [] then rows == [] && skipped == []
    else
      var earlier := cs[..|cs| - 1];
      if IsFirst(ctx, cs, |cs| - 1) then
        && rows != [] && RowOf(ctx, Last(rows), Last(cs))
        && Splits(ctx, earlier, rows[..|rows| - 1], skipped)
      else
        && skipped != [] && SkipOf(ctx, Last(skipped), Last(cs))
        && Splits(ctx, earlier, rows, skipped[..|skipped| - 1])
  }

  ghost function PhonesOf(ctx: Context, cs: seq<Candidate>): set<string> {
    set i | 0 <= i < |cs| && PhoneOf(ctx, cs[i]).Some? :: PhoneOf(ctx, cs[i]).value
  }

  lemma NextCandidate(ctx: Context, cs: seq<Candidate>, c: Candidate)
    ensures (cs + [c])[..|cs|] == cs && Last(cs + [c]) == c
    ensures PhonesOf(ctx, cs + [c]) ==
            PhonesOf(ctx, cs) + if PhoneOf(ctx, c).Some? then {PhoneOf(ctx, c).value} else {}
    ensures IsFirst(ctx, cs + [c], |cs|) <==>
            PhoneOf(ctx, c).Some? && PhoneOf(ctx, c).value !in PhonesOf(ctx, cs)
  {
    var more := cs + [c];
    assert forall i :: 0 <= i < |cs| ==> more[i] == cs[i];
    assert PhonesOf(ctx, cs) <= PhonesOf(ctx, more);
    assert more[|cs|] == c;
  }

  class Builder {
    const ctx: Context
    var seen: set<string>
    var rows: seq<Row>
    var skipped: seq<Skip>

    /** What the fields hold once these candidates have been through. */
    ghost predicate Follows(cs: seq<Candidate>)
      reads this
    {
      && seen == PhonesOf(ctx, cs)
      && Splits(ctx, cs, rows, skipped)
    }

    constructor (ctx: Context)
      ensures this.ctx == ctx && Follows([])
    {
      this.ctx := ctx;
      seen, rows, skipped := {}, [], [];
    }

    method Report(why: Skip, ghost cs: seq<Candidate>, ghost c: Candidate)
      requires Follows(cs)
      requires PhoneOf(ctx, c).None? || PhoneOf(ctx, c).value in seen
      requires SkipOf(ctx, why, c)
      modifies this
      ensures Follows(cs + [c])
    {
      skipped := skipped + [why];
      NextCandidate(ctx, cs, c);
    }

    method AddPhone(raw: string, lead: Option<Lead>, ghost cs: seq<Candidate>)
      requires Follows(cs)
      modifies this
      ensures Follows(cs + [Usable(raw, lead)])
    {
      var normalized := ctx.normalize(raw);
      if normalized.None? {
        Report(InvalidPhone(raw), cs, Usable(raw, lead));
        return;
      }
      var phone := normalized.value;
      if phone in seen {
        Report(Duplicate(phone), cs, Usable(raw, lead));
        return;
      }
      NextCandidate(ctx, cs, Usable(raw, lead));
      seen := seen + {phone};
      var listed := phone in ctx.blacklist;
      var standing := if lead.Some? then lead.value.standing else Standing(listed, NoConsent, false);
      if listed {
        standing := standing.(blacklisted := true);
      }
      var verdict := ctx.eligibility(standing, phone, listed || standing.blacklisted);
      var leadId := if lead.Some? then Some(lead.value.id) else None;
      var name := if lead.Some? then lead.value.name else None;
      if !verdict.allowed && HardReason(verdict.reason) {
        rows := rows + [Row(phone, leadId, name, C.Skipped, Some(Refused(verdict.reason)))];
      } else if listed {
        rows := rows + [Row(phone, leadId, name, C.Skipped, Some(Blacklisted))];
      } else {
        rows := rows + [Row(phone, leadId, name, C.Pending, None)];
      }
    }

    method AddLead(id: string, ghost cs: seq<Candidate>)
      requires Follows(cs)
      modifies this
      ensures Follows(cs + [FromLeadId(ctx, id)])
    {
      if !ctx.isObjectId(id) {
        Report(InvalidLeadId(id), cs, Unusable(InvalidLeadId(id)));
        return;
      }
      var lead := FindLead(ctx.leads, (lead: Lead) => lead.id == id);
      if lead.None? {
        Report(LeadNotFound(id), cs, Unusable(LeadNotFound(id)));
        return;
      }
      if lead.value.phone == "" {
        Report(LeadHasNoPhone(id), cs, Unusable(LeadHasNoPhone(id)));
        return;
      }
      AddPhone(lead.value.phone, lead, cs);
    }

    method BuildRecipientRows(leadIds: seq<string>, phones: seq<string>)
      requires Follows([])
      modifies this
      ensures Splits(ctx, Candidates(ctx, leadIds, phones), rows, skipped)
    {
      hide Splits, PhonesOf;
      ghost var cs := Candidates(ctx, leadIds, phones);
      var i := 0;
      while i < |leadIds|
        invariant 0 <= i <= |leadIds|
        invariant Follows(cs[..i])
      {
        assert cs[..i + 1] == cs[..i] + [FromLeadId(ctx, leadIds[i])];
        AddLead(leadIds[i], cs[..i]);
        i := i + 1;
      }
      i := 0;
      while i < |phones|
        invariant 0 <= i <= |phones|
        invariant Follows(cs[..|leadIds| + i])
      {
        var raw := phones[i];
        var phone := ctx.normalize(raw);
        var lead := None;
        if phone.Some? {
          lead := FindLead(ctx.leads, (lead: Lead) => lead.phone == phone.value);
        }
        assert cs[..|leadIds| + i + 1] == cs[..|leadIds| + i] + [FromPhone(ctx, raw)];
        AddPhone(raw, lead, cs[..|leadIds| + i]);
        i := i + 1;
      }
      assert cs[..|leadIds| + |phones|] == cs;
    }
  }

  // ---- What the caller gets -----------------------------------------------------------------------

  /** Every input is accounted for once, in a row or in a report. */
  lemma {:induction false} NothingIsLost(ctx: Context, cs: seq<Candidate>, rows: seq<Row>, skipped: seq<Skip>)
    requires Splits(ctx, cs, rows, skipped)
    ensures |rows| + |skipped| == |cs|
    decreases |cs|
  {
    if cs != [] {
      var earlier := cs[..|cs| - 1];
      if IsFirst(ctx, cs, |cs| - 1) {
        NothingIsLost(ctx, earlier, rows[..|rows| - 1], skipped);
      } else {
        NothingIsLost(ctx, earlier, rows, skipped[..|skipped| - 1]);
      }
    }
  }

  /** Every row is decided by the first candidate that names its phone. */
  lemma {:induction false} RowComesFromFirst(
    ctx: Context, cs: seq<Candidate>, rows: seq<Row>, skipped: seq<Skip>, k: nat) returns (i: nat)
    requires Splits(ctx, cs, rows, skipped) && k < |rows|
    ensures i < |cs| && IsFirst(ctx, cs, i) && RowOf(ctx, rows[k], cs[i])
    decreases |cs|
  {
    var earlier := cs[..|cs| - 1];
    if !IsFirst(ctx, cs, |cs| - 1) {
      i := RowComesFromFirst(ctx, earlier, rows, skipped[..|skipped| - 1], k);
    } else if k < |rows| - 1 {
      i := RowComesFromFirst(ctx, earlier, rows[..|rows| - 1], skipped, k);
    } else {
      i := |cs| - 1;
    }
  }

  /** Every candidate with a phone finds it in a row, even when the row is not its own. */
  lemma {:induction false} PhoneGetsRow(
    ctx: Context, cs: seq<Candidate>, rows: seq<Row>, skipped: seq<Skip>, i: nat) returns (k: nat)
    requires Splits(ctx, cs, rows, skipped) && i < |cs| && PhoneOf(ctx, cs[i]).Some?
    ensures k < |rows| && PhoneOf(ctx, cs[i]) == Some(rows[k].phone)
    decreases |cs|, i
  {
    var last := |cs| - 1;
    var earlier := cs[..last];
    if i < last {
      if IsFirst(ctx, cs, last) {
        k := PhoneGetsRow(ctx, earlier, rows[..|rows| - 1], skipped, i);
      } else {
        k := PhoneGetsRow(ctx, earlier, rows, skipped[..|skipped| - 1], i);
      }
    } else if IsFirst(ctx, cs, last) {
      k := |rows| - 1;
    } else {
      var j :| 0 <= j < last && PhoneOf(ctx, cs[j]) == PhoneOf(ctx, cs[last]);
      k := PhoneGetsRow(ctx, cs, rows, skipped, j);
    }
  }

  lemma {:induction false} ReportComesFrom(
    ctx: Context, cs: seq<Candidate>, rows: seq<Row>, skipped: seq<Skip>, k: nat) returns (i: nat)
    requires Splits(ctx, cs, rows, skipped) && k < |skipped|
    ensures i < |cs| && !IsFirst(ctx, cs, i) && SkipOf(ctx, skipped[k], cs[i])
    decreases |cs|
  {
    var earlier := cs[..|cs| - 1];
    if IsFirst(ctx, cs, |cs| - 1) {
      i := ReportComesFrom(ctx, earlier, rows[..|rows| - 1], skipped, k);
    } else if k < |skipped| - 1 {
      i := ReportComesFrom(ctx, earlier, rows, skipped[..|skipped| - 1], k);
    } else {
      i := |cs| - 1;
    }
  }

  /** What a report says is so: a duplicate has its phone in a row, and a phone called invalid cannot
      be normalised. Reports about lead ids are those of the inputs. */
  lemma ReportIsTrue(ctx: Context, cs: seq<Candidate>, rows: seq<Row>, skipped: seq<Skip>, k: nat)
    requires Splits(ctx, cs, rows, skipped) && k < |skipped|
    ensures Unusable(skipped[k]) in cs ||
            match skipped[k]
            case Duplicate(phone) => exists j :: 0 <= j < |rows| && rows[j].phone == phone
            case InvalidPhone(raw) => ctx.normalize(raw).None? && exists i :: 0 <= i < |cs| && IsRaw(cs[i], raw)
            case _ => false
  {
    var i := ReportComesFrom(ctx, cs, rows, skipped, k);
    if cs[i].Usable? {
      if ctx.normalize(cs[i].raw).Some? {
        var j := PhoneGetsRow(ctx, cs, rows, skipped, i);
      } else {
        assert IsRaw(cs[i], cs[i].raw);
      }
    }
  }

  predicate IsRaw(c: Candidate, raw: string) {
    c.Usable? && c.raw == raw
  }

  /** Row phones are pairwise distinct, as the unique index on (campaign, phone) demands. */
  lemma {:induction false} RowPhonesAreDistinct(
    ctx: Context, cs: seq<Candidate>, rows: seq<Row>, skipped: seq<Skip>, j: nat, k: nat)
    requires Splits(ctx, cs, rows, skipped) && j < k < |rows|
    ensures rows[j].phone != rows[k].phone
    decreases |cs|
  {
    var earlier := cs[..|cs| - 1];
    if !IsFirst(ctx, cs, |cs| - 1) {
      RowPhonesAreDistinct(ctx, earlier, rows, skipped[..|skipped| - 1], j, k);
    } else if k < |rows| - 1 {
      RowPhonesAreDistinct(ctx, earlier, rows[..|rows| - 1], skipped, j, k);
    } else {
      var i := RowComesFromFirst(ctx, earlier, rows[..|rows| - 1], skipped, j);
    }
  }

  /** Whatever eligibility answers, every row is pending or skipped and no blacklisted phone is
      ever pending. */
  lemma NoBlacklistedPhoneIsPending(
    ctx: Context, cs: seq<Candidate>, rows: seq<Row>, skipped: seq<Skip>, k: nat)
    requires Splits(ctx, cs, rows, skipped) && k < |rows|
    ensures rows[k].status.Pending? || rows[k].status.Skipped?
    ensures rows[k].phone in ctx.blacklist ==> rows[k].status.Skipped?
  {
    var i := RowComesFromFirst(ctx, cs, rows, skipped, k);
  }

  // ---- With the eligibility of this repository ----------------------------------------------------

  /** The send eligibility for purpose "campaign" without a template. */
  function CampaignEligibility(senderOk: bool): (Standing, string, bool) -> Verdict {
    (standing: Standing, phone: string, blacklisted: bool) =>
      if !senderOk then Verdict(false, ConfigurationError)
      else if phone == "" || phone[0] != '+' then Verdict(false, InvalidRecipient)
      else if blacklisted || standing.consent.OptedOut? then Verdict(false, ConsentBlocked)
      else if !standing.consent.OptedIn? then Verdict(false, ConsentRequired)
      else if !standing.windowOpen then Verdict(false, WindowClosed)
      else Verdict(true, Fine)
  }

  /** Why a row is refused. With a configured sender: blocked when phone or lead is blacklisted or the
      lead has opted out, else unless the lead has opted in. Without one: only for a listed phone. */
  lemma RefusalIsConsent(ctx: Context, senderOk: bool, phone: string, lead: Option<Lead>)
    requires ctx.eligibility == CampaignEligibility(senderOk)
    requires phone != "" && phone[0] == '+'
    ensures Refusal(ctx, phone, lead) ==
            if !senderOk then (if phone in ctx.blacklist then Some(Blacklisted) else None)
            else if phone in ctx.blacklist
                    || (lead.Some? && (lead.value.standing.blacklisted || lead.value.standing.consent.OptedOut?))
            then Some(Refused(ConsentBlocked))
            else if lead.None? || !lead.value.standing.consent.OptedIn? then Some(Refused(ConsentRequired))
            else None
  {
  }

  /** With a configured sender a row is pending exactly when the first candidate with its phone is
      a lead who has opted in, and neither lead nor phone is blacklisted. Without one every phone
      off the blacklist is pending, even that of a lead who has opted out. */
  lemma PendingMeansOptedIn(
    ctx: Context, senderOk: bool, cs: seq<Candidate>, rows: seq<Row>, skipped: seq<Skip>, k: nat)
    returns (i: nat)
    requires ctx.eligibility == CampaignEligibility(senderOk)
    requires forall raw :: ctx.normalize(raw).Some? ==> |ctx.normalize(raw).value| > 0 && ctx.normalize(raw).value[0] == '+'
    requires Splits(ctx, cs, rows, skipped) && k < |rows|
    ensures i < |cs| && IsFirst(ctx, cs, i) && PhoneOf(ctx, cs[i]) == Some(rows[k].phone)
    ensures rows[k].status.Pending? <==>
            && rows[k].phone !in ctx.blacklist
            && (senderOk ==>
                  && cs[i].lead.Some?
                  && cs[i].lead.value.standing.consent.OptedIn?
                  && !cs[i].lead.value.standing.blacklisted)
  {
    hide Refusal;
    i := RowComesFromFirst(ctx, cs, rows, skipped, k);
    RefusalIsConsent(ctx, senderOk, rows[k].phone, cs[i].lead);
  }
}
