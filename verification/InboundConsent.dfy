/** STOP and START over whole runs: the inbound pipeline for one tenant
    (app/services/inbound_whatsapp.py, app/services/consent_ops.py,
    app/services/whatsapp_consent.py), one delivery at a time. */
module InboundConsent {
  import opened Common
  import C = Campaigns
  import D = InboundDelivery
  import I = LeadImport

  datatype Lead = Lead(consent: Consent, blacklisted: bool, aiPaused: bool, takenOver: bool)

  const NEW_LEAD := Lead(NoConsent, false, false, false)

  datatype Settings = Settings(allowReoptin: bool, aiConfigured: bool, tenantAi: bool, replyWindowHours: int)

  /** A parsed webhook. `phone` is the sender in E.164, if valid; `tenant` and `fromSelf` are what
      tenant routing and the sender check answer; `optout` and `optin` say whether the whole text
      is a keyword of that list. */
  datatype Inbound = Inbound(
    key: D.Key,
    phone: Option<string>,
    tenant: bool,
    fromSelf: bool,
    optout: bool,
    optin: bool,
    skipOutbound: bool,
    skipAi: bool,
    now: int)

  datatype Outcome =
    | MissingId | DuplicateDelivery | InvalidPhone | NoTenant | SelfSender | Blocked
    | OptOutDone | OptinIgnored | Accepted

  datatype Flags = Flags(welcome: bool, classify: bool, ai: bool)

  const NO_JOBS := Flags(false, false, false)

  datatype Result = Result(outcome: Outcome, flags: Flags)

  datatype Row = Row(key: D.Key, phone: string)

  datatype State = State(
    events: set<D.Key>,
    messages: seq<Row>,
    leads: map<string, Lead>,
    blacklist: set<string>,
    world: C.World)

  // ---- One delivery ---------------------------------------------------------------------------------

  predicate PassesClaim(events: set<D.Key>, key: D.Key) {
    if key.provider.OtherProvider? then false
    else if key.id == "" then key.provider.Twilio?
    else key !in events
  }

  function EventsAfterClaim(events: set<D.Key>, key: D.Key): set<D.Key> {
    if PassesClaim(events, key) && key.id != "" then events + {key} else events
  }

  /** The unique index on (provider, provider_message_id) raises for this row. */
  predicate RowExists(messages: seq<Row>, key: D.Key) {
    D.Indexed(key) && exists i :: 0 <= i < |messages| && messages[i].key == key
  }

  function LeadAt(leads: map<string, Lead>, phone: string): Lead {
    if phone in leads then leads[phone] else NEW_LEAD
  }

  function WithConsent(lead: Lead, status: Consent): Lead {
    match status
    case OptedIn => lead.(consent := OptedIn, blacklisted := false)
    case OptedOut => lead.(consent := OptedOut, blacklisted := true, aiPaused := true)
    case _ => lead.(consent := status)
  }

  /** A consent change of the lead with this phone, with the blacklist and its open recipients. */
  function ConsentChanged(s: State, phone: string, status: Consent, now: int): State {
    if phone !in s.leads then s
    else
      var t := s.(leads := s.leads[phone := WithConsent(s.leads[phone], status)]);
      match status
      case OptedOut =>
        t.(blacklist := s.blacklist + {phone}, world := C.After(s.world, C.OptOut(phone, now)))
      case OptedIn => t.(blacklist := s.blacklist - {phone})
      case _ => t
  }

  lemma ConsentOfLead(s: State, phone: string, status: Consent, now: int)
    requires phone in s.leads
    ensures var t := ConsentChanged(s, phone, status, now);
            phone in t.leads && t.leads[phone] == WithConsent(s.leads[phone], status)
  {
  }

  /** The message row is in and the reply attributed. */
  function Received(s: State, settings: Settings, m: Inbound, phone: string): State {
    s.(messages := s.messages + [Row(m.key, phone)],
    leads := s.leads[phone := LeadAt(s.leads, phone)],
    world := C.After(s.world, C.Reply(phone, m.now, settings.replyWindowHours)))
  }

  function Jobs(settings: Settings, m: Inbound, isNew: bool, lead: Lead): Flags {
    Flags(
      isNew && !m.skipOutbound,
      !m.skipAi,
      && !m.skipAi && settings.aiConfigured && settings.tenantAi
      && !lead.aiPaused && !lead.takenOver && !lead.blacklisted && !lead.consent.OptedOut?)
  }

  /** What stops a delivery before its row is stored. */
  function Refusal(s: State, settings: Settings, m: Inbound): Option<Outcome> {
    if !PassesClaim(s.events, m.key) then
      Some(if m.key == D.Key(D.Meta, "") then MissingId else DuplicateDelivery)
    else if m.phone.None? then Some(InvalidPhone)
    else if !m.tenant then Some(NoTenant)
    else if m.fromSelf then Some(SelfSender)
    else if m.phone.value in s.blacklist && !(m.optin && settings.allowReoptin) then Some(Blocked)
    else if RowExists(s.messages, m.key) then Some(DuplicateDelivery)
    else None
  }

  function Outcomes(settings: Settings, m: Inbound): Outcome {
    if m.optout then OptOutDone
    else if m.optin && !settings.allowReoptin then OptinIgnored
    else Accepted
  }

  function Answer(s: State, settings: Settings, m: Inbound): Result {
    var refusal := Refusal(s, settings, m);
    if refusal.Some? then Result(refusal.value, NO_JOBS)
    else
      var outcome := Outcomes(settings, m);
      var phone := m.phone.value;
      var lead := LeadAt(s.leads, phone);
      Result(
        outcome,
        if !outcome.Accepted? then NO_JOBS
        else Jobs(settings, m, phone !in s.leads, if m.optin then WithConsent(lead, OptedIn) else lead))
  }

  function Process(s: State, settings: Settings, m: Inbound): State {
    var claimed := s.(events := EventsAfterClaim(s.events, m.key));
    match Refusal(s, settings, m)
    case Some(outcome) =>
      if PassesClaim(s.events, m.key) && outcome.DuplicateDelivery? then
        claimed.(leads := s.leads[m.phone.value := LeadAt(s.leads, m.phone.value)])
      else claimed
    case None =>
      var phone := m.phone.value;
      var received := Received(claimed, settings, m, phone);
      if m.optout then ConsentChanged(received, phone, OptedOut, m.now)
      else if m.optin && settings.allowReoptin then ConsentChanged(received, phone, OptedIn, m.now)
      else received
  }

  /** The stored documents and the pipeline over them. */
  class Pipeline {
    const settings: Settings
    const store: C.CampaignStore
    var events: set<D.Key>
    var messages: seq<Row>
    var leads: map<string, Lead>
    var blacklist: set<string>

    constructor (settings: Settings, store: C.CampaignStore)
      ensures this.settings == settings && this.store == store
      ensures Current() == State({}, [], map[], {}, store.Current())
    {
      this.settings, this.store := settings, store;
      events, messages, leads, blacklist := {}, [], map[], {};
    }

    function Current(): State
      reads this, store
    {
      State(events, messages, leads, blacklist, store.Current())
    }

    method ClaimWebhookEvent(key: D.Key) returns (claimed: bool)
      modifies `events
      ensures claimed == PassesClaim(old(events), key)
      ensures events == EventsAfterClaim(old(events), key)
    {
      if key.provider.Twilio? && key.id == "" {
        return true;
      }
      if key.provider.OtherProvider? || key.id == "" || key in events {
        return false;
      }
      events := events + {key};
      return true;
    }

    method ApplyConsentChange(phone: string, status: Consent, now: int)
      modifies this`leads, this`blacklist, store
      ensures Current() == ConsentChanged(old(Current()), phone, status, now)
    {
      if phone !in leads {
        return;
      }
      var fields := leads[phone].(consent := status);
      if status.OptedIn? {
        fields := fields.(blacklisted := false);
      } else if status.OptedOut? {
        fields := fields.(blacklisted := true, aiPaused := true);
      }
      leads := leads[phone := fields];
      if status.OptedOut? {
        blacklist := blacklist + {phone};
        store.CancelPendingForPhone(phone, now);
      } else if status.OptedIn? {
        blacklist := blacklist - {phone};
      }
    }

    method AskForJobs(m: Inbound, isNew: bool, lead: Lead) returns (flags: Flags)
      ensures flags == Jobs(settings, m, isNew, lead)
    {
      var ai := false;
      if !m.skipAi && settings.aiConfigured && !(lead.aiPaused || lead.takenOver)
         && !lead.blacklisted && !lead.consent.OptedOut? {
        if settings.tenantAi {
          ai := true;
        }
      }
      return Flags(isNew && !m.skipOutbound, !m.skipAi, ai);
    }

    method ProcessInboundMessage(m: Inbound) returns (result: Result)
      modifies this, store
      ensures result == Answer(old(Current()), settings, m)
      ensures Current() == Process(old(Current()), settings, m)
    {
      hide C.After, Jobs, ConsentChanged, WithConsent, RowExists;
      if m.key.provider.Meta? && m.key.id == "" {
        return Result(MissingId, NO_JOBS);
      }
      var claimed := ClaimWebhookEvent(m.key);
      if !claimed {
        return Result(DuplicateDelivery, NO_JOBS);
      }
      if m.phone.None? {
        return Result(InvalidPhone, NO_JOBS);
      }
      if !m.tenant {
        return Result(NoTenant, NO_JOBS);
      }
      if m.fromSelf {
        return Result(SelfSender, NO_JOBS);
      }
      var phone := m.phone.value;
      if phone in blacklist && !(m.optin && settings.allowReoptin) {
        return Result(Blocked, NO_JOBS);
      }
      var isNew := phone !in leads;
      if isNew {
        leads := leads[phone := NEW_LEAD];
      }
      if RowExists(messages, m.key) {
        return Result(DuplicateDelivery, NO_JOBS);
      }
      messages := messages + [Row(m.key, phone)];
      store.AttributeCampaignReply(phone, m.now, settings.replyWindowHours);
      assert Current() == Received(old(Current()).(events := events), settings, m, phone);
      if m.optout {
        ApplyConsentChange(phone, OptedOut, m.now);
        return Result(OptOutDone, NO_JOBS);
      }
      if m.optin && settings.allowReoptin {
        ConsentOfLead(Current(), phone, OptedIn, m.now);
        ApplyConsentChange(phone, OptedIn, m.now);
      } else if m.optin {
        return Result(OptinIgnored, NO_JOBS);
      }
      var flags := AskForJobs(m, isNew, leads[phone]);
      return Result(Accepted, flags);
    }
  }

  // ---- Consent in one delivery ----------------------------------------------------------------------

  /** A phone is on the blacklist exactly when its lead is opted out, and the lead says so too. */
  ghost predicate Consistent(s: State) {
    forall phone :: PhoneConsistent(s, phone)
  }

  predicate PhoneConsistent(s: State, phone: string) {
    && (phone in s.blacklist <==> phone in s.leads && s.leads[phone].consent.OptedOut?)
    && (phone in s.leads ==> (s.leads[phone].blacklisted <==> s.leads[phone].consent.OptedOut?))
  }

  /** Is this stored message a STOP, or a START that counts? */
  predicate Stops(s: State, settings: Settings, m: Inbound, phone: string) {
    Refusal(s, settings, m).None? && m.phone == Some(phone) && m.optout
  }

  predicate Restarts(s: State, settings: Settings, m: Inbound, phone: string) {
    Refusal(s, settings, m).None? && m.phone == Some(phone) && !m.optout && m.optin && settings.allowReoptin
  }

  /** The only ways onto and off the blacklist. */
  lemma BlacklistFollowsKeywords(s: State, settings: Settings, m: Inbound, phone: string)
    ensures phone in Process(s, settings, m).blacklist <==>
            Stops(s, settings, m, phone) || (phone in s.blacklist && !Restarts(s, settings, m, phone))
  {
  }

  lemma ProcessKeepsConsistent(s: State, settings: Settings, m: Inbound, phone: string)
    requires PhoneConsistent(s, phone)
    ensures PhoneConsistent(Process(s, settings, m), phone)
  {
    hide C.After;
  }

  /** A stored STOP opts the lead out, pauses its AI, blacklists the phone, leaves no recipient open
      for it and asks for no job. */
  lemma StopTakesEffect(s: State, settings: Settings, m: Inbound, phone: string)
    requires Stops(s, settings, m, phone)
    ensures var t := Process(s, settings, m);
            && phone in t.blacklist && phone in t.leads
            && t.leads[phone] == Lead(OptedOut, true, true, LeadAt(s.leads, phone).takenOver)
            && NothingOpenAt(t.world.recipients, phone)
    ensures Answer(s, settings, m) == Result(OptOutDone, NO_JOBS)
  {
  }

  /** A stored, allowed START takes the phone off the blacklist and opts its lead in, but leaves the
      lead's AI paused or not as it was. */
  lemma StartTakesEffect(s: State, settings: Settings, m: Inbound, phone: string)
    requires Restarts(s, settings, m, phone)
    ensures var t := Process(s, settings, m);
            && phone !in t.blacklist && phone in t.leads
            && t.leads[phone] == LeadAt(s.leads, phone).(consent := OptedIn, blacklisted := false)
  {
  }

  predicate NothingOpenAt(rs: C.Recipients, phone: string) {
    forall i :: 0 <= i < |rs| && rs[i].phone == phone ==> !C.IsOpen(rs[i].status)
  }

  // ---- What one delivery does, from its input --------------------------------------------------------

  /** A claim nobody made yet. */
  predicate IsNew(s: State, key: D.Key) {
    !key.provider.OtherProvider? && if key.id == "" then key.provider.Twilio? else key !in s.events
  }

  /** Does the delivery get as far as the lead of its sender? */
  predicate ReachesLead(s: State, settings: Settings, m: Inbound) {
    && IsNew(s, m.key) && m.phone.Some? && m.tenant && !m.fromSelf
    && (m.phone.value in s.blacklist ==> m.optin && settings.allowReoptin)
  }

  /** And is its message stored? */
  predicate Admits(s: State, settings: Settings, m: Inbound) {
    && ReachesLead(s, settings, m)
    && (m.key.id != "" ==> forall i :: 0 <= i < |s.messages| ==> s.messages[i].key != m.key)
  }

  /** The outcome of every delivery, and what it stores: the event exactly when the claim is new and
      has an id, the message exactly when it is admitted. */
  lemma DeliveryAnswers(s: State, settings: Settings, m: Inbound)
    ensures var t := Process(s, settings, m);
            && t.messages == s.messages + (if Admits(s, settings, m) then [Row(m.key, m.phone.value)] else [])
            && t.events == s.events + (if IsNew(s, m.key) && m.key.id != "" then {m.key} else {})
    ensures Answer(s, settings, m).outcome ==
            if Admits(s, settings, m) then
              (if m.optout then OptOutDone else if m.optin && !settings.allowReoptin then OptinIgnored else Accepted)
            else if m.key.provider.Meta? && m.key.id == "" then MissingId
            else if !IsNew(s, m.key) then DuplicateDelivery
            else if m.phone.None? then InvalidPhone
            else if !m.tenant then NoTenant
            else if m.fromSelf then SelfSender
            else if !ReachesLead(s, settings, m) then Blocked
            else DuplicateDelivery
    ensures Refusal(s, settings, m).None? <==> Admits(s, settings, m)
    ensures Admits(s, settings, m) ==> m.phone.Some?
  {
    hide C.After;
  }

  /** The sender's lead: created blank when the delivery first reaches it, and then as STOP, an
      allowed START or neither leaves it. */
  lemma DeliveryLeavesLead(s: State, settings: Settings, m: Inbound)
    requires m.phone.Some?
    ensures var t, phone := Process(s, settings, m), m.phone.value;
            var before := if phone in s.leads then s.leads[phone] else Lead(NoConsent, false, false, false);
            && t.leads.Keys == s.leads.Keys + (if ReachesLead(s, settings, m) then {phone} else {})
            && (phone in t.leads ==>
                  t.leads[phone] ==
                  if !Admits(s, settings, m) then before
                  else if m.optout then Lead(OptedOut, true, true, before.takenOver)
                  else if m.optin && settings.allowReoptin then before.(consent := OptedIn, blacklisted := false)
                  else before)
  {
    hide C.After;
    DeliveryAnswers(s, settings, m);
  }

  /** A recipient the message may be the reply of. */
  predicate Awaits(r: C.Recipient, phone: string, since: int) {
    && r.phone == phone && r.status in {C.Sent, C.Delivered, C.Read}
    && r.updatedAt >= since && r.repliedAt.None?
  }

  /** Recipient `j` becomes replied, a STOP cancels what is open at the phone, and nobody else moves. */
  ghost predicate OnlyReplyAndStop(
    before: C.Recipients, after: C.Recipients, j: Option<nat>, stop: bool, phone: Option<string>, now: int) {
    && |after| == |before|
    && forall i :: 0 <= i < |before| ==>
         after[i] ==
         if j == Some(i) then before[i].(status := C.Replied, updatedAt := now, repliedAt := Some(now))
         else if stop && Some(before[i].phone) == phone && C.IsOpen(before[i].status)
         then before[i].(status := C.Cancelled, updatedAt := now)
         else before[i]
  }

  lemma ReplyThenStop(w: C.World, a: C.Action, j: Option<nat>, stop: bool)
    requires a.Reply? && j == C.ReplyTarget(w.recipients, a.phone, C.Since(a.now, a.windowHours))
    ensures var replied := C.After(w, a);
            var t := if stop then C.After(replied, C.OptOut(a.phone, a.now)) else replied;
            && OnlyReplyAndStop(w.recipients, t.recipients, j, stop, Some(a.phone), a.now)
            && t.campaigns == replied.campaigns
  {
    assert !C.IsOpen(C.Replied);
    WorldAfterReply(w, a, j);
    WorldAfterOptOut(C.After(w, a), a.phone, a.now);
    hide C.After, C.ReplyTarget, C.IsOpen;
  }

  /** What a delivery does to the campaigns. If it is admitted and some recipient of its sender awaits
      a reply in the window, exactly one of those, last updated, becomes replied and its campaign
      counts one reply more. A STOP then cancels what is open for the sender. Nothing else moves. */
  lemma ReplyIsAttributed(s: State, settings: Settings, m: Inbound) returns (j: Option<nat>)
    ensures var w, t := s.world, Process(s, settings, m).world;
            var since := m.now - Max(1, settings.replyWindowHours) * 3600;
            && (j.Some? <==>
                  && Admits(s, settings, m)
                  && exists i :: 0 <= i < |w.recipients| && Awaits(w.recipients[i], m.phone.value, since))
            && (j.Some? ==>
                  && j.value < |w.recipients| && Awaits(w.recipients[j.value], m.phone.value, since)
                  && (forall i :: 0 <= i < |w.recipients| && Awaits(w.recipients[i], m.phone.value, since) ==>
                        w.recipients[i].updatedAt <= w.recipients[j.value].updatedAt))
            && OnlyReplyAndStop(w.recipients, t.recipients, j, Admits(s, settings, m) && m.optout, m.phone, m.now)
            && t.campaigns == (if j.Some? && w.recipients[j.value].campaign in w.campaigns then
                                 var cid := w.recipients[j.value].campaign;
                                 var c := w.campaigns[cid];
                                 w.campaigns[cid := c.(counters := c.counters.(replied := c.counters.replied + 1))]
                               else w.campaigns)
  {
    hide C.After, C.ReplyTarget, C.Since, Awaits, Process, Refusal, Admits;
    DeliveryAnswers(s, settings, m);
    WorldOfDelivery(s, settings, m);
    if Admits(s, settings, m) {
      var reply := C.Reply(m.phone.value, m.now, settings.replyWindowHours);
      j := NewestAwaiting(s.world.recipients, m.phone.value, m.now, settings.replyWindowHours);
      WorldAfterReply(s.world, reply, j);
      ReplyThenStop(s.world, reply, j, m.optout);
      hide OnlyReplyAndStop;
    } else {
      j := None;
    }
  }

  lemma NewestAwaiting(rs: C.Recipients, phone: string, now: int, windowHours: int) returns (j: Option<nat>)
    ensures j == C.ReplyTarget(rs, phone, C.Since(now, windowHours))
    ensures var since := now - Max(1, windowHours) * 3600;
            && (j.Some? <==> exists i :: 0 <= i < |rs| && Awaits(rs[i], phone, since))
            && (j.Some? ==>
                  && j.value < |rs| && Awaits(rs[j.value], phone, since)
                  && forall i :: 0 <= i < |rs| && Awaits(rs[i], phone, since) ==> rs[i].updatedAt <= rs[j.value].updatedAt)
  {
    var since := C.Since(now, windowHours);
    j := C.ReplyTarget(rs, phone, since);
    forall i | 0 <= i < |rs|
      ensures Awaits(rs[i], phone, since) <==> C.AwaitsReply(rs[i], phone, since)
    {
    }
  }

  lemma WorldOfDelivery(s: State, settings: Settings, m: Inbound)
    ensures Refusal(s, settings, m).None? ==>
              m.phone.Some? &&
              var reply := C.Reply(m.phone.value, m.now, settings.replyWindowHours);
              var replied := C.After(s.world, reply);
              Process(s, settings, m).world ==
              if m.optout then C.After(replied, C.OptOut(m.phone.value, m.now)) else replied
    ensures Refusal(s, settings, m).Some? ==> Process(s, settings, m).world == s.world
  {
    hide C.After;
  }

  lemma WorldAfterReply(w: C.World, a: C.Action, j: Option<nat>)
    requires a.Reply? && j == C.ReplyTarget(w.recipients, a.phone, C.Since(a.now, a.windowHours))
    ensures var t := C.After(w, a);
            && t.recipients ==
               (if j.None? then w.recipients
                else w.recipients[j.value := w.recipients[j.value].(
                                  status := C.Replied, updatedAt := a.now, repliedAt := Some(a.now))])
            && t.campaigns == (if j.Some? && w.recipients[j.value].campaign in w.campaigns then
                                 var cid := w.recipients[j.value].campaign;
                                 var c := w.campaigns[cid];
                                 w.campaigns[cid := c.(counters := c.counters.(replied := c.counters.replied + 1))]
                               else w.campaigns)
  {
  }

  lemma WorldAfterOptOut(w: C.World, phone: string, now: int)
    ensures var t := C.After(w, C.OptOut(phone, now));
            && t.campaigns == w.campaigns && |t.recipients| == |w.recipients|
            && forall i :: 0 <= i < |w.recipients| ==>
                 var r := w.recipients[i];
                 t.recipients[i] == if r.phone == phone && C.IsOpen(r.status)
                                    then r.(status := C.Cancelled, updatedAt := now) else r
  {
  }

  /** A message from a blacklisted phone that is not an allowed opt-in changes nothing but the
      claim: no row, no lead, no attributed reply, no job. */
  lemma BlockedMessageIsDropped(s: State, settings: Settings, m: Inbound)
    requires m.phone.Some? && m.phone.value in s.blacklist
    requires !(m.optin && settings.allowReoptin)
    ensures Process(s, settings, m) == s.(events := EventsAfterClaim(s.events, m.key))
    ensures Answer(s, settings, m).flags == NO_JOBS && Refusal(s, settings, m).Some?
  {
  }

  /** Every recipient keeps its phone, and only those of `phone` may change. */
  ghost predicate OnlyAt(phone: Option<string>, before: C.Recipients, after: C.Recipients) {
    && |after| == |before|
    && forall i :: 0 <= i < |before| ==>
         && after[i].phone == before[i].phone
         && (Some(before[i].phone) != phone ==> after[i] == before[i])
  }

  lemma ActionOnlyAt(w: C.World, a: C.Action, phone: string)
    requires (a.Reply? || a.OptOut?) && a.phone == phone
    ensures OnlyAt(Some(phone), w.recipients, C.After(w, a).recipients)
  {
  }

  lemma RecipientsOfSenderOnly(s: State, settings: Settings, m: Inbound)
    ensures OnlyAt(m.phone, s.world.recipients, Process(s, settings, m).world.recipients)
  {
    hide C.After;
    if m.phone.Some? {
      var reply := C.Reply(m.phone.value, m.now, settings.replyWindowHours);
      ActionOnlyAt(s.world, reply, m.phone.value);
      ActionOnlyAt(C.After(s.world, reply), C.OptOut(m.phone.value, m.now), m.phone.value);
    }
  }

  /** A delivery is about its own sender only. */
  lemma OthersAreUntouched(s: State, settings: Settings, m: Inbound, phone: string)
    requires m.phone != Some(phone)
    ensures var t := Process(s, settings, m);
            && (phone in t.leads <==> phone in s.leads)
            && (phone in s.leads ==> t.leads[phone] == s.leads[phone])
            && (phone in t.blacklist <==> phone in s.blacklist)
            && RowsFrom(t.messages, phone) == RowsFrom(s.messages, phone)
            && OnlyAt(m.phone, s.world.recipients, t.world.recipients)
  {
    hide C.After;
    RecipientsOfSenderOnly(s, settings, m);
    if Refusal(s, settings, m).None? {
      assert (s.messages + [Row(m.key, m.phone.value)])[..|s.messages|] == s.messages;
    }
  }

  function RowsFrom(messages: seq<Row>, phone: string): nat {
    if messages == [] then 0
    else RowsFrom(messages[..|messages| - 1], phone) + if Last(messages).phone == phone then 1 else 0
  }

  /** Exactly when each job is asked for. All need a newly stored row that is neither a STOP nor an
      ignored START; a welcome goes to a new lead, and an AI reply to a lead that, as now stored,
      is not opted out, blacklisted, paused or taken over. */
  lemma JobsAreAskedWhen(s: State, settings: Settings, m: Inbound)
    ensures var t, flags := Process(s, settings, m), Answer(s, settings, m).flags;
            var stored := |t.messages| == |s.messages| + 1 && m.phone.Some? && m.phone.value in t.leads
                          && !m.optout && (m.optin ==> settings.allowReoptin);
            && (flags.welcome <==> stored && m.phone.value !in s.leads && !m.skipOutbound)
            && (flags.classify <==> stored && !m.skipAi)
            && (flags.ai <==> stored && !m.skipAi && settings.aiConfigured && settings.tenantAi
                              && var lead := t.leads[m.phone.value];
                                 !lead.consent.OptedOut? && !lead.blacklisted && !lead.aiPaused && !lead.takenOver)
  {
    hide C.After;
  }

  // ---- Whole runs -----------------------------------------------------------------------------------

  /** Deliveries, with the purge of old events and the campaign actions of the tenant in between. */
  datatype Event = Deliver(m: Inbound) | Purge(key: D.Key) | Campaign(action: C.Action)

  function After(s: State, settings: Settings, e: Event): State {
    match e
    case Deliver(m) => Process(s, settings, m)
    case Purge(key) => s.(events := s.events - {key})
    case Campaign(action) => s.(world := C.After(s.world, action))
  }

  function Run(s: State, settings: Settings, events: seq<Event>): State
    decreases |events|
  {
    if events == [] then s else After(Run(s, settings, events[..|events| - 1]), settings, Last(events))
  }

  /** Over every run a phone is on the blacklist exactly when its lead is opted out. */
  lemma {:induction false} RunsKeepConsistent(s: State, settings: Settings, events: seq<Event>)
    requires Consistent(s)
    ensures Consistent(Run(s, settings, events))
    decreases |events|
  {
    if events != [] {
      var before := Run(s, settings, events[..|events| - 1]);
      RunsKeepConsistent(s, settings, events[..|events| - 1]);
      forall phone
        ensures PhoneConsistent(After(before, settings, Last(events)), phone)
      {
        assert PhoneConsistent(before, phone);
        if Last(events).Deliver? {
          ProcessKeepsConsistent(before, settings, Last(events).m, phone);
        }
      }
    }
  }

  predicate AllowedOptin(settings: Settings, e: Event, phone: string) {
    e.Deliver? && e.m.phone == Some(phone) && e.m.optin && settings.allowReoptin
  }

  /** After STOP, until an allowed opt-in keyword: the phone stays blacklisted, none of its messages
      is stored, and its next message is dropped whole. */
  lemma {:induction false} StopHoldsUntilOptin(
    s: State, settings: Settings, events: seq<Event>, phone: string, next: Inbound)
    requires phone in s.blacklist
    requires forall k :: 0 <= k < |events| ==> !AllowedOptin(settings, events[k], phone)
    requires next.phone == Some(phone) && !AllowedOptin(settings, Deliver(next), phone)
    ensures var t := Run(s, settings, events);
            && phone in t.blacklist
            && RowsFrom(t.messages, phone) == RowsFrom(s.messages, phone)
            && Process(t, settings, next) == t.(events := EventsAfterClaim(t.events, next.key))
            && Answer(t, settings, next).flags == NO_JOBS
    decreases |events|
  {
    if events != [] {
      var before := Run(s, settings, events[..|events| - 1]);
      StopHoldsUntilOptin(s, settings, events[..|events| - 1], phone, next);
      match Last(events)
      case Deliver(m) =>
        if m.phone == Some(phone) {
          BlockedMessageIsDropped(before, settings, m);
        } else {
          OthersAreUntouched(before, settings, m, phone);
        }
      case _ =>
    }
    BlockedMessageIsDropped(Run(s, settings, events), settings, next);
  }

  lemma PauseIsKept(s: State, settings: Settings, e: Event, phone: string)
    requires phone in s.leads && s.leads[phone].aiPaused
    ensures var t := After(s, settings, e);
            && phone in t.leads && t.leads[phone].aiPaused
            && (e.Deliver? && e.m.phone == Some(phone) ==> !Answer(s, settings, e.m).flags.ai)
  {
  }

  /** A STOP silences the AI for good: START opts the lead in again, but nothing in this pipeline
      lifts the pause, so no later message of that phone asks for an AI reply. */
  lemma {:induction false} StopSilencesAi(
    s: State, settings: Settings, events: seq<Event>, phone: string, next: Inbound)
    requires phone in s.leads && s.leads[phone].aiPaused
    requires next.phone == Some(phone)
    ensures !Answer(Run(s, settings, events), settings, next).flags.ai
    ensures var t := Run(s, settings, events); phone in t.leads && t.leads[phone].aiPaused
    decreases |events|
  {
    if events != [] {
      StopSilencesAi(s, settings, events[..|events| - 1], phone, next);
      PauseIsKept(Run(s, settings, events[..|events| - 1]), settings, Last(events), phone);
    }
    PauseIsKept(Run(s, settings, events), settings, Deliver(next), phone);
  }

  // ---- Open recipients of opted-out phones ------------------------------------------------------------

  ghost predicate NothingOpenOnBlacklist(s: State) {
    forall phone :: phone in s.blacklist ==> NothingOpenAt(s.world.recipients, phone)
  }

  lemma ActionReopensNobody(w: C.World, a: C.Action, phone: string)
    requires NothingOpenAt(w.recipients, phone) && !a.RetryFailed?
    ensures NothingOpenAt(C.After(w, a).recipients, phone)
  {
    var rs := C.After(w, a).recipients;
    forall i | 0 <= i < |rs| && rs[i].phone == phone
      ensures !C.IsOpen(rs[i].status)
    {
      C.RecipientsProgress(w, a, i);
    }
  }

  lemma ProcessReopensNobody(s: State, settings: Settings, m: Inbound, phone: string)
    requires phone in s.blacklist ==> NothingOpenAt(s.world.recipients, phone)
    ensures var t := Process(s, settings, m);
            phone in t.blacklist ==> NothingOpenAt(t.world.recipients, phone)
  {
    if Stops(s, settings, m, phone) {
      StopTakesEffect(s, settings, m, phone);
    } else if m.phone != Some(phone) {
      OthersAreUntouched(s, settings, m, phone);
    } else {
      BlacklistFollowsKeywords(s, settings, m, phone);
    }
  }

  /** As long as no campaign's failed recipients are retried, a blacklisted phone has no open
      recipient in any campaign. */
  lemma {:induction false} RunsLeaveNothingOpen(s: State, settings: Settings, events: seq<Event>)
    requires NothingOpenOnBlacklist(s)
    requires forall k :: 0 <= k < |events| ==> !(events[k].Campaign? && events[k].action.RetryFailed?)
    ensures NothingOpenOnBlacklist(Run(s, settings, events))
    decreases |events|
  {
    if events != [] {
      var before := Run(s, settings, events[..|events| - 1]);
      RunsLeaveNothingOpen(s, settings, events[..|events| - 1]);
      forall phone | phone in After(before, settings, Last(events)).blacklist
        ensures NothingOpenAt(After(before, settings, Last(events)).world.recipients, phone)
      {
        match Last(events)
        case Deliver(m) => ProcessReopensNobody(before, settings, m, phone);
        case Purge(_) =>
        case Campaign(a) => ActionReopensNobody(before.world, a, phone);
      }
    }
  }

  /** A retry does not look at the blacklist: it opens a recipient for an opted-out phone exactly
      when one of the failed recipients it requeues has such a phone. */
  lemma RetryReopensOptedOut(s: State, settings: Settings, cid: C.CampaignId, now: int)
    requires NothingOpenOnBlacklist(s)
    ensures var a := C.RetryFailed(cid, now);
            NothingOpenOnBlacklist(After(s, settings, Campaign(a))) <==>
              (C.Accepted(s.world, a) ==>
                 forall i :: 0 <= i < |s.world.recipients| && C.WithStatus(cid, C.Failed)(s.world.recipients[i]) ==>
                   s.world.recipients[i].phone !in s.blacklist)
  {
    var a := C.RetryFailed(cid, now);
    var rs, ts := s.world.recipients, C.After(s.world, a).recipients;
    if C.Accepted(s.world, a) {
      forall i | 0 <= i < |rs| && C.WithStatus(cid, C.Failed)(rs[i]) && rs[i].phone in s.blacklist
        ensures !NothingOpenAt(ts, rs[i].phone)
      {
        assert ts[i].phone == rs[i].phone && C.IsOpen(ts[i].status);
      }
    }
  }

  // ---- Where an import leaves the blacklist behind ------------------------------------------------------

  /** The leads of this pipeline as the import sees them. */
  ghost predicate Mirrors(leads: map<string, Lead>, docs: I.Leads) {
    && leads.Keys == docs.Keys
    && forall phone :: phone in leads ==>
         && leads[phone].consent == docs[phone].consent
         && leads[phone].blacklisted == docs[phone].blacklisted
         && leads[phone].aiPaused == docs[phone].aiPaused
  }

  /** An import opts leads out without writing the blacklist: what every run of deliveries keeps, an
      import keeps exactly when no row of the file opts out a phone that is off the blacklist. */
  lemma ImportKeepsConsistentWhen(
    s: State, t: State, env: I.Env, policy: I.Policy, docs: I.Leads, rows: seq<I.Row>)
    requires Consistent(s) && Mirrors(s.leads, docs)
    requires t.blacklist == s.blacklist && Mirrors(t.leads, I.Import(env, policy, docs, rows).leads)
    ensures Consistent(t) <==>
            forall k :: 0 <= k < |rows| && I.OptsOut(env, policy, docs, rows, k) ==>
              env.phone(rows[k].phone).value in s.blacklist
  {
    hide I.Import;
    if Consistent(t) {
      forall k | 0 <= k < |rows| && I.OptsOut(env, policy, docs, rows, k)
        ensures env.phone(rows[k].phone).value in s.blacklist
      {
        var phone := env.phone(rows[k].phone).value;
        assert PhoneConsistent(s, phone) && PhoneConsistent(t, phone);
        I.OptOutNeedsRow(env, policy, docs, rows, phone);
      }
    }
    if forall k :: 0 <= k < |rows| && I.OptsOut(env, policy, docs, rows, k) ==>
                     env.phone(rows[k].phone).value in s.blacklist {
      forall phone
        ensures PhoneConsistent(t, phone)
      {
        assert PhoneConsistent(s, phone);
        I.OptOutNeedsRow(env, policy, docs, rows, phone);
      }
    }
  }

  // ---- The claim ----------------------------------------------------------------------------------------

  /** One delivery's claim with nobody else moving. */
  function UndisturbedClaim(s: D.State, w: nat): D.State
    requires w < |s.deliveries| && s.deliveries[w].stage.Waiting?
  {
    var found := D.After(s, D.Find(w));
    if found.deliveries[w].stage.Absent? then D.After(found, D.InsertEvent(w)) else found
  }

  /** The commands of the claim, taken together, decide and write what `ClaimWebhookEvent` does. */
  lemma UndisturbedClaimIsClaim(s: D.State, w: nat)
    requires w < |s.deliveries| && s.deliveries[w].stage.Waiting?
    ensures var t, key := UndisturbedClaim(s, w), s.deliveries[w].key;
            && |t.deliveries| == |s.deliveries|
            && t.deliveries[w].stage == (if PassesClaim(s.events.Keys, key) then D.Claimed(s.clock) else D.Refused)
            && t.events.Keys == EventsAfterClaim(s.events.Keys, key)
  {
  }
}
