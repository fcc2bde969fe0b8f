/** The life of campaigns and their recipients, and the counters that summarise them
    (app/routes/campaigns.py, app/services/campaign_service.py, app/services/consent_ops.py,
    app/services/inbound_whatsapp.py, app/services/status_callback.py), for one tenant. */
module Campaigns {
  import opened Common
  import D = DeliveryStatus

  type CampaignId = int

  datatype RecipientStatus =
    | Pending | Queued | Processing | Retrying
    | Sent | Delivered | Read | Replied
    | Failed | Skipped | Cancelled

  datatype Recipient = Recipient(
    campaign: CampaignId,
    phone: string,
    status: RecipientStatus,
    updatedAt: int,
    repliedAt: Option<int>)

  type Recipients = seq<Recipient>

  predicate IsOpen(s: RecipientStatus) {
    s.Pending? || s.Queued? || s.Processing? || s.Retrying?
  }

  /** Handed to the provider and not failed since. */
  predicate WentOut(s: RecipientStatus) {
    s.Sent? || s.Delivered? || s.Read? || s.Replied?
  }

  function Rank(s: RecipientStatus): int {
    match s
    case Pending => 0
    case Queued => 10
    case Processing => 20
    case Retrying => 25
    case Sent => 40
    case Delivered => 50
    case Read => 60
    case Replied => 70
    case Failed => 100
    case Skipped => 100
    case Cancelled => 100
  }

  predicate RecipientShouldApply(current: RecipientStatus, incoming: RecipientStatus) {
    if current == incoming then false
    else if current.Replied? && (incoming.Sent? || incoming.Delivered? || incoming.Read?) then false
    else if current.Read? && (incoming.Sent? || incoming.Delivered? || incoming.Queued? || incoming.Processing?) then false
    else if current.Delivered? && (incoming.Sent? || incoming.Queued? || incoming.Processing?) then false
    else if (current.Failed? || current.Skipped? || current.Cancelled?)
            && !(incoming.Retrying? || incoming.Queued? || incoming.Pending?)
            && (incoming.Sent? || incoming.Delivered? || incoming.Read?) then false
    else if incoming.Failed? && WentOut(current) then true
    else if incoming.Replied? then !current.Cancelled? && !current.Skipped?
    else Rank(incoming) >= Rank(current) || incoming.Failed? || incoming.Skipped? || incoming.Cancelled?
  }

  /** A provider status in the recipients' vocabulary. */
  function FromProvider(s: D.Status): RecipientStatus {
    match s
    case Queued => Sent
    case Accepted => Sent
    case Sending => Sent
    case Sent => Sent
    case Delivered => Delivered
    case Read => Read
    case Failed => Failed
    case Undelivered => Failed
    case Canceled => Cancelled
  }

  /** When an update applies, status by status. A recipient only moves on along the way to read; a
      reply counts unless it was counted or the recipient was cancelled or skipped; and every loss
      counts once. So nothing here brings a lost recipient back. */
  lemma AppliesExactly(current: RecipientStatus, incoming: RecipientStatus)
    ensures RecipientShouldApply(current, incoming) <==>
            match incoming
            case Pending => false
            case Queued => current == Pending
            case Processing => current in {Pending, Queued}
            case Retrying => current in {Pending, Queued, Processing}
            case Sent => current in {Pending, Queued, Processing, Retrying}
            case Delivered => current in {Pending, Queued, Processing, Retrying, Sent}
            case Read => current in {Pending, Queued, Processing, Retrying, Sent, Delivered}
            case Replied => current !in {Replied, Cancelled, Skipped}
            case _ => current != incoming
  {
  }

  // ---- Counters -------------------------------------------------------------------------------------

  datatype Counters = Counters(
    total: int,
    queued: int,
    processing: int,
    sent: int,
    delivered: int,
    read: int,
    failed: int,
    skipped: int,
    cancelled: int,
    replied: int)

  function Count(rs: Recipients, cid: CampaignId, s: RecipientStatus): nat {
    if rs == [] then 0
    else Count(rs[..|rs| - 1], cid, s) + if Last(rs).campaign == cid && Last(rs).status == s then 1 else 0
  }

  function Members(rs: Recipients, cid: CampaignId): nat {
    if rs == [] then 0
    else Members(rs[..|rs| - 1], cid) + if Last(rs).campaign == cid then 1 else 0
  }

  function OpenMembers(rs: Recipients, cid: CampaignId): nat {
    if rs == [] then 0
    else OpenMembers(rs[..|rs| - 1], cid) + if Last(rs).campaign == cid && IsOpen(Last(rs).status) then 1 else 0
  }

  function Recount(rs: Recipients, cid: CampaignId): Counters {
    var sent, delivered := Count(rs, cid, Sent), Count(rs, cid, Delivered);
    var read, replied := Count(rs, cid, Read), Count(rs, cid, Replied);
    Counters(
      Members(rs, cid),
      Count(rs, cid, Queued) + Count(rs, cid, Pending) + Count(rs, cid, Retrying),
      Count(rs, cid, Processing),
      sent + delivered + read + replied,
      delivered + read + replied,
      read + replied,
      Count(rs, cid, Failed),
      Count(rs, cid, Skipped),
      Count(rs, cid, Cancelled),
      replied)
  }

  /** The progress before rounding. */
  function Progress(c: Counters): real {
    if c.total <= 0 then 0.0
    else
      var percent := 100.0 * ((c.failed + c.skipped + c.cancelled + c.sent) as real) / (c.total as real);
      if percent < 100.0 then percent else 100.0
  }

  lemma {:induction false} StatusesPartition(rs: Recipients, cid: CampaignId)
    ensures var c := Recount(rs, cid);
            && c.queued + c.processing == OpenMembers(rs, cid)
            && c.queued + c.processing + c.sent + c.failed + c.skipped + c.cancelled == c.total
  {
    if rs != [] {
      StatusesPartition(rs[..|rs| - 1], cid);
    }
  }

  /** A recount agrees with the recipients: the statuses partition them, the success counters are
      nested, and the progress is the share that is no longer open. */
  lemma CountersAgree(rs: Recipients, cid: CampaignId)
    ensures var c := Recount(rs, cid);
            && c.queued + c.processing + c.sent + c.failed + c.skipped + c.cancelled == c.total == Members(rs, cid)
            && 0 <= c.replied <= c.read <= c.delivered <= c.sent
            && (c.total > 0 ==>
                  Progress(c) == 100.0 * ((c.total - OpenMembers(rs, cid)) as real) / (c.total as real))
  {
    StatusesPartition(rs, cid);
    hide Count, Members, OpenMembers;
    var c := Recount(rs, cid);
    if c.total > 0 {
      ShareIsAtMostAll(c.total - OpenMembers(rs, cid), c.total);
    }
  }

  /** How many recipients got at least this far and are not lost. */
  function GotTo(rs: Recipients, cid: CampaignId, stages: set<RecipientStatus>): nat {
    if rs == [] then 0
    else GotTo(rs[..|rs| - 1], cid, stages) + if Last(rs).campaign == cid && Last(rs).status in stages then 1 else 0
  }

  /** What each stored counter counts. */
  lemma CountersCount(rs: Recipients, cid: CampaignId)
    ensures var c := Recount(rs, cid);
            && c.queued == GotTo(rs, cid, {Pending, Queued, Retrying})
            && c.processing == GotTo(rs, cid, {Processing})
            && c.sent == GotTo(rs, cid, {Sent, Delivered, Read, Replied})
            && c.delivered == GotTo(rs, cid, {Delivered, Read, Replied})
            && c.read == GotTo(rs, cid, {Read, Replied})
            && c.replied == GotTo(rs, cid, {Replied})
            && c.failed == GotTo(rs, cid, {Failed})
            && c.skipped == GotTo(rs, cid, {Skipped})
            && c.cancelled == GotTo(rs, cid, {Cancelled})
  {
    hide GotTo, Count, Members;
    forall s: RecipientStatus
      ensures GotTo(rs, cid, {s}) == Count(rs, cid, s)
    {
      GotToMore(rs, cid, {}, s);
      assert {} + {s} == {s};
    }
    GotToMore(rs, cid, {Pending}, Queued);
    GotToMore(rs, cid, {Pending, Queued}, Retrying);
    GotToMore(rs, cid, {Replied}, Read);
    GotToMore(rs, cid, {Read, Replied}, Delivered);
    GotToMore(rs, cid, {Delivered, Read, Replied}, Sent);
    assert {Pending} + {Queued} == {Pending, Queued} && {Pending, Queued} + {Retrying} == {Pending, Queued, Retrying};
    assert {Replied} + {Read} == {Read, Replied} && {Read, Replied} + {Delivered} == {Delivered, Read, Replied};
    assert {Delivered, Read, Replied} + {Sent} == {Sent, Delivered, Read, Replied};
  }

  lemma {:induction false} GotToMore(rs: Recipients, cid: CampaignId, stages: set<RecipientStatus>, s: RecipientStatus)
    requires s !in stages
    ensures GotTo(rs, cid, stages + {s}) == GotTo(rs, cid, stages) + Count(rs, cid, s)
    ensures stages == {} ==> GotTo(rs, cid, stages) == 0
  {
    if rs != [] {
      GotToMore(rs[..|rs| - 1], cid, stages, s);
    }
  }

  lemma ShareIsAtMostAll(part: int, whole: int)
    requires part <= whole && whole > 0
    ensures 100.0 * (part as real) / (whole as real) <= 100.0
  {
    var p, w := part as real, whole as real;
    assert 100.0 * p <= 100.0 * w;
    assert 100.0 * w / w == 100.0;
    assert (100.0 * w - 100.0 * p) / w >= 0.0;
  }

  datatype CampaignStatus =
    | Draft | Scheduled | Waiting | Running | Paused
    | Completed | PartiallyCompleted | Unsuccessful | Stopped

  predicate IsTerminal(s: CampaignStatus) {
    s.Completed? || s.PartiallyCompleted? || s.Unsuccessful? || s.Stopped?
  }

  function FinalizeStatusFromCounts(status: CampaignStatus, c: Counters): CampaignStatus {
    if status.Stopped? then Stopped
    else if c.total == 0 then Unsuccessful
    else if c.cancelled != 0 && c.sent == 0 && c.failed == 0 then Stopped
    else if c.sent == 0 && c.failed + c.skipped + c.cancelled >= c.total then Unsuccessful
    else if c.sent > 0 && (c.failed > 0 || c.skipped > 0 || c.cancelled > 0) then PartiallyCompleted
    else Completed
  }

  /** When a non-empty campaign that is not stopped has nothing open, it is completed exactly when
      everything went out, and partially completed exactly when something but not everything did. */
  lemma FinalStatusOfSettledCampaign(rs: Recipients, cid: CampaignId, status: CampaignStatus)
    requires !status.Stopped? && Members(rs, cid) > 0 && OpenMembers(rs, cid) == 0
    ensures var c := Recount(rs, cid);
            var final := FinalizeStatusFromCounts(status, c);
            && IsTerminal(final)
            && (final == Completed <==> c.sent == c.total)
            && (final == PartiallyCompleted <==> 0 < c.sent < c.total)
            && (final == Stopped <==> c.sent == 0 && c.failed == 0 && c.cancelled > 0)
  {
    StatusesPartition(rs, cid);
  }

  /** With recipients still open the same function also says completed of campaigns that are not:
      exactly when nothing was lost, or nothing went out and the losses are not just cancellations. */
  lemma FinalStatusIsCompletedWhen(rs: Recipients, cid: CampaignId, status: CampaignStatus)
    requires !status.Stopped? && Members(rs, cid) > 0 && OpenMembers(rs, cid) > 0
    ensures var c := Recount(rs, cid);
            FinalizeStatusFromCounts(status, c) == Completed <==>
              (c.failed + c.skipped + c.cancelled == 0
               || (c.sent == 0 && (c.cancelled == 0 || c.failed > 0)))
  {
    StatusesPartition(rs, cid);
  }

  /** The rest of that function: a cancelled campaign stays cancelled, an empty one is unsuccessful, and
      one with recipients still open is partially completed exactly when some went out and some were
      lost, and cancelled exactly when its only losses are cancellations and nothing went out. */
  lemma FinalStatusOtherwise(rs: Recipients, cid: CampaignId, status: CampaignStatus)
    ensures var c := Recount(rs, cid);
            var final := FinalizeStatusFromCounts(status, c);
            && (status.Stopped? ==> final == Stopped)
            && (!status.Stopped? && Members(rs, cid) == 0 ==> final == Unsuccessful)
            && (!status.Stopped? && OpenMembers(rs, cid) > 0 ==>
                  && (final == PartiallyCompleted <==> c.sent > 0 && c.failed + c.skipped + c.cancelled > 0)
                  && (final == Stopped <==> c.sent == 0 && c.failed == 0 && c.cancelled > 0)
                  && final != Unsuccessful)
  {
    StatusesPartition(rs, cid);
    CountersNest(rs, cid);
  }

  lemma {:induction false} CountersNest(rs: Recipients, cid: CampaignId)
    ensures OpenMembers(rs, cid) <= Members(rs, cid)
  {
    if rs != [] {
      CountersNest(rs[..|rs| - 1], cid);
    }
  }

  // ---- Operations -----------------------------------------------------------------------------------

  datatype Campaign = Campaign(status: CampaignStatus, counters: Counters, scheduledAt: Option<int>)

  datatype World = World(campaigns: map<CampaignId, Campaign>, recipients: Recipients)

  /** The routes and callbacks of this component. `admitted` stands for the checks of the start
      route that this model leaves open (permission, plan, limits, provider, live eligibility). */
  datatype Action =
    | Start(cid: CampaignId, now: int, confirmed: bool, admitted: bool)
    | Pause(cid: CampaignId)
    | Resume(cid: CampaignId, now: int)
    | Cancel(cid: CampaignId, now: int)
    | RetryFailed(cid: CampaignId, now: int)
    | StatusCallback(index: nat, raw: D.Raw, now: int)
    | OptOut(phone: string, now: int)
    | Reply(phone: string, now: int, windowHours: int)

  /** An update_many of the status of every recipient a filter matches. */
  function UpdateMany(rs: Recipients, matches: Recipient -> bool, status: RecipientStatus, now: int): (updated: Recipients)
    ensures |updated| == |rs|
    ensures forall i :: 0 <= i < |rs| ==>
              updated[i] == if matches(rs[i]) then rs[i].(status := status, updatedAt := now) else rs[i]
  {
    seq(|rs|, i requires 0 <= i < |rs| =>
      if matches(rs[i]) then rs[i].(status := status, updatedAt := now) else rs[i])
  }

  function OpenIn(cid: CampaignId): Recipient -> bool {
    (r: Recipient) => r.campaign == cid && IsOpen(r.status)
  }

  function OpenAt(phone: string): Recipient -> bool {
    (r: Recipient) => r.phone == phone && IsOpen(r.status)
  }

  function WithStatus(cid: CampaignId, status: RecipientStatus): Recipient -> bool {
    (r: Recipient) => r.campaign == cid && r.status == status
  }

  /** The recipient a reply belongs to: sent to this phone within the window and not replied to
      yet, the most recently updated one. */
  predicate AwaitsReply(r: Recipient, phone: string, since: int) {
    && r.phone == phone
    && (r.status.Sent? || r.status.Delivered? || r.status.Read?)
    && r.updatedAt >= since
    && r.repliedAt.None?
  }

  function ReplyTarget(rs: Recipients, phone: string, since: int): (target: Option<nat>)
    ensures target.Some? ==> target.value < |rs| && AwaitsReply(rs[target.value], phone, since)
    ensures target.Some? ==> forall i :: 0 <= i < |rs| && AwaitsReply(rs[i], phone, since) ==>
              rs[i].updatedAt <= rs[target.value].updatedAt
    ensures target.None? ==> forall i :: 0 <= i < |rs| ==> !AwaitsReply(rs[i], phone, since)
  {
    if rs == [] then None
    else
      var before := ReplyTarget(rs[..|rs| - 1], phone, since);
      if AwaitsReply(Last(rs), phone, since)
         && (before.None? || Last(rs).updatedAt > rs[before.value].updatedAt) then Some(|rs| - 1)
      else before
  }

  function Since(now: int, windowHours: int): int {
    now - Max(1, windowHours) * 3600
  }

  function SetStatus(w: World, cid: CampaignId, status: CampaignStatus): World
    requires cid in w.campaigns
  {
    w.(campaigns := w.campaigns[cid := w.campaigns[cid].(status := status)])
  }

  function SetCounters(w: World, cid: CampaignId): World {
    if cid in w.campaigns then
      w.(campaigns := w.campaigns[cid := w.campaigns[cid].(counters := Recount(w.recipients, cid))])
    else w
  }

  /** The gate of the start route. */
  predicate MayStart(w: World, cid: CampaignId, now: int, confirmed: bool, admitted: bool) {
    && cid in w.campaigns
    && var c := w.campaigns[cid];
       && (c.status.Draft? || c.status.Scheduled? || c.status.Waiting?)
       && c.counters.total > 0
       && confirmed
       && Count(w.recipients, cid, Pending) + Count(w.recipients, cid, Queued) > 0
       && admitted
       && !(c.status.Scheduled? && c.scheduledAt.Some? && c.scheduledAt.value > now)
  }

  /** Does the action go through? A refused action changes nothing. */
  predicate Accepted(w: World, a: Action) {
    match a
    case Start(cid, now, confirmed, admitted) => MayStart(w, cid, now, confirmed, admitted)
    case Pause(cid) => cid in w.campaigns && w.campaigns[cid].status.Running?
    case Resume(cid, _) => cid in w.campaigns && w.campaigns[cid].status.Paused?
    case Cancel(cid, _) => cid in w.campaigns && !IsTerminal(w.campaigns[cid].status)
    case RetryFailed(cid, _) =>
      && cid in w.campaigns
      && !w.campaigns[cid].status.Stopped?
      && exists i :: 0 <= i < |w.recipients| && WithStatus(cid, Failed)(w.recipients[i])
    case StatusCallback(index, raw, _) =>
      && index < |w.recipients|
      && D.NormalizeStatus(raw).Some?
      && RecipientShouldApply(w.recipients[index].status, FromProvider(D.NormalizeStatus(raw).value))
    case OptOut(_, _) => true
    case Reply(phone, now, windowHours) => ReplyTarget(w.recipients, phone, Since(now, windowHours)).Some?
  }

  function After(w: World, a: Action): (t: World)
    ensures |t.recipients| == |w.recipients| && t.campaigns.Keys == w.campaigns.Keys
  {
    if !Accepted(w, a) then w
    else
      match a
      case Start(cid, _, _, _) => SetStatus(w, cid, Waiting)
      case Pause(cid) => SetStatus(w, cid, Paused)
      case Resume(cid, now) =>
        SetStatus(w, cid, Running).(
        recipients := UpdateMany(w.recipients, WithStatus(cid, Processing), Queued, now))
      case Cancel(cid, now) =>
        SetCounters(SetStatus(w, cid, Stopped).(
                    recipients := UpdateMany(w.recipients, OpenIn(cid), Cancelled, now)), cid)
      case RetryFailed(cid, now) =>
        SetStatus(w, cid, Running).(
        recipients := UpdateMany(w.recipients, WithStatus(cid, Failed), Queued, now))
      case StatusCallback(index, raw, now) =>
        var r := w.recipients[index];
        var status := FromProvider(D.NormalizeStatus(raw).value);
        SetCounters(w.(recipients := w.recipients[index := r.(status := status, updatedAt := now)]), r.campaign)
      case OptOut(phone, now) => w.(recipients := UpdateMany(w.recipients, OpenAt(phone), Cancelled, now))
      case Reply(phone, now, windowHours) =>
        var i := ReplyTarget(w.recipients, phone, Since(now, windowHours)).value;
        var r := w.recipients[i];
        var replied := w.recipients[i := r.(status := Replied, updatedAt := now, repliedAt := Some(now))];
        if r.campaign in w.campaigns then
          var c := w.campaigns[r.campaign];
          World(w.campaigns[r.campaign := c.(counters := c.counters.(replied := c.counters.replied + 1))], replied)
        else w.(recipients := replied)
  }

  /** The stored campaigns and recipients with the source's operations; `ok` is false where the
      route answers with an error. */
  class CampaignStore {
    var campaigns: map<CampaignId, Campaign>
    var recipients: Recipients

    constructor (w: World)
      ensures Current() == w
    {
      campaigns, recipients := w.campaigns, w.recipients;
    }

    function Current(): World
      reads this
    {
      World(campaigns, recipients)
    }

    method SetCampaignStatus(cid: CampaignId, status: CampaignStatus)
      requires cid in campaigns
      modifies `campaigns
      ensures Current() == SetStatus(old(Current()), cid, status)
    {
      campaigns := campaigns[cid := campaigns[cid].(status := status)];
    }

    method StoreRecount(cid: CampaignId)
      modifies `campaigns
      ensures Current() == SetCounters(old(Current()), cid)
    {
      var fields := Recount(recipients, cid);
      if cid in campaigns {
        campaigns := campaigns[cid := campaigns[cid].(counters := fields)];
      }
    }

    method StartCampaign(cid: CampaignId, now: int, confirmed: bool, admitted: bool) returns (ok: bool)
      modifies this
      ensures var a := Start(cid, now, confirmed, admitted);
              ok == Accepted(old(Current()), a) && Current() == After(old(Current()), a)
    {
      if cid !in campaigns {
        return false;
      }
      var c := campaigns[cid];
      if !(c.status.Draft? || c.status.Scheduled? || c.status.Waiting?) || c.counters.total <= 0 || !confirmed {
        return false;
      }
      var pending := Count(recipients, cid, Pending) + Count(recipients, cid, Queued);
      if pending <= 0 || !admitted {
        return false;
      }
      if c.scheduledAt.Some? && c.scheduledAt.value > now && c.status.Scheduled? {
        return false;
      }
      SetCampaignStatus(cid, Waiting);
      return true;
    }

    method PauseCampaign(cid: CampaignId) returns (ok: bool)
      modifies this
      ensures ok == Accepted(old(Current()), Pause(cid)) && Current() == After(old(Current()), Pause(cid))
    {
      if cid !in campaigns || !campaigns[cid].status.Running? {
        return false;
      }
      SetCampaignStatus(cid, Paused);
      return true;
    }

    method ResumeCampaign(cid: CampaignId, now: int) returns (ok: bool)
      modifies this
      ensures ok == Accepted(old(Current()), Resume(cid, now))
      ensures Current() == After(old(Current()), Resume(cid, now))
    {
      if cid !in campaigns || !campaigns[cid].status.Paused? {
        return false;
      }
      SetCampaignStatus(cid, Running);
      recipients := UpdateMany(recipients, WithStatus(cid, Processing), Queued, now);
      return true;
    }

    method CancelCampaign(cid: CampaignId, now: int) returns (ok: bool)
      modifies this
      ensures ok == Accepted(old(Current()), Cancel(cid, now))
      ensures Current() == After(old(Current()), Cancel(cid, now))
    {
      if cid !in campaigns || IsTerminal(campaigns[cid].status) {
        return false;
      }
      SetCampaignStatus(cid, Stopped);
      recipients := UpdateMany(recipients, OpenIn(cid), Cancelled, now);
      StoreRecount(cid);
      return true;
    }

    method RetryFailedRecipients(cid: CampaignId, now: int) returns (ok: bool)
      modifies this
      ensures ok == Accepted(old(Current()), RetryFailed(cid, now))
      ensures Current() == After(old(Current()), RetryFailed(cid, now))
    {
      if cid !in campaigns || campaigns[cid].status.Stopped? {
        return false;
      }
      var requeued := UpdateMany(recipients, WithStatus(cid, Failed), Queued, now);
      RequeuesUnlessNoneFailed(recipients, cid, now);
      if requeued == recipients {
        return false;
      }
      recipients := requeued;
      SetCampaignStatus(cid, Running);
      return true;
    }

    method ApplyStatusCallback(index: nat, raw: D.Raw, now: int) returns (ok: bool)
      requires index < |recipients|
      modifies this
      ensures ok == Accepted(old(Current()), StatusCallback(index, raw, now))
      ensures Current() == After(old(Current()), StatusCallback(index, raw, now))
    {
      var incoming := D.NormalizeStatus(raw);
      if incoming.None? {
        return false;
      }
      var r := recipients[index];
      var mapped := FromProvider(incoming.value);
      if !RecipientShouldApply(r.status, mapped) {
        return false;
      }
      recipients := recipients[index := r.(status := mapped, updatedAt := now)];
      StoreRecount(r.campaign);
      return true;
    }

    method CancelPendingForPhone(phone: string, now: int)
      modifies this
      ensures Current() == After(old(Current()), OptOut(phone, now))
    {
      recipients := UpdateMany(recipients, OpenAt(phone), Cancelled, now);
    }

    method AttributeCampaignReply(phone: string, now: int, windowHours: int)
      modifies this
      ensures Current() == After(old(Current()), Reply(phone, now, windowHours))
    {
      var since := now - Max(1, windowHours) * 3600;
      var recent := ReplyTarget(recipients, phone, since);
      if recent.None? {
        return;
      }
      var r := recipients[recent.value];
      recipients := recipients[recent.value := r.(status := Replied, updatedAt := now, repliedAt := Some(now))];
      if r.campaign in campaigns {
        var c := campaigns[r.campaign];
        campaigns := campaigns[r.campaign := c.(counters := c.counters.(replied := c.counters.replied + 1))];
      }
    }
  }

  lemma RequeuesUnlessNoneFailed(rs: Recipients, cid: CampaignId, now: int)
    ensures UpdateMany(rs, WithStatus(cid, Failed), Queued, now) == rs <==>
            forall i :: 0 <= i < |rs| ==> !WithStatus(cid, Failed)(rs[i])
  {
    var updated := UpdateMany(rs, WithStatus(cid, Failed), Queued, now);
    if forall i :: 0 <= i < |rs| ==> !WithStatus(cid, Failed)(rs[i]) {
      assert updated == rs;
    } else {
      var i :| 0 <= i < |rs| && WithStatus(cid, Failed)(rs[i]);
      assert updated[i] != rs[i];
    }
  }

  // ---- Runs --------------------------------------------------------------------------------------

  function Run(w: World, actions: seq<Action>): World
    decreases |actions|
  {
    if actions == [] then w else After(Run(w, actions[..|actions| - 1]), Last(actions))
  }

  /** How far a recipient has got: open, then outwards to replied, then lost for good. */
  function Stage(s: RecipientStatus): int {
    if IsOpen(s) then 0
    else if s.Sent? then 1
    else if s.Delivered? then 2
    else if s.Read? then 3
    else if s.Replied? then 4
    else 5
  }

  /** One action's effect on one recipient: it keeps its campaign and phone, a reply is recorded
      once, and its stage goes back only when a failed recipient is retried. */
  ghost predicate Progresses(w: World, a: Action, i: nat)
    requires i < |w.recipients|
  {
    var r, t := w.recipients[i], After(w, a).recipients[i];
    && t.campaign == r.campaign && t.phone == r.phone
    && (r.repliedAt.Some? ==> t.repliedAt == r.repliedAt)
    && (Stage(t.status) < Stage(r.status) ==>
          && a.RetryFailed? && a.cid == r.campaign
          && r.status == Failed && t.status == Queued
          && r.campaign in w.campaigns && !w.campaigns[r.campaign].status.Stopped?)
  }

  ghost predicate NothingOpenWhenStopped(w: World) {
    forall i :: 0 <= i < |w.recipients| ==>
      var r := w.recipients[i];
      r.campaign in w.campaigns && w.campaigns[r.campaign].status.Stopped? ==> !IsOpen(r.status)
  }

  lemma RecipientsProgress(w: World, a: Action, i: nat)
    requires i < |w.recipients|
    ensures Progresses(w, a, i)
  {
    hide Recount, D.NormalizeStatus, ReplyTarget;
  }

  lemma StoppedIsAbsorbing(w: World, a: Action, cid: CampaignId)
    requires cid in w.campaigns && w.campaigns[cid].status.Stopped?
    ensures cid in After(w, a).campaigns && After(w, a).campaigns[cid].status.Stopped?
  {
  }

  lemma ActionKeepsNothingOpen(w: World, a: Action)
    requires NothingOpenWhenStopped(w)
    ensures NothingOpenWhenStopped(After(w, a))
  {
    var t := After(w, a);
    forall i | 0 <= i < |t.recipients|
      ensures var r := t.recipients[i];
              r.campaign in t.campaigns && t.campaigns[r.campaign].status.Stopped? ==> !IsOpen(r.status)
    {
      RecipientsProgress(w, a, i);
      var r := t.recipients[i];
      if r.campaign in t.campaigns && t.campaigns[r.campaign].status.Stopped?
         && !w.campaigns[r.campaign].status.Stopped? {
        assert a.Cancel? && a.cid == r.campaign;
      }
    }
  }

  /** Over every run: the campaigns and the population of recipients are conserved, a stopped
      campaign stays stopped, and it never has an open recipient. */
  lemma {:induction false} EveryRunIsSafe(w: World, actions: seq<Action>, cid: CampaignId)
    requires NothingOpenWhenStopped(w)
    ensures var t := Run(w, actions);
            && NothingOpenWhenStopped(t)
            && t.campaigns.Keys == w.campaigns.Keys
            && |t.recipients| == |w.recipients|
            && (forall i :: 0 <= i < |w.recipients| ==>
                  && t.recipients[i].campaign == w.recipients[i].campaign
                  && t.recipients[i].phone == w.recipients[i].phone)
            && (cid in w.campaigns && w.campaigns[cid].status.Stopped? ==> t.campaigns[cid].status.Stopped?)
    decreases |actions|
  {
    hide After;
    if actions != [] {
      var before := Run(w, actions[..|actions| - 1]);
      EveryRunIsSafe(w, actions[..|actions| - 1], cid);
      ActionKeepsNothingOpen(before, Last(actions));
      var after := After(before, Last(actions));
      forall i | 0 <= i < |before.recipients|
        ensures after.recipients[i].campaign == before.recipients[i].campaign
        ensures after.recipients[i].phone == before.recipients[i].phone
      {
        RecipientsProgress(before, Last(actions), i);
      }
      if cid in w.campaigns && w.campaigns[cid].status.Stopped? {
        StoppedIsAbsorbing(before, Last(actions), cid);
      }
    }
  }

  /** Without a retry no recipient ever goes back: a settled one never reopens, and a delivery
      status never regresses. With retries, only a failed recipient can. */
  lemma {:induction false} OnlyRetryReopens(w: World, actions: seq<Action>, i: nat)
    requires i < |w.recipients|
    requires forall k :: 0 <= k < |actions| ==> !actions[k].RetryFailed?
    ensures var t := Run(w, actions);
            && |t.recipients| == |w.recipients|
            && Stage(t.recipients[i].status) >= Stage(w.recipients[i].status)
            && (!IsOpen(w.recipients[i].status) ==> !IsOpen(t.recipients[i].status))
            && (w.recipients[i].repliedAt.Some? ==> t.recipients[i].repliedAt == w.recipients[i].repliedAt)
    decreases |actions|
  {
    hide After;
    if actions != [] {
      OnlyRetryReopens(w, actions[..|actions| - 1], i);
      RecipientsProgress(Run(w, actions[..|actions| - 1]), Last(actions), i);
    }
  }

  /** The moves a campaign's status can make. */
  predicate MayFollow(s: CampaignStatus, t: CampaignStatus) {
    || (t.Waiting? && (s.Draft? || s.Scheduled?))
    || (t.Paused? && s.Running?)
    || (t.Stopped? && !IsTerminal(s))
    || (t.Running? && !s.Stopped?)
  }

  /** An action moves its own campaign only, along the lifecycle, and out of a terminal status only
      to run a retry, which then has a failed recipient to send to. */
  lemma StatusFollowsLifecycle(w: World, a: Action, cid: CampaignId)
    requires cid in w.campaigns
    ensures var s, t := w.campaigns[cid].status, After(w, a).campaigns[cid].status;
            s != t ==>
              && Accepted(w, a)
              && (a.Start? || a.Pause? || a.Resume? || a.Cancel? || a.RetryFailed?) && a.cid == cid
              && MayFollow(s, t)
              && (IsTerminal(s) ==> a.RetryFailed? && Count(w.recipients, cid, Failed) > 0)
  {
    if a.RetryFailed? && Accepted(w, a) {
      IsCounted(w.recipients, a.cid, Failed);
    }
  }

  lemma {:induction false} IsCounted(rs: Recipients, cid: CampaignId, s: RecipientStatus)
    ensures Count(rs, cid, s) > 0 <==> exists i :: 0 <= i < |rs| && WithStatus(cid, s)(rs[i])
  {
    if rs != [] {
      IsCounted(rs[..|rs| - 1], cid, s);
      assert WithStatus(cid, s)(Last(rs)) ==> WithStatus(cid, s)(rs[|rs| - 1]);
    }
  }

  // ---- What each action does ------------------------------------------------------------------------

  /** The start is accepted exactly for a known campaign that has not run, with recipients counted and
      someone still pending or queued, confirmed and admitted, and not scheduled for later. */
  lemma StartIsAcceptedExactly(w: World, cid: CampaignId, now: int, confirmed: bool, admitted: bool)
    ensures Accepted(w, Start(cid, now, confirmed, admitted)) <==>
            && confirmed && admitted && cid in w.campaigns
            && var c := w.campaigns[cid];
               && c.status in {Draft, Scheduled, Waiting} && c.counters.total > 0
               && (c.status == Scheduled && c.scheduledAt.Some? ==> c.scheduledAt.value <= now)
               && exists i :: 0 <= i < |w.recipients| && w.recipients[i].campaign == cid
                              && w.recipients[i].status in {Pending, Queued}
  {
    IsCounted(w.recipients, cid, Pending);
    IsCounted(w.recipients, cid, Queued);
  }

  /** A route that is accepted gives its campaign one status and its recipients in one state another,
      and leaves the rest alone. */
  lemma RouteDoes(w: World, a: Action, cid: CampaignId, i: nat)
    requires Accepted(w, a) && (a.Start? || a.Pause? || a.Resume? || a.Cancel? || a.RetryFailed?)
    requires cid in w.campaigns && i < |w.recipients|
    ensures var t := After(w, a);
            && t.campaigns[cid].status ==
               (if cid != a.cid then w.campaigns[cid].status
                else match a
                     case Start(_, _, _, _) => Waiting
                     case Pause(_) => Paused
                     case Cancel(_, _) => Stopped
                     case _ => Running)
            && t.campaigns[cid].scheduledAt == w.campaigns[cid].scheduledAt
            && t.campaigns[cid].counters ==
               (if a.Cancel? && cid == a.cid then Recount(t.recipients, cid) else w.campaigns[cid].counters)
            && var r := w.recipients[i];
               t.recipients[i] ==
               if r.campaign != a.cid then r
               else match a
                    case Resume(_, now) =>
                      if r.status == Processing then r.(status := Queued, updatedAt := now) else r
                    case Cancel(_, now) =>
                      if r.status in {Pending, Queued, Retrying, Processing}
                      then r.(status := Cancelled, updatedAt := now) else r
                    case RetryFailed(_, now) =>
                      if r.status == Failed then r.(status := Queued, updatedAt := now) else r
                    case _ => r
  {
    hide Recount;
  }

  /** What a provider status makes of a recipient. */
  function Becomes(s: D.Status): RecipientStatus {
    if s in {D.Failed, D.Undelivered} then Failed
    else if s == D.Canceled then Cancelled
    else if s == D.Read then Read
    else if s == D.Delivered then Delivered
    else Sent
  }

  /** A callback counts exactly if its text is a known status and the recipient is not there yet, or
      past it; the recipient then takes it, and its campaign is recounted. Nothing else changes. */
  lemma CallbackDoes(w: World, index: nat, raw: D.Raw, now: int)
    requires index < |w.recipients|
    ensures var a, r := StatusCallback(index, raw, now), w.recipients[index];
            var incoming := D.NormalizeStatus(raw);
            && (Accepted(w, a) <==>
                  && incoming.Some?
                  && match Becomes(incoming.value)
                     case Sent => r.status in {Pending, Queued, Processing, Retrying}
                     case Delivered => r.status in {Pending, Queued, Processing, Retrying, Sent}
                     case Read => r.status in {Pending, Queued, Processing, Retrying, Sent, Delivered}
                     case lost => r.status != lost)
            && (Accepted(w, a) ==>
                  && After(w, a).recipients ==
                     w.recipients[index := r.(status := Becomes(incoming.value), updatedAt := now)]
                  && After(w, a).campaigns ==
                     (if r.campaign in w.campaigns
                      then w.campaigns[r.campaign := w.campaigns[r.campaign].(
                                                     counters := Recount(After(w, a).recipients, r.campaign))]
                      else w.campaigns))
            && (!Accepted(w, a) ==> After(w, a) == w)
  {
    hide Recount, D.NormalizeStatus;
    var incoming := D.NormalizeStatus(raw);
    if incoming.Some? {
      AppliesExactly(w.recipients[index].status, Becomes(incoming.value));
      hide RecipientShouldApply;
    }
  }

  // ---- Stored counters over time -----------------------------------------------------------------

  predicate Exact(w: World, cid: CampaignId) {
    cid in w.campaigns && w.campaigns[cid].counters == Recount(w.recipients, cid)
  }

  /** Exact but for delivered and read, which may lag behind. */
  predicate Lagging(w: World, cid: CampaignId) {
    && cid in w.campaigns
    && var stored, actual := w.campaigns[cid].counters, Recount(w.recipients, cid);
       && stored.(delivered := actual.delivered, read := actual.read) == actual
       && stored.delivered <= actual.delivered
       && stored.read <= actual.read
  }

  /** The actions that recount a campaign: its cancellation, and an applied callback on one of its
      recipients. */
  predicate Recounts(w: World, a: Action, cid: CampaignId) {
    && Accepted(w, a)
    && cid in w.campaigns
    && ((a.Cancel? && a.cid == cid) || (a.StatusCallback? && w.recipients[a.index].campaign == cid))
  }

  lemma RecountingActions(w: World, a: Action, cid: CampaignId)
    requires Recounts(w, a, cid)
    ensures Exact(After(w, a), cid)
  {
    hide Count, Members;
  }

  function One(r: Recipient, cid: CampaignId, s: RecipientStatus): nat {
    if r.campaign == cid && r.status == s then 1 else 0
  }

  lemma {:induction false} CountAfterUpdate(
    rs: Recipients, i: nat, r: Recipient, cid: CampaignId, s: RecipientStatus)
    requires i < |rs| && r.campaign == rs[i].campaign
    ensures Count(rs[i := r], cid, s) == Count(rs, cid, s) - One(rs[i], cid, s) + One(r, cid, s)
    ensures Members(rs[i := r], cid) == Members(rs, cid)
  {
    var shorter := rs[..|rs| - 1];
    if i < |rs| - 1 {
      assert rs[i := r][..|rs| - 1] == shorter[i := r];
      CountAfterUpdate(shorter, i, r, cid, s);
    } else {
      assert rs[i := r][..|rs| - 1] == shorter;
    }
  }

  /** A recipient that turns replied moves one unit between the success counters. */
  lemma RecountAfterReply(rs: Recipients, i: nat, replied: Recipient, cid: CampaignId)
    requires i < |rs| && replied.campaign == rs[i].campaign && replied.status.Replied?
    requires rs[i].status.Sent? || rs[i].status.Delivered? || rs[i].status.Read?
    ensures var before, after := Recount(rs, cid), Recount(rs[i := replied], cid);
            var mine := rs[i].campaign == cid;
            && after.(delivered := before.delivered, read := before.read, replied := before.replied) == before
            && after.replied == before.replied + (if mine then 1 else 0)
            && after.delivered >= before.delivered && after.read >= before.read
  {
    forall s: RecipientStatus
      ensures Count(rs[i := replied], cid, s) == Count(rs, cid, s) - One(rs[i], cid, s) + One(replied, cid, s)
      ensures Members(rs[i := replied], cid) == Members(rs, cid)
    {
      CountAfterUpdate(rs, i, replied, cid, s);
    }
  }

  /** Counting a reply by one increment keeps every counter exact except delivered and read, which
      stay lower bounds, for any number of replies since the last recount. */
  lemma ReplyKeepsCounters(w: World, phone: string, now: int, windowHours: int, cid: CampaignId)
    requires Lagging(w, cid)
    ensures Lagging(After(w, Reply(phone, now, windowHours)), cid)
  {
    hide Recount;
    var target := ReplyTarget(w.recipients, phone, Since(now, windowHours));
    if target.Some? {
      var r := w.recipients[target.value];
      RecountAfterReply(w.recipients, target.value,
                        r.(status := Replied, updatedAt := now, repliedAt := Some(now)), cid);
    }
  }

  lemma {:induction false} UpdateManyGains(
    rs: Recipients, matches: Recipient -> bool, status: RecipientStatus, now: int, cid: CampaignId, s: RecipientStatus)
    requires s == status || forall i :: 0 <= i < |rs| && matches(rs[i]) ==> rs[i].status != s
    ensures var after := Count(UpdateMany(rs, matches, status, now), cid, s);
            && after >= Count(rs, cid, s)
            && (s == status && (exists i :: 0 <= i < |rs| && rs[i].campaign == cid
                                            && matches(rs[i]) && rs[i].status != s) ==>
                  after > Count(rs, cid, s))
    decreases |rs|
  {
    if rs != [] {
      var shorter := rs[..|rs| - 1];
      var updated := UpdateMany(rs, matches, status, now);
      assert updated[..|rs| - 1] == UpdateMany(shorter, matches, status, now);
      UpdateManyGains(shorter, matches, status, now, cid, s);
      forall i | 0 <= i < |rs| && rs[i].campaign == cid && matches(rs[i]) && rs[i].status != s && s == status
        ensures Count(updated, cid, s) > Count(rs, cid, s)
      {
        if i < |shorter| {
          assert shorter[i] == rs[i];
        }
      }
    }
  }

  /** An opt-out is not recounted: exact counters stay exact exactly when the opted-out phone had
      nothing open in the campaign. */
  lemma OptOutMakesCountersStale(w: World, phone: string, now: int, cid: CampaignId)
    requires Exact(w, cid)
    ensures Exact(After(w, OptOut(phone, now)), cid) <==>
            !exists i :: 0 <= i < |w.recipients| && w.recipients[i].campaign == cid && OpenAt(phone)(w.recipients[i])
  {
    var rs, updated := w.recipients, UpdateMany(w.recipients, OpenAt(phone), Cancelled, now);
    if exists i :: 0 <= i < |rs| && rs[i].campaign == cid && OpenAt(phone)(rs[i]) {
      UpdateManyGains(rs, OpenAt(phone), Cancelled, now, cid, Cancelled);
    } else {
      forall s: RecipientStatus
        ensures Count(updated, cid, s) == Count(rs, cid, s) && Members(updated, cid) == Members(rs, cid)
      {
        SameMembersSameCount(rs, updated, cid, s);
      }
    }
  }

  lemma {:induction false} SameMembersSameCount(a: Recipients, b: Recipients, cid: CampaignId, s: RecipientStatus)
    requires |a| == |b|
    requires forall i :: 0 <= i < |a| ==>
               a[i].campaign == b[i].campaign && (a[i].campaign == cid ==> a[i].status == b[i].status)
    ensures Count(a, cid, s) == Count(b, cid, s) && Members(a, cid) == Members(b, cid)
  {
    if a != [] {
      SameMembersSameCount(a[..|a| - 1], b[..|b| - 1], cid, s);
    }
  }

  /** A retry always leaves exact counters stale. */
  lemma RetryMakesCountersStale(w: World, cid: CampaignId, now: int)
    requires Exact(w, cid) && Accepted(w, RetryFailed(cid, now))
    ensures !Exact(After(w, RetryFailed(cid, now)), cid)
  {
    var rs := w.recipients;
    UpdateManyGains(rs, WithStatus(cid, Failed), Queued, now, cid, Queued);
    UpdateManyGains(rs, WithStatus(cid, Failed), Queued, now, cid, Pending);
    UpdateManyGains(rs, WithStatus(cid, Failed), Queued, now, cid, Retrying);
  }

  /** Nor is a resume recounted: exact counters stay exact exactly when the campaign had nobody in
      processing. */
  lemma ResumeMakesCountersStale(w: World, cid: CampaignId, now: int)
    requires Exact(w, cid) && Accepted(w, Resume(cid, now))
    ensures Exact(After(w, Resume(cid, now)), cid) <==>
            !exists i :: 0 <= i < |w.recipients| && WithStatus(cid, Processing)(w.recipients[i])
  {
    var rs := w.recipients;
    if i :| 0 <= i < |rs| && WithStatus(cid, Processing)(rs[i]) {
      UpdateManyGains(rs, WithStatus(cid, Processing), Queued, now, cid, Queued);
      UpdateManyGains(rs, WithStatus(cid, Processing), Queued, now, cid, Pending);
      UpdateManyGains(rs, WithStatus(cid, Processing), Queued, now, cid, Retrying);
    } else {
      assert UpdateMany(rs, WithStatus(cid, Processing), Queued, now) == rs;
    }
  }

  // ---- When the stored counters can be trusted ------------------------------------------------------

  /** The actions that change a campaign's recipients and leave its counters behind. */
  predicate MakesStale(w: World, a: Action, cid: CampaignId) {
    && Accepted(w, a)
    && match a
       case RetryFailed(c, _) => c == cid
       case Resume(c, _) =>
         c == cid && exists i :: 0 <= i < |w.recipients| && WithStatus(cid, Processing)(w.recipients[i])
       case OptOut(phone, _) =>
         exists i :: 0 <= i < |w.recipients| && w.recipients[i].campaign == cid && OpenAt(phone)(w.recipients[i])
       case _ => false
  }

  /** Were the counters recounted after the last action that left them behind? */
  predicate UpToDate(w: World, actions: seq<Action>, cid: CampaignId)
    decreases |actions|
  {
    if actions == [] then true
    else
      var earlier, last := actions[..|actions| - 1], Last(actions);
      var before := Run(w, earlier);
      Recounts(before, last, cid) || (UpToDate(w, earlier, cid) && !MakesStale(before, last, cid))
  }

  /** Counters that were left behind and not recounted since: some failure or processing is still
      counted that is over, or some cancellation is not counted. */
  predicate LeftBehind(w: World, cid: CampaignId) {
    && cid in w.campaigns
    && var stored := w.campaigns[cid].counters;
       && Behind(stored, w.recipients, cid)
       && !(stored.failed == Count(w.recipients, cid, Failed)
            && stored.processing == Count(w.recipients, cid, Processing)
            && stored.cancelled == Count(w.recipients, cid, Cancelled))
  }

  predicate Behind(stored: Counters, rs: Recipients, cid: CampaignId) {
    && stored.failed >= Count(rs, cid, Failed)
    && stored.processing >= Count(rs, cid, Processing)
    && stored.cancelled <= Count(rs, cid, Cancelled)
  }

  /** What an action that does not recount does to the three counts: failures and processing only
      go down, cancellations only up, and one of them moves if the action leaves counters behind. */
  ghost predicate OnlyDrifts(rs: Recipients, ts: Recipients, cid: CampaignId, moved: bool) {
    && Count(ts, cid, Failed) <= Count(rs, cid, Failed)
    && Count(ts, cid, Processing) <= Count(rs, cid, Processing)
    && Count(ts, cid, Cancelled) >= Count(rs, cid, Cancelled)
    && (moved ==> !(Count(ts, cid, Failed) == Count(rs, cid, Failed)
                    && Count(ts, cid, Processing) == Count(rs, cid, Processing)
                    && Count(ts, cid, Cancelled) == Count(rs, cid, Cancelled)))
  }

  lemma {:induction false} UpdateManyLoses(
    rs: Recipients, matches: Recipient -> bool, status: RecipientStatus, now: int, cid: CampaignId, s: RecipientStatus)
    requires s != status
    ensures Count(UpdateMany(rs, matches, status, now), cid, s) <= Count(rs, cid, s)
    decreases |rs|
  {
    if rs != [] {
      var shorter := rs[..|rs| - 1];
      var updated := UpdateMany(rs, matches, status, now);
      assert updated[..|rs| - 1] == UpdateMany(shorter, matches, status, now);
      UpdateManyLoses(shorter, matches, status, now, cid, s);
    }
  }

  lemma {:induction false} UpdateManyTakes(
    rs: Recipients, matches: Recipient -> bool, status: RecipientStatus, now: int, cid: CampaignId, s: RecipientStatus,
    i: nat)
    requires s != status
    requires i < |rs| && rs[i].campaign == cid && matches(rs[i]) && rs[i].status == s
    ensures Count(UpdateMany(rs, matches, status, now), cid, s) < Count(rs, cid, s)
    decreases |rs|
  {
    var shorter := rs[..|rs| - 1];
    var updated := UpdateMany(rs, matches, status, now);
    assert updated[..|rs| - 1] == UpdateMany(shorter, matches, status, now);
    if i < |shorter| {
      UpdateManyTakes(shorter, matches, status, now, cid, s, i);
    } else {
      UpdateManyLoses(shorter, matches, status, now, cid, s);
    }
  }

  lemma UpdatesDrift(w: World, a: Action, cid: CampaignId)
    requires Accepted(w, a) && (a.Resume? || a.RetryFailed? || a.OptOut?)
    ensures OnlyDrifts(w.recipients, After(w, a).recipients, cid, MakesStale(w, a, cid))
  {
    hide Count;
    var rs := w.recipients;
    var matches := if a.OptOut? then OpenAt(a.phone) else WithStatus(a.cid, if a.Resume? then Processing else Failed);
    var status := if a.OptOut? then Cancelled else Queued;
    assert After(w, a).recipients == UpdateMany(rs, matches, status, a.now);
    UpdateManyLoses(rs, matches, status, a.now, cid, Failed);
    UpdateManyLoses(rs, matches, status, a.now, cid, Processing);
    UpdateManyGains(rs, matches, status, a.now, cid, Cancelled);
    if !a.OptOut? && MakesStale(w, a, cid) {
      var i: nat :| i < |rs| && matches(rs[i]);
      UpdateManyTakes(rs, matches, status, a.now, cid, rs[i].status, i);
    }
  }

  /** Every other action leaves a campaign's own recipients alone. */
  lemma OthersKeepCounts(w: World, a: Action, cid: CampaignId, s: RecipientStatus)
    requires cid in w.campaigns && !a.Reply? && !Recounts(w, a, cid) && !MakesStale(w, a, cid)
    ensures var t := After(w, a);
            && Count(t.recipients, cid, s) == Count(w.recipients, cid, s)
            && Members(t.recipients, cid) == Members(w.recipients, cid)
            && t.campaigns[cid].counters == w.campaigns[cid].counters
  {
    hide Count, Members;
    SameMembersSameCount(w.recipients, After(w, a).recipients, cid, s);
  }

  lemma LaggingStep(w: World, a: Action, cid: CampaignId)
    requires Lagging(w, cid) && !Recounts(w, a, cid)
    ensures var t := After(w, a);
            if MakesStale(w, a, cid) then LeftBehind(t, cid) else Lagging(t, cid)
  {
    hide Count, Members;
    if a.Reply? {
      ReplyKeepsCounters(w, a.phone, a.now, a.windowHours, cid);
    } else if MakesStale(w, a, cid) {
      UpdatesDrift(w, a, cid);
    } else {
      forall s: RecipientStatus
        ensures Count(After(w, a).recipients, cid, s) == Count(w.recipients, cid, s)
        ensures Members(After(w, a).recipients, cid) == Members(w.recipients, cid)
      {
        OthersKeepCounts(w, a, cid, s);
      }
      OthersKeepCounts(w, a, cid, Queued);
    }
  }

  lemma LeftBehindStep(w: World, a: Action, cid: CampaignId)
    requires LeftBehind(w, cid) && !Recounts(w, a, cid)
    ensures LeftBehind(After(w, a), cid)
  {
    hide Count, Members;
    if a.Reply? {
      var target := ReplyTarget(w.recipients, a.phone, Since(a.now, a.windowHours));
      if target.Some? {
        var r := w.recipients[target.value];
        RecountAfterReply(w.recipients, target.value,
                          r.(status := Replied, updatedAt := a.now, repliedAt := Some(a.now)), cid);
      }
    } else if Accepted(w, a) && (a.Resume? || a.RetryFailed? || a.OptOut?) {
      UpdatesDrift(w, a, cid);
    } else {
      OthersKeepCounts(w, a, cid, Failed);
      OthersKeepCounts(w, a, cid, Processing);
      OthersKeepCounts(w, a, cid, Cancelled);
    }
  }

  /** Over every run, stored counters that were exact at its start (but for delivered and read) are so
      at its end exactly when they were recounted after the last retry, resume of a campaign with
      someone in processing, or opt-out of someone open. */
  lemma {:induction false} CountersAreUpToDateExactly(w: World, actions: seq<Action>, cid: CampaignId)
    requires Lagging(w, cid)
    ensures var t := Run(w, actions);
            && (Lagging(t, cid) <==> UpToDate(w, actions, cid))
            && (!UpToDate(w, actions, cid) ==> LeftBehind(t, cid))
    decreases |actions|
  {
    hide After, Recounts, MakesStale, Lagging, LeftBehind;
    if actions != [] {
      var earlier, last := actions[..|actions| - 1], Last(actions);
      var before := Run(w, earlier);
      CountersAreUpToDateExactly(w, earlier, cid);
      if Recounts(before, last, cid) {
        RecountingActions(before, last, cid);
        ExactIsLagging(After(before, last), cid);
      } else if UpToDate(w, earlier, cid) {
        LaggingStep(before, last, cid);
      } else {
        LeftBehindStep(before, last, cid);
      }
    }
    LeftBehindIsNotLagging(Run(w, actions), cid);
  }

  lemma ExactIsLagging(w: World, cid: CampaignId)
    requires Exact(w, cid)
    ensures Lagging(w, cid)
  {
  }

  lemma LeftBehindIsNotLagging(w: World, cid: CampaignId)
    ensures !(LeftBehind(w, cid) && Lagging(w, cid))
  {
  }

  /** A reply settles at most one recipient, of that phone, the most recently updated of those that
      await one; if there is one, it is marked replied. */
  lemma ReplySettlesNewest(w: World, phone: string, now: int, windowHours: int, i: nat)
    requires i < |w.recipients|
    ensures var t := After(w, Reply(phone, now, windowHours)).recipients;
            var since := now - Max(1, windowHours) * 3600;
            && (t[i] != w.recipients[i] ==>
                  && AwaitsReply(w.recipients[i], phone, since)
                  && t[i].status == Replied && t[i].repliedAt == Some(now)
                  && forall j :: 0 <= j < |w.recipients| ==>
                       && (AwaitsReply(w.recipients[j], phone, since) ==>
                             w.recipients[j].updatedAt <= w.recipients[i].updatedAt)
                       && (j != i ==> t[j] == w.recipients[j]))
            && (AwaitsReply(w.recipients[i], phone, since) ==>
                  exists j :: 0 <= j < |t| && t[j] != w.recipients[j])
  {
    var since := Since(now, windowHours);
    var target := ReplyTarget(w.recipients, phone, since);
    if target.Some? {
      var j := target.value;
      assert After(w, Reply(phone, now, windowHours)).recipients[j] != w.recipients[j];
    }
  }
}
