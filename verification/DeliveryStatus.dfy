/** Provider delivery callbacks folded into a message (app/services/delivery_status.py): they may
    be repeated, reordered or unknown. */
module DeliveryStatus {
  import opened Common

  datatype Status = Queued | Accepted | Sending | Sent | Delivered | Read | Failed | Undelivered | Canceled

  /** A provider's status text after strip and lower-casing. */
  datatype Raw = Canonical(status: Status) | Cancelled | Receiving | Unrecognised(text: string) | Blank

  datatype Message = Message(
    status: Option<Status>,
    provider: Option<Raw>,
    error: Option<string>,
    sentAt: Option<int>,
    deliveredAt: Option<int>,
    readAt: Option<int>,
    failedAt: Option<int>,
    statusUpdatedAt: Option<int>)

  /** A `$set` document; every field it names is present. */
  datatype Update = Update(
    status: Option<Status>,
    provider: Raw,
    error: Option<string>,
    sentAt: Option<int>,
    deliveredAt: Option<int>,
    readAt: Option<int>,
    failedAt: Option<int>,
    statusUpdatedAt: int)

  function NormalizeStatus(raw: Raw): Option<Status> {
    match raw
    case Canonical(status) => Some(status)
    case Cancelled => Some(Canceled)
    case Receiving => Some(Accepted)
    case Unrecognised(_) => None
    case Blank => None
  }

  predicate IsFailure(status: Status) {
    status.Failed? || status.Undelivered? || status.Canceled?
  }

  function Rank(status: Status): int {
    match status
    case Queued => 10
    case Accepted => 20
    case Sending => 30
    case Sent => 40
    case Delivered => 50
    case Read => 60
    case _ => 0
  }

  predicate ShouldApply(current: Option<Status>, incoming: Status) {
    if current.None? then true
    else if current.value == incoming then false
    else if IsFailure(incoming) then true
    else if IsFailure(current.value) then false
    else Rank(incoming) > Rank(current.value)
  }

  function BuildStatusUpdate(m: Message, raw: Raw, error: Option<string>, now: int): Option<Update> {
    var normalized := NormalizeStatus(raw);
    if normalized.None? then
      if raw.Blank? || m.provider == Some(raw) then None
      else Some(Update(None, raw, None, None, None, None, None, now))
    else
      var incoming := normalized.value;
      if !ShouldApply(m.status, incoming) then None
      else
        var provider := Canonical(incoming);
        if IsFailure(incoming) then
          Some(Update(Some(incoming), provider, error, None, None, None,
                      if m.failedAt.None? then Some(now) else None, now))
        else
          var sent := if Rank(incoming) >= Rank(Sent) && m.sentAt.None? then Some(now) else None;
          var delivered := if Rank(incoming) >= Rank(Delivered) && m.deliveredAt.None? then Some(now) else None;
          var read := if incoming.Read? && m.readAt.None? then Some(now) else None;
          Some(Update(Some(incoming), provider, None, sent, delivered, read, None, now))
  }

  function Merge(m: Message, u: Update): Message {
    Message(OrElse(u.status, m.status), Some(u.provider), OrElse(u.error, m.error),
            OrElse(u.sentAt, m.sentAt), OrElse(u.deliveredAt, m.deliveredAt), OrElse(u.readAt, m.readAt),
            OrElse(u.failedAt, m.failedAt), Some(u.statusUpdatedAt))
  }

  datatype Callback = Callback(raw: Raw, error: Option<string>, now: int)

  function Apply(m: Message, c: Callback): Message {
    var u := BuildStatusUpdate(m, c.raw, c.error, c.now);
    if u.None? then m else Merge(m, u.value)
  }

  function Fold(m: Message, callbacks: seq<Callback>): Message
    decreases |callbacks|
  {
    if callbacks == [] then m
    else Apply(Fold(m, callbacks[..|callbacks| - 1]), Last(callbacks))
  }

  /** Each success leads on to those after it. */
  function Ahead(s: Status): set<Status> {
    match s
    case Queued => {Accepted, Sending, Sent, Delivered, Read}
    case Accepted => {Sending, Sent, Delivered, Read}
    case Sending => {Sent, Delivered, Read}
    case Sent => {Delivered, Read}
    case Delivered => {Read}
    case _ => {}
  }

  /** One callback, without ranks. A failure always counts; a success counts for a message without a
      status, and for one that has it still ahead. */
  lemma CallbackCounts(m: Message, s: Status, error: Option<string>, now: int)
    ensures Apply(m, Callback(Canonical(s), error, now)).status ==
            if s in {Failed, Undelivered, Canceled} || m.status.None? || s in Ahead(m.status.value) then Some(s)
            else m.status
  {
  }

  /** Two more texts are read as statuses; any other changes none. */
  lemma OtherTexts(m: Message, text: string, error: Option<string>, now: int)
    ensures Apply(m, Callback(Cancelled, error, now)) == Apply(m, Callback(Canonical(Canceled), error, now))
    ensures Apply(m, Callback(Receiving, error, now)) == Apply(m, Callback(Canonical(Accepted), error, now))
    ensures Apply(m, Callback(Unrecognised(text), error, now)).status == m.status
    ensures Apply(m, Callback(Blank, error, now)) == m
  {
  }

  // ---- Where a sequence of callbacks ends -------------------------------------------------------

  function LastFailure(callbacks: seq<Callback>): (last: Option<Status>)
    ensures last.Some? ==> IsFailure(last.value)
    decreases |callbacks|
  {
    if callbacks == [] then None
    else
      var s := NormalizeStatus(Last(callbacks).raw);
      if s.Some? && IsFailure(s.value) then s else LastFailure(callbacks[..|callbacks| - 1])
  }

  /** The furthest success among a starting status, if any, and the callbacks. */
  function Furthest(from: Option<Status>, callbacks: seq<Callback>): (furthest: Option<Status>)
    requires from.Some? ==> !IsFailure(from.value)
    ensures furthest.Some? ==> !IsFailure(furthest.value)
    decreases |callbacks|
  {
    if callbacks == [] then from
    else
      var before := Furthest(from, callbacks[..|callbacks| - 1]);
      var s := NormalizeStatus(Last(callbacks).raw);
      if s.Some? && !IsFailure(s.value) && (before.None? || Rank(s.value) > Rank(before.value)) then s else before
  }

  predicate HasFailed(m: Message) {
    m.status.Some? && IsFailure(m.status.value)
  }

  /** Any sequence of callbacks ends at its last failure. When there is none, a message that had
      failed stays as it was, and any other ends at the furthest success. */
  lemma {:induction false} FoldEndsAt(m: Message, callbacks: seq<Callback>)
    ensures Fold(m, callbacks).status ==
            OrElse(LastFailure(callbacks), if HasFailed(m) then m.status else Furthest(m.status, callbacks))
    decreases |callbacks|
  {
    if callbacks != [] {
      FoldEndsAt(m, callbacks[..|callbacks| - 1]);
    }
  }

  function Seen(callbacks: seq<Callback>): set<Status> {
    set i | 0 <= i < |callbacks| && NormalizeStatus(callbacks[i].raw).Some? ::
      NormalizeStatus(callbacks[i].raw).value
  }

  lemma SeenNext(callbacks: seq<Callback>, c: Callback)
    ensures var s := NormalizeStatus(c.raw);
            Seen(callbacks + [c]) == Seen(callbacks) + if s.Some? then {s.value} else {}
  {
    var more := callbacks + [c];
    assert more[|callbacks|] == c;
    forall i | 0 <= i < |callbacks|
      ensures more[i] == callbacks[i]
    {
    }
    assert Seen(callbacks) <= Seen(more);
  }

  /** The furthest success is the highest in rank of those there are. */
  lemma {:induction false} FurthestIsMaximum(from: Option<Status>, callbacks: seq<Callback>)
    requires from.Some? ==> !IsFailure(from.value)
    ensures var all := Seen(callbacks) + if from.Some? then {from.value} else {};
            var furthest := Furthest(from, callbacks);
            && (furthest.Some? ==> furthest.value in all)
            && forall s :: s in all && !IsFailure(s) ==> furthest.Some? && Rank(s) <= Rank(furthest.value)
    decreases |callbacks|
  {
    if callbacks != [] {
      var shorter := callbacks[..|callbacks| - 1];
      FurthestIsMaximum(from, shorter);
      SeenNext(shorter, Last(callbacks));
      assert shorter + [Last(callbacks)] == callbacks;
    }
  }

  lemma {:induction false} LastFailureIsSeen(callbacks: seq<Callback>)
    ensures var last := LastFailure(callbacks);
            if last.Some? then last.value in Seen(callbacks) else forall s :: s in Seen(callbacks) ==> !IsFailure(s)
    decreases |callbacks|
  {
    if callbacks != [] {
      var shorter := callbacks[..|callbacks| - 1];
      LastFailureIsSeen(shorter);
      SeenNext(shorter, Last(callbacks));
      assert shorter + [Last(callbacks)] == callbacks;
    }
  }

  // ---- When the order matters ---------------------------------------------------------------------

  predicate OneFailureAtMost(statuses: set<Status>) {
    forall x, y :: x in statuses && y in statuses && IsFailure(x) && IsFailure(y) ==> x == y
  }

  lemma SameStatusesEndAlike(m: Message, a: seq<Callback>, b: seq<Callback>)
    requires Seen(a) == Seen(b) && OneFailureAtMost(Seen(a))
    ensures Fold(m, a).status == Fold(m, b).status
  {
    FoldEndsAt(m, a);
    FoldEndsAt(m, b);
    LastFailureIsSeen(a);
    LastFailureIsSeen(b);
    if !HasFailed(m) {
      FurthestIsMaximum(m.status, a);
      FurthestIsMaximum(m.status, b);
    }
  }

  /** Callbacks that mention these statuses and no other, the given one last. */
  lemma {:induction false} MentionAll(statuses: set<Status>, last: Status) returns (callbacks: seq<Callback>)
    ensures callbacks != [] && Last(callbacks) == Callback(Canonical(last), None, 0)
    ensures Seen(callbacks) == statuses + {last}
    decreases |statuses|
  {
    var mentioned := [];
    if s :| s in statuses {
      mentioned := MentionAll(statuses - {s}, s);
    }
    SeenNext(mentioned, Callback(Canonical(last), None, 0));
    callbacks := mentioned + [Callback(Canonical(last), None, 0)];
  }

  /** For every message and every set of statuses: all sequences of callbacks that mention just these
      statuses, in any order and any number of times, end alike exactly when there are no two
      different failures among them. */
  lemma OrderDoesNotMatterExactly(m: Message, statuses: set<Status>)
    ensures (forall a, b :: Seen(a) == statuses && Seen(b) == statuses ==> Fold(m, a).status == Fold(m, b).status)
            <==> OneFailureAtMost(statuses)
  {
    if OneFailureAtMost(statuses) {
      forall a, b | Seen(a) == statuses && Seen(b) == statuses
        ensures Fold(m, a).status == Fold(m, b).status
      {
        SameStatusesEndAlike(m, a, b);
      }
    } else {
      var x, y :| x in statuses && y in statuses && IsFailure(x) && IsFailure(y) && x != y;
      var a := MentionAll(statuses, x);
      var b := MentionAll(statuses, y);
      FoldEndsAt(m, a);
      FoldEndsAt(m, b);
      assert statuses + {x} == statuses == statuses + {y};
      assert Seen(a) == statuses && Seen(b) == statuses;
      assert Fold(m, a).status != Fold(m, b).status;
    }
  }

  // ---- Timestamps ---------------------------------------------------------------------------------

  predicate Before(a: Option<int>, b: Option<int>) {
    b.Some? ==> a.Some? && a.value <= b.value
  }

  /** The times of a message at clock reading `now`: each success time is there exactly when the
      message got that far, they are in order, and a failure is timed. */
  predicate TimesInOrder(m: Message, now: int) {
    && m.status.Some?
    && (!IsFailure(m.status.value) ==>
          && (m.sentAt.Some? <==> Rank(m.status.value) >= Rank(Sent))
          && (m.deliveredAt.Some? <==> Rank(m.status.value) >= Rank(Delivered))
          && (m.readAt.Some? <==> m.status.value.Read?))
    && (m.failedAt.Some? <==> IsFailure(m.status.value))
    && Before(m.sentAt, m.deliveredAt)
    && Before(m.deliveredAt, m.readAt)
    && (m.sentAt.Some? ==> m.sentAt.value <= now)
    && (m.deliveredAt.Some? ==> m.deliveredAt.value <= now)
    && (m.readAt.Some? ==> m.readAt.value <= now)
  }

  /** A time once written stays. */
  predicate TimesKept(m: Message, after: Message) {
    && (m.sentAt.Some? ==> after.sentAt == m.sentAt)
    && (m.deliveredAt.Some? ==> after.deliveredAt == m.deliveredAt)
    && (m.readAt.Some? ==> after.readAt == m.readAt)
    && (m.failedAt.Some? ==> after.failedAt == m.failedAt)
  }

  lemma CallbackKeepsTimes(m: Message, c: Callback, since: int)
    requires TimesInOrder(m, since) && since <= c.now
    ensures TimesInOrder(Apply(m, c), c.now) && TimesKept(m, Apply(m, c))
    ensures NormalizeStatus(c.raw).None? ==> Apply(m, c).status == m.status
    ensures IsFailure(m.status.value) ==> IsFailure(Apply(m, c).status.value)
  {
  }

  ghost predicate Clocked(callbacks: seq<Callback>, start: int) {
    && (forall i :: 0 <= i < |callbacks| ==> start <= callbacks[i].now)
    && forall i, j :: 0 <= i < j < |callbacks| ==> callbacks[i].now <= callbacks[j].now
  }

  /** Under a clock that does not run back, any sequence of callbacks keeps the times in order and
      never rewrites one, and a failed message stays failed. */
  lemma {:induction false} TimesStayInOrder(m: Message, callbacks: seq<Callback>, start: int)
    requires TimesInOrder(m, start) && Clocked(callbacks, start)
    ensures TimesInOrder(Fold(m, callbacks), if callbacks == [] then start else Last(callbacks).now)
    ensures TimesKept(m, Fold(m, callbacks))
    ensures IsFailure(m.status.value) ==> IsFailure(Fold(m, callbacks).status.value)
    decreases |callbacks|
  {
    if callbacks != [] {
      var shorter := callbacks[..|callbacks| - 1];
      TimesStayInOrder(m, shorter, start);
      assert shorter != [] ==> Last(shorter) == callbacks[|callbacks| - 2];
      CallbackKeepsTimes(Fold(m, shorter), Last(callbacks), if shorter == [] then start else Last(shorter).now);
    }
  }
}
