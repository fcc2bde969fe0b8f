/** Redelivered inbound webhooks (app/services/inbound_whatsapp.py): the claim on webhook_events,
    which the database purges after 30 days, and the insert of the message row. Every delivery is
    a worker of its own; each database command is one step. */
module InboundDelivery {
  import opened Common

  datatype Provider = Twilio | Meta | OtherProvider

  /** A provider and the message id it sent, stripped. */
  datatype Key = Key(provider: Provider, id: string)

  datatype Event = Event(receivedAt: int, owner: nat)

  datatype Row = Row(key: Key, owner: nat)

  datatype Stage =
    | Waiting
    | Absent                          // found no event; about to insert one
    | Claimed(at: int)                // may go on to store the message
    | Stored(at: int)                 // holds the row it inserted
    | Refused                         // answered "duplicate" or "missing_id" at the claim
    | Stopped(at: int)                // gave up, crashed or met a duplicate row after the claim
    | Returned(at: int, flags: bool)  // answered after storing, with or without an enqueue flag

  datatype Delivery = Delivery(key: Key, stage: Stage)

  datatype State = State(
    clock: int,
    events: map<Key, Event>,
    messages: seq<Row>,
    deliveries: seq<Delivery>)

  const RETENTION: int := 60 * 60 * 24 * 30

  datatype Step =
    | Tick(seconds: nat)
    | Purge(key: Key)
    | Arrive(key: Key)
    | Find(w: nat)
    | InsertEvent(w: nat)
    | InsertMessage(w: nat)
    | GiveUp(w: nat)
    | Return(w: nat, flags: bool)

  /** The unique indexes cover string ids only; an empty id is stored as null. */
  predicate Indexed(key: Key) {
    key.id != ""
  }

  predicate HasRow(messages: seq<Row>, key: Key) {
    exists i :: 0 <= i < |messages| && messages[i].key == key
  }

  predicate Enabled(s: State, step: Step) {
    match step
    case Tick(_) => true
    case Purge(key) => key in s.events && s.events[key].receivedAt + RETENTION <= s.clock
    case Arrive(_) => true
    case Find(w) => w < |s.deliveries| && s.deliveries[w].stage.Waiting?
    case InsertEvent(w) => w < |s.deliveries| && s.deliveries[w].stage.Absent?
    case InsertMessage(w) => w < |s.deliveries| && s.deliveries[w].stage.Claimed?
    case GiveUp(w) =>
      w < |s.deliveries| && (s.deliveries[w].stage.Claimed? || s.deliveries[w].stage.Stored?)
    case Return(w, _) => w < |s.deliveries| && s.deliveries[w].stage.Stored?
  }

  function MoveTo(s: State, w: nat, stage: Stage): State
    requires w < |s.deliveries|
  {
    s.(deliveries := s.deliveries[w := s.deliveries[w].(stage := stage)])
  }

  /** The read of the claim: an empty id is let through for Twilio and refused for Meta, and any
      other provider is refused. */
  function AfterFind(s: State, key: Key): Stage {
    if key.provider.OtherProvider? then Refused
    else if !Indexed(key) then (if key.provider.Twilio? then Claimed(s.clock) else Refused)
    else if key in s.events then Refused
    else Absent
  }

  function After(s: State, step: Step): State
    requires Enabled(s, step)
  {
    match step
    case Tick(seconds) => s.(clock := s.clock + seconds)
    case Purge(key) => s.(events := s.events - {key})
    case Arrive(key) => s.(deliveries := s.deliveries + [Delivery(key, Waiting)])
    case Find(w) => MoveTo(s, w, AfterFind(s, s.deliveries[w].key))
    case InsertEvent(w) =>
      var key := s.deliveries[w].key;
      if key in s.events then MoveTo(s, w, Refused)
      else MoveTo(s, w, Claimed(s.clock)).(events := s.events[key := Event(s.clock, w)])
    case InsertMessage(w) =>
      var d := s.deliveries[w];
      if Indexed(d.key) && HasRow(s.messages, d.key) then MoveTo(s, w, Stopped(d.stage.at))
      else MoveTo(s, w, Stored(d.stage.at)).(messages := s.messages + [Row(d.key, w)])
    case GiveUp(w) => MoveTo(s, w, Stopped(s.deliveries[w].stage.at))
    case Return(w, flags) => MoveTo(s, w, Returned(s.deliveries[w].stage.at, flags))
  }

  ghost predicate Next(s: State, t: State) {
    exists step :: Enabled(s, step) && t == After(s, step)
  }

  ghost predicate Run(run: seq<State>) {
    && run != []
    && run[0].events == map[] && run[0].messages == [] && run[0].deliveries == []
    && forall i :: 0 <= i < |run| - 1 ==> Next(run[i], run[i + 1])
  }

  // ---- At most once ---------------------------------------------------------------------------------

  /** Did this delivery put the message row in? */
  predicate HoldsRow(d: Delivery) {
    d.stage.Stored? || d.stage.Returned?
  }

  predicate Enqueued(d: Delivery, key: Key) {
    d.key == key && d.stage.Returned? && d.stage.flags
  }

  /** At most one row is stored under the key and at most one of its deliveries asks for jobs. */
  ghost predicate AtMostOnce(s: State, key: Key) {
    && (forall i, j | 0 <= i < j < |s.messages| :: !(s.messages[i].key == key == s.messages[j].key))
    && (forall v, w | 0 <= v < w < |s.deliveries| :: !(Enqueued(s.deliveries[v], key) && Enqueued(s.deliveries[w], key)))
  }

  ghost predicate RowsFollowDeliveries(s: State) {
    && (forall i, j :: 0 <= i < j < |s.messages| && Indexed(s.messages[i].key) ==>
          s.messages[i].key != s.messages[j].key)
    && (forall i :: 0 <= i < |s.messages| ==>
          Indexed(s.messages[i].key) || s.messages[i].key.provider.Twilio?)
    && (forall w :: 0 <= w < |s.deliveries| && HoldsRow(s.deliveries[w]) ==>
          Row(s.deliveries[w].key, w) in s.messages)
    && (forall w :: 0 <= w < |s.deliveries| && !s.deliveries[w].stage.Waiting? && !s.deliveries[w].stage.Refused? ==>
          Indexed(s.deliveries[w].key) || s.deliveries[w].key.provider.Twilio?)
  }

  lemma RowsStep(s: State, step: Step)
    requires RowsFollowDeliveries(s) && Enabled(s, step)
    ensures RowsFollowDeliveries(After(s, step))
  {
    var t := After(s, step);
    forall w | 0 <= w < |t.deliveries| && HoldsRow(t.deliveries[w])
      ensures Row(t.deliveries[w].key, w) in t.messages
    {
      if w < |s.deliveries| && !HoldsRow(s.deliveries[w]) {
        assert t.messages[|s.messages|] == Row(t.deliveries[w].key, w);
      }
    }
  }

  lemma {:induction false} EveryRunFollows(run: seq<State>, i: nat)
    requires Run(run) && i < |run|
    ensures RowsFollowDeliveries(run[i])
  {
    if i > 0 {
      EveryRunFollows(run, i - 1);
      assert Next(run[i - 1], run[i - 1 + 1]);
      var step :| Enabled(run[i - 1], step) && run[i] == After(run[i - 1], step);
      RowsStep(run[i - 1], step);
    }
  }

  /** Over every interleaving of any deliveries, even after purges: for a message with an id at
      most one row is stored and at most one delivery returns an enqueue flag. */
  lemma EveryRunIsAtMostOnce(run: seq<State>, key: Key)
    requires Run(run) && key != Key(Twilio, "")
    ensures AtMostOnce(Last(run), key)
  {
    var s := Last(run);
    EveryRunFollows(run, |run| - 1);
  }

  lemma Extend(run: seq<State>, step: Step) returns (longer: seq<State>)
    requires Run(run) && Enabled(Last(run), step)
    ensures longer == run + [After(Last(run), step)]
    ensures Run(longer)
  {
    longer := run + [After(Last(run), step)];
    assert Next(Last(run), Last(longer));
    forall i | 0 <= i < |longer| - 1
      ensures Next(longer[i], longer[i + 1])
    {
      if i < |run| - 1 {
        assert Next(run[i], run[i + 1]);
      }
    }
  }

  /** A Twilio message without an id is stored and enqueued once for every delivery. */
  lemma MissingTwilioIdIsStoredTwice() returns (run: seq<State>)
    ensures Run(run) && !AtMostOnce(Last(run), Key(Twilio, ""))
  {
    var key := Key(Twilio, "");
    run := [State(0, map[], [], [])];
    run := Extend(run, Arrive(key));
    run := Extend(run, Find(0));
    run := Extend(run, InsertMessage(0));
    run := Extend(run, Return(0, true));
    run := Extend(run, Arrive(key));
    run := Extend(run, Find(1));
    run := Extend(run, InsertMessage(1));
    run := Extend(run, Return(1, true));
    assert Enqueued(Last(run).deliveries[0], key) && Enqueued(Last(run).deliveries[1], key);
  }

  /** So a key is handled at most once in every run exactly when it is not a Twilio message
      without an id. */
  lemma AtMostOnceExactly(key: Key)
    ensures (forall run :: Run(run) ==> AtMostOnce(Last(run), key)) <==> key != Key(Twilio, "")
  {
    if key == Key(Twilio, "") {
      var run := MissingTwilioIdIsStoredTwice();
    } else {
      forall run | Run(run)
        ensures AtMostOnce(Last(run), key)
      {
        EveryRunIsAtMostOnce(run, key);
      }
    }
  }

  // ---- The claim itself -----------------------------------------------------------------------------

  predicate PassedClaim(d: Delivery) {
    d.stage.Claimed? || d.stage.Stored? || d.stage.Stopped? || d.stage.Returned?
  }

  /** Two deliveries of one indexed message pass the claim only a whole retention apart. */
  ghost predicate ClaimsApart(s: State) {
    forall v, w :: 0 <= v < |s.deliveries| && 0 <= w < |s.deliveries| && v != w ==>
      Apart(s.deliveries[v], s.deliveries[w])
  }

  predicate Apart(d: Delivery, e: Delivery) {
    PassedClaim(d) && PassedClaim(e) && d.key == e.key && Indexed(d.key) ==>
      d.stage.at + RETENTION <= e.stage.at || e.stage.at + RETENTION <= d.stage.at
  }

  /** The event of a delivery that passed is still there, or a retention has gone by. */
  predicate Accounted(s: State, w: nat)
    requires w < |s.deliveries|
  {
    var d := s.deliveries[w];
    PassedClaim(d) && Indexed(d.key) ==>
      && d.stage.at <= s.clock
      && (d.stage.at + RETENTION <= s.clock || (d.key in s.events && s.events[d.key] == Event(d.stage.at, w)))
  }

  ghost predicate ClaimsFollowEvents(s: State) {
    && ClaimsApart(s)
    && (forall w :: 0 <= w < |s.deliveries| ==> Accounted(s, w))
    && (forall w :: 0 <= w < |s.deliveries| && s.deliveries[w].stage.Absent? ==> Indexed(s.deliveries[w].key))
  }

  lemma AccountedStep(s: State, step: Step, w: nat)
    requires ClaimsFollowEvents(s) && Enabled(s, step) && w < |After(s, step).deliveries|
    ensures Accounted(After(s, step), w)
  {
    hide ClaimsApart;
    assert w < |s.deliveries| ==> Accounted(s, w);
  }

  lemma ApartStep(s: State, step: Step, v: nat, w: nat)
    requires ClaimsFollowEvents(s) && Enabled(s, step)
    requires v < |After(s, step).deliveries| && w < |After(s, step).deliveries| && v != w
    ensures Apart(After(s, step).deliveries[v], After(s, step).deliveries[w])
  {
    if v < |s.deliveries| && w < |s.deliveries| {
      assert Apart(s.deliveries[v], s.deliveries[w]);
      assert Accounted(s, v) && Accounted(s, w);
    }
  }

  lemma ClaimsStep(s: State, step: Step)
    requires ClaimsFollowEvents(s) && Enabled(s, step)
    ensures ClaimsFollowEvents(After(s, step))
  {
    hide Apart, Accounted;
    var t := After(s, step);
    forall w | 0 <= w < |t.deliveries|
      ensures Accounted(t, w)
    {
      AccountedStep(s, step, w);
    }
    forall v, w | 0 <= v < |t.deliveries| && 0 <= w < |t.deliveries| && v != w
      ensures Apart(t.deliveries[v], t.deliveries[w])
    {
      ApartStep(s, step, v, w);
    }
  }

  /** The guard against redelivery holds for 30 days from the claim and no longer: two deliveries
      of one message pass it only if they do so at least a retention apart. */
  lemma {:induction false} EveryRunClaimsApart(run: seq<State>, i: nat)
    requires Run(run) && i < |run|
    ensures ClaimsFollowEvents(run[i])
  {
    if i > 0 {
      EveryRunClaimsApart(run, i - 1);
      assert Next(run[i - 1], run[i - 1 + 1]);
      var step :| Enabled(run[i - 1], step) && run[i] == After(run[i - 1], step);
      ClaimsStep(run[i - 1], step);
    }
  }

  // ---- Not exactly once -----------------------------------------------------------------------------

  /** Delivery `w` of this message passed the claim, ended without a row, and nobody else has
      stored one; its claim is less than a retention old. */
  ghost predicate Unstored(s: State, key: Key, w: nat) {
    && Indexed(key)
    && w < |s.deliveries| && s.deliveries[w].key == key && s.deliveries[w].stage.Stopped?
    && !HasRow(s.messages, key)
    && s.clock < s.deliveries[w].stage.at + RETENTION
  }

  /** Is some delivery of this message past its claim and about to store it? */
  ghost predicate AboutToStore(s: State, key: Key) {
    exists v :: 0 <= v < |s.deliveries| && s.deliveries[v].key == key && s.deliveries[v].stage.Claimed?
  }

  ghost predicate Lost(s: State, key: Key, w: nat) {
    Unstored(s, key, w) && !AboutToStore(s, key)
  }

  lemma LostStep(s: State, step: Step, key: Key, w: nat)
    requires ClaimsFollowEvents(s) && Lost(s, key, w) && Enabled(s, step)
    requires After(s, step).clock < s.deliveries[w].stage.at + RETENTION
    ensures Lost(After(s, step), key, w) && After(s, step).deliveries[w] == s.deliveries[w]
  {
    hide ClaimsApart;
    assert Accounted(s, w);
    var t := After(s, step);
    forall v | 0 <= v < |t.deliveries| && t.deliveries[v].key == key
      ensures !t.deliveries[v].stage.Claimed?
    {
      assert v < |s.deliveries| && s.deliveries[v].key == key ==> !s.deliveries[v].stage.Claimed?;
    }
  }

  /** The claim comes before the row, so a message whose first delivery fails in between stays lost:
      within the retention no redelivery can store it. */
  lemma {:induction false} LostMessageStaysLost(run: seq<State>, i: nat, j: nat, key: Key, w: nat)
    requires Run(run) && i <= j < |run|
    requires Lost(run[i], key, w) && run[j].clock < run[i].deliveries[w].stage.at + RETENTION
    ensures Lost(run[j], key, w) && run[j].deliveries[w] == run[i].deliveries[w]
  {
    hide ClaimsFollowEvents, Lost, After, Enabled;
    if i < j {
      assert Next(run[j - 1], run[j - 1 + 1]);
      var step :| Enabled(run[j - 1], step) && run[j] == After(run[j - 1], step);
      EveryRunClaimsApart(run, j - 1);
      ClockOnlyAdvances(run[j - 1], step);
      LostMessageStaysLost(run, i, j - 1, key, w);
      LostStep(run[j - 1], step, key, w);
    }
  }

  /** Every message with an id can be lost: its first delivery only has to stop after the claim. */
  lemma MessageCanBeLost(key: Key) returns (run: seq<State>)
    requires Indexed(key) && !key.provider.OtherProvider?
    ensures Run(run) && Lost(Last(run), key, 0)
  {
    run := [State(0, map[], [], [])];
    run := Extend(run, Arrive(key));
    run := Extend(run, Find(0));
    run := Extend(run, InsertEvent(0));
    run := Extend(run, GiveUp(0));
  }

  /** This run goes on from that one, and ends while the claim of delivery `w` is still kept. */
  ghost predicate Continues(longer: seq<State>, run: seq<State>, w: nat)
    requires run != [] && w < |Last(run).deliveries| && PassedClaim(Last(run).deliveries[w])
  {
    && Run(longer) && run <= longer
    && Last(longer).clock < Last(run).deliveries[w].stage.at + RETENTION
  }

  /** What makes the loss final: within the retention the message can still be stored, by some
      continuation of the run, exactly when another delivery of it is past its own claim. */
  lemma StoredLaterExactly(run: seq<State>, key: Key, w: nat)
    requires Run(run) && Unstored(Last(run), key, w)
    ensures (exists longer :: Continues(longer, run, w) && HasRow(Last(longer).messages, key))
            <==> AboutToStore(Last(run), key)
  {
    var s := Last(run);
    if v: nat :| v < |s.deliveries| && s.deliveries[v].key == key && s.deliveries[v].stage.Claimed? {
      var longer := Extend(run, InsertMessage(v));
      assert Last(longer).messages[|s.messages|].key == key;
      assert Continues(longer, run, w);
    } else {
      forall longer | Continues(longer, run, w)
        ensures !HasRow(Last(longer).messages, key)
      {
        assert longer[|run| - 1] == s;
        LostMessageStaysLost(longer, |run| - 1, |longer| - 1, key, w);
      }
    }
  }

  lemma ClockOnlyAdvances(s: State, step: Step)
    requires Enabled(s, step)
    ensures s.clock <= After(s, step).clock
  {
  }
}
