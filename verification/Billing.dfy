/** What Stripe events do to the users collection (app/routes/billing.py) and the plan whose
    entitlements then apply (app/services/entitlements.py). One handler is one atomic step. */
module Billing {
  import opened Common

  type UserId = nat

  /** A plan key after normalisation: a missing or unknown key is Free. */
  datatype Plan = Free | Starter | Professional | Business | Enterprise

  /** A subscription status after strip and lower-casing; Absent is a missing field. */
  datatype Status =
    | Absent
    | NoneStatus
    | Incomplete
    | Trialing
    | Active
    | PastDue
    | Canceled
    | ManualOverride
    | Other(text: string)

  datatype User = User(
    plan: Plan,
    status: Status,
    customer: Option<string>,
    subscription: Option<string>,
    createdAt: Option<int>,
    cancelledAt: Option<int>,
    trialEndsAt: Option<int>,
    latestInvoice: Option<string>,
    lastPaymentAt: Option<int>)

  /** The identifiers by which an event names its user. */
  datatype Ref = Ref(user: Option<UserId>, customer: Option<string>, subscription: Option<string>)

  datatype Subscription = Subscription(
    id: string,
    customer: Option<string>,
    user: Option<UserId>,
    price: Option<string>,
    appPlan: Plan,
    status: Status,
    created: Option<int>,
    trialEnd: Option<int>,
    canceledAt: Option<int>)

  datatype Payment = Paid | PaymentFailed | Finalized | ActionRequired

  datatype StripeEvent =
    | CheckoutCompleted(ref: Ref, appPlan: Plan)
    | CheckoutExpired
    | SubscriptionChanged(sub: Subscription)
    | SubscriptionDeleted(sub: Subscription)
    | TrialWillEnd(sub: Subscription)
    | Invoice(id: string, invoiceRef: Ref, payment: Payment, paidAt: Option<int>)
    | Ignored

  /** The configured price ids and the length of the trial. */
  datatype Config = Config(prices: map<string, Plan>, trialDays: int)

  ghost predicate ValidConfig(cfg: Config) {
    forall p :: p in cfg.prices ==> IsPaid(cfg.prices[p])
  }

  predicate IsPaid(plan: Plan) {
    plan.Starter? || plan.Professional? || plan.Business?
  }

  predicate IsEntitled(status: Status) {
    status.Trialing? || status.Active? || status.PastDue? || status.ManualOverride?
  }

  function EffectivePlan(user: User): Plan {
    if user.plan.Free? || user.plan.Enterprise? || IsEntitled(user.status) then user.plan else Free
  }

  predicate IsManual(user: User) {
    user.status.ManualOverride? || user.plan.Enterprise?
  }

  // ---- Resolving the user ---------------------------------------------------------------

  function FindCustomer(users: seq<User>, customer: string): (found: Option<UserId>)
    ensures found.Some? ==> found.value < |users| && users[found.value].customer == Some(customer)
    ensures found.None? ==> forall u :: 0 <= u < |users| ==> users[u].customer != Some(customer)
  {
    if users == [] then None
    else if Last(users).customer == Some(customer) then Some(|users| - 1)
    else FindCustomer(users[..|users| - 1], customer)
  }

  function FindSubscription(users: seq<User>, id: string): (found: Option<UserId>)
    ensures found.Some? ==> found.value < |users| && users[found.value].subscription == Some(id)
    ensures found.None? ==> forall u :: 0 <= u < |users| ==> users[u].subscription != Some(id)
  {
    if users == [] then None
    else if Last(users).subscription == Some(id) then Some(|users| - 1)
    else FindSubscription(users[..|users| - 1], id)
  }

  datatype Resolution = Resolved(user: UserId) | Nobody | Conflict

  function Resolve(users: seq<User>, ref: Ref): (r: Resolution)
    ensures r.Resolved? ==> r.user < |users|
  {
    if ref.user.Some? then
      var u := ref.user.value;
      if u >= |users| then Conflict
      else if ref.customer.Some? && users[u].customer.Some? && users[u].customer != ref.customer then Conflict
      else Resolved(u)
    else
      var byCustomer := if ref.customer.Some? then FindCustomer(users, ref.customer.value) else None;
      if byCustomer.Some? then Resolved(byCustomer.value)
      else
        var bySub := if ref.subscription.Some? then FindSubscription(users, ref.subscription.value) else None;
        if bySub.Some? then Resolved(bySub.value) else Nobody
  }

  function SubscriptionRef(sub: Subscription): Ref {
    Ref(sub.user, sub.customer, Some(sub.id))
  }

  // ---- The update each event asks for -----------------------------------------------------

  /** A `$set` document: None leaves the field alone. */
  datatype Fields = Fields(
    plan: Option<Plan>,
    status: Option<Status>,
    customer: Option<string>,
    subscription: Option<string>,
    createdAt: Option<int>,
    cancelledAt: Option<int>,
    trialEndsAt: Option<Option<int>>,
    latestInvoice: Option<string>,
    lastPaymentAt: Option<int>)

  const NO_FIELDS := Fields(None, None, None, None, None, None, None, None, None)

  function KeepManualPlan(user: User, fields: Fields): Fields {
    if IsManual(user) then fields.(plan := None, status := None) else fields
  }

  function SetFields(user: User, f: Fields): User {
    User(
      Or(f.plan, user.plan),
      Or(f.status, user.status),
      OrElse(f.customer, user.customer),
      OrElse(f.subscription, user.subscription),
      OrElse(f.createdAt, user.createdAt),
      OrElse(f.cancelledAt, user.cancelledAt),
      Or(f.trialEndsAt, user.trialEndsAt),
      OrElse(f.latestInvoice, user.latestInvoice),
      OrElse(f.lastPaymentAt, user.lastPaymentAt))
  }

  /** The unique indexes on customer and subscription ids reject a value another user holds. */
  predicate HeldByAnother(users: seq<User>, u: UserId, customer: Option<string>, subscription: Option<string>) {
    || (customer.Some? && exists v :: 0 <= v < |users| && v != u && users[v].customer == customer)
    || (subscription.Some? && exists v :: 0 <= v < |users| && v != u && users[v].subscription == subscription)
  }

  predicate Clashes(users: seq<User>, u: UserId, f: Fields) {
    HeldByAnother(users, u, f.customer, f.subscription)
  }

  /** None is the source's exception: a configured price is required when one is given. */
  function PlanOf(cfg: Config, sub: Subscription): (plan: Option<Plan>)
    ensures ValidConfig(cfg) && plan.Some? ==> plan.value.Free? || IsPaid(plan.value)
  {
    if sub.price.Some? && sub.price.value in cfg.prices then Some(cfg.prices[sub.price.value])
    else if !IsPaid(sub.appPlan) then Some(Free)
    else if sub.price.Some? then None
    else Some(sub.appPlan)
  }

  /** The plan and status of a live subscription; None when its price cannot be mapped. */
  function SubscriptionFields(cfg: Config, sub: Subscription, deleted: bool, now: int): Option<Fields> {
    if deleted then
      Some(NO_FIELDS.(plan := Some(Free), status := Some(Canceled), subscription := Some(sub.id),
           cancelledAt := Some(Or(sub.canceledAt, now))))
    else
      var plan := PlanOf(cfg, sub);
      if plan.None? then None
      else
        var canceled := sub.status.Canceled?;
        Some(NO_FIELDS.(
             plan := Some(if canceled then Free else plan.value),
             status := Some(sub.status),
             customer := sub.customer,
             subscription := Some(sub.id),
             createdAt := sub.created,
             trialEndsAt := Some(sub.trialEnd),
             cancelledAt := if canceled then Some(Or(sub.canceledAt, now)) else None))
  }

  function WriteOnce(user: User, f: Fields): Fields {
    if user.createdAt.Some? then f.(createdAt := None) else f
  }

  function CheckoutFields(cfg: Config, ref: Ref, appPlan: Plan): Fields {
    NO_FIELDS.(
    customer := ref.customer,
    subscription := ref.subscription,
    plan := if IsPaid(appPlan) then Some(appPlan) else None,
    status := if !IsPaid(appPlan) then None else if cfg.trialDays > 0 then Some(Trialing) else Some(Active))
  }

  function InvoiceFields(user: User, id: string, payment: Payment, paidAt: Option<int>, now: int): Fields {
    var f := NO_FIELDS.(latestInvoice := Some(id));
    match payment
    case Paid =>
      var paid := f.(lastPaymentAt := Some(Or(paidAt, now)));
      if user.status.Absent? || user.status.NoneStatus? || user.status.Incomplete? || user.status.PastDue? then
        paid.(status := Some(Active))
      else paid
    case PaymentFailed => f.(status := Some(PastDue))
    case Finalized => f
    case ActionRequired => f
  }

  // ---- One event ----------------------------------------------------------------------------

  /** `ok` is whether the handler returned; a handler that raises has written nothing. */
  datatype Handled = Handled(ok: bool, users: seq<User>)

  function Write(users: seq<User>, u: UserId, f: Fields): Handled
    requires u < |users|
  {
    var kept := KeepManualPlan(users[u], f);
    if Clashes(users, u, kept) then Handled(false, users)
    else Handled(true, users[u := SetFields(users[u], kept)])
  }

  /** The user an event is about, as its handler resolves it. */
  function Target(users: seq<User>, event: StripeEvent): (r: Resolution)
    ensures r.Resolved? ==> r.user < |users|
  {
    match event
    case CheckoutCompleted(ref, _) =>
      var first := Resolve(users, ref);
      if first.Resolved? then Resolve(users, ref.(user := Some(first.user))) else first
    case SubscriptionChanged(sub) => Resolve(users, SubscriptionRef(sub))
    case SubscriptionDeleted(sub) => Resolve(users, SubscriptionRef(sub))
    case TrialWillEnd(sub) => Resolve(users, SubscriptionRef(sub))
    case Invoice(_, ref, _, _) => Resolve(users, ref)
    case CheckoutExpired => Nobody
    case Ignored => Nobody
  }

  /** The update an event asks for before the manual plan is protected. */
  function Asked(cfg: Config, user: User, event: StripeEvent, now: int): Option<Fields> {
    match event
    case CheckoutCompleted(ref, appPlan) => Some(CheckoutFields(cfg, ref, appPlan))
    case SubscriptionChanged(sub) =>
      var f := SubscriptionFields(cfg, sub, false, now);
      if f.None? then None else Some(WriteOnce(user, f.value))
    case SubscriptionDeleted(sub) => SubscriptionFields(cfg, sub, true, now)
    case TrialWillEnd(sub) => Some(NO_FIELDS.(trialEndsAt := Some(sub.trialEnd)))
    case Invoice(id, _, payment, paidAt) => Some(InvoiceFields(user, id, payment, paidAt, now))
    case CheckoutExpired => Some(NO_FIELDS)
    case Ignored => Some(NO_FIELDS)
  }

  function Handle(cfg: Config, users: seq<User>, event: StripeEvent, now: int): Handled {
    match Target(users, event)
    case Conflict => Handled(false, users)
    case Nobody => Handled(true, users)
    case Resolved(u) =>
      var f := Asked(cfg, users[u], event, now);
      if f.None? then Handled(false, users) else Write(users, u, f.value)
  }

  /** The users collection with the source's handlers. */
  class UserStore {
    var users: seq<User>
    const cfg: Config

    constructor (cfg: Config, users: seq<User>)
      ensures this.cfg == cfg && this.users == users
    {
      this.cfg, this.users := cfg, users;
    }

    method UpdateOne(u: UserId, f: Fields) returns (ok: bool)
      requires u < |users|
      modifies this
      ensures ok == !Clashes(old(users), u, f)
      ensures users == if ok then old(users)[u := SetFields(old(users)[u], f)] else old(users)
    {
      ok := !Clashes(users, u, f);
      if ok {
        users := users[u := SetFields(users[u], f)];
      }
    }

    method ApplySubscription(sub: Subscription, deleted: bool, now: int) returns (ok: bool)
      modifies this
      ensures var event := if deleted then SubscriptionDeleted(sub) else SubscriptionChanged(sub);
              Handled(ok, users) == Handle(cfg, old(users), event, now)
    {
      match Resolve(users, SubscriptionRef(sub))
      case Conflict => return false;
      case Nobody => return true;
      case Resolved(u) =>
        var fields := SubscriptionFields(cfg, sub, deleted, now);
        if fields.None? {
          return false;
        }
        var f := fields.value;
        if users[u].createdAt.Some? {
          f := f.(createdAt := None);
        } else if !deleted && sub.created.Some? {
          f := f.(createdAt := sub.created);
        }
        ok := UpdateOne(u, KeepManualPlan(users[u], f));
    }

    method HandleCheckoutCompleted(ref: Ref, appPlan: Plan, now: int) returns (ok: bool)
      modifies this
      ensures Handled(ok, users) == Handle(cfg, old(users), CheckoutCompleted(ref, appPlan), now)
    {
      var user := ref.user;
      if user.None? {
        match Resolve(users, ref)
        case Conflict => return false;
        case Nobody => return true;
        case Resolved(u) => user := Some(u);
      }
      var verified := Resolve(users, ref.(user := user));
      if verified.Conflict? {
        return false;
      }
      var f := NO_FIELDS.(customer := ref.customer, subscription := ref.subscription);
      if IsPaid(appPlan) {
        f := f.(plan := Some(appPlan), status := Some(if cfg.trialDays > 0 then Trialing else Active));
      }
      ok := UpdateOne(verified.user, KeepManualPlan(users[verified.user], f));
    }

    method HandleInvoice(id: string, ref: Ref, payment: Payment, paidAt: Option<int>, now: int) returns (ok: bool)
      modifies this
      ensures Handled(ok, users) == Handle(cfg, old(users), Invoice(id, ref, payment, paidAt), now)
    {
      match Resolve(users, ref)
      case Conflict => return false;
      case Nobody => return true;
      case Resolved(u) =>
        var f := NO_FIELDS.(latestInvoice := Some(id));
        if payment.Paid? {
          f := f.(lastPaymentAt := Some(Or(paidAt, now)));
          var st := users[u].status;
          if st.Absent? || st.NoneStatus? || st.Incomplete? || st.Trialing? || st.PastDue? {
            f := f.(status := Some(if st.Trialing? then st else Active));
          }
        } else if payment.PaymentFailed? {
          f := f.(status := Some(PastDue));
        }
        ok := UpdateOne(u, KeepManualPlan(users[u], f));
    }

    method HandleTrialWillEnd(sub: Subscription, now: int) returns (ok: bool)
      modifies this
      ensures Handled(ok, users) == Handle(cfg, old(users), TrialWillEnd(sub), now)
    {
      match Resolve(users, SubscriptionRef(sub))
      case Conflict => return false;
      case Nobody => return true;
      case Resolved(u) =>
        ok := UpdateOne(u, NO_FIELDS.(trialEndsAt := Some(sub.trialEnd)));
    }

    /** The dispatch of the webhook route; `ok` decides whether the event is marked processed. */
    method Dispatch(event: StripeEvent, now: int) returns (ok: bool)
      modifies this
      ensures Handled(ok, users) == Handle(cfg, old(users), event, now)
    {
      ok := true;
      match event
      case CheckoutCompleted(ref, appPlan) => ok := HandleCheckoutCompleted(ref, appPlan, now);
      case CheckoutExpired =>
      case SubscriptionChanged(sub) => ok := ApplySubscription(sub, false, now);
      case SubscriptionDeleted(sub) => ok := ApplySubscription(sub, true, now);
      case TrialWillEnd(sub) => ok := HandleTrialWillEnd(sub, now);
      case Invoice(id, ref, payment, paidAt) => ok := HandleInvoice(id, ref, payment, paidAt, now);
      case Ignored =>
    }
  }

  // ---- Runs -------------------------------------------------------------------------------

  datatype Delivery = Delivery(event: StripeEvent, now: int)

  function After(cfg: Config, users: seq<User>, events: seq<Delivery>): (result: seq<User>)
    decreases |events|
  {
    if events == [] then users
    else
      var before := After(cfg, users, events[..|events| - 1]);
      Handle(cfg, before, Last(events).event, Last(events).now).users
  }

  // ---- Which user an event reaches ------------------------------------------------------------

  predicate Contradicts(user: User, ref: Ref) {
    ref.customer.Some? && user.customer.Some? && user.customer != ref.customer
  }

  predicate HoldsCustomer(users: seq<User>, u: int, ref: Ref) {
    0 <= u < |users| && ref.customer.Some? && users[u].customer == ref.customer
  }

  predicate HoldsSubscription(users: seq<User>, u: int, ref: Ref) {
    0 <= u < |users| && ref.subscription.Some? && users[u].subscription == ref.subscription
  }

  /** A reference conflicts exactly when it names an unknown user or one with another customer id, and
      reaches nobody exactly when it names no user and nobody holds its ids. It reaches the user it
      names, else the holder of its customer id, else the holder of its subscription id. */
  lemma ReferenceReaches(users: seq<User>, ref: Ref, u: UserId)
    requires UniqueIds(users)
    ensures Resolve(users, ref).Conflict? <==>
              && ref.user.Some?
              && (ref.user.value >= |users| || Contradicts(users[ref.user.value], ref))
    ensures Resolve(users, ref).Nobody? <==>
              && ref.user.None?
              && (forall v :: !HoldsCustomer(users, v, ref))
              && (forall v :: !HoldsSubscription(users, v, ref))
    ensures Resolve(users, ref) == Resolved(u) <==>
              || (ref.user == Some(u) && u < |users| && !Contradicts(users[u], ref))
              || (ref.user.None? && HoldsCustomer(users, u, ref))
              || (ref.user.None? && (forall v :: !HoldsCustomer(users, v, ref)) && HoldsSubscription(users, u, ref))
  {
    var byCustomer := if ref.customer.Some? then FindCustomer(users, ref.customer.value) else None;
    var bySub := if ref.subscription.Some? then FindSubscription(users, ref.subscription.value) else None;
    assert byCustomer.Some? ==> HoldsCustomer(users, byCustomer.value, ref);
    assert bySub.Some? ==> HoldsSubscription(users, bySub.value, ref);
    hide FindCustomer, FindSubscription;
  }

  /** Every event is about the user its own reference reaches; a checkout also conflicts when that
      user turns out to have another customer id, and expiries and other events are about nobody. */
  lemma EventReaches(users: seq<User>, event: StripeEvent)
    ensures match event
            case CheckoutCompleted(ref, _) =>
              var first := Resolve(users, ref);
              Target(users, event) ==
              if first.Resolved? && Contradicts(users[first.user], ref) then Conflict else first
            case SubscriptionChanged(sub) =>
              Target(users, event) == Resolve(users, Ref(sub.user, sub.customer, Some(sub.id)))
            case SubscriptionDeleted(sub) =>
              Target(users, event) == Resolve(users, Ref(sub.user, sub.customer, Some(sub.id)))
            case TrialWillEnd(sub) =>
              Target(users, event) == Resolve(users, Ref(sub.user, sub.customer, Some(sub.id)))
            case Invoice(_, ref, _, _) => Target(users, event) == Resolve(users, ref)
            case _ => Target(users, event) == Nobody
  {
  }

  /** The ids an event writes to the user it reaches. */
  function WrittenIds(event: StripeEvent): Ref {
    match event
    case CheckoutCompleted(ref, _) => Ref(None, ref.customer, ref.subscription)
    case SubscriptionChanged(sub) => Ref(None, sub.customer, Some(sub.id))
    case SubscriptionDeleted(sub) => Ref(None, None, Some(sub.id))
    case _ => Ref(None, None, None)
  }

  lemma IdsAreFreeExactly(users: seq<User>, event: StripeEvent, u: UserId)
    ensures IdsAreFree(users, event, u) <==>
              forall v :: v != u ==>
                !HoldsCustomer(users, v, WrittenIds(event)) && !HoldsSubscription(users, v, WrittenIds(event))
  {
    var ids := WrittenIds(event);
    assert IdsAreFree(users, event, u) <==> !HeldByAnother(users, u, ids.customer, ids.subscription);
    if v :| 0 <= v < |users| && v != u && ids.customer.Some? && users[v].customer == ids.customer {
      assert HoldsCustomer(users, v, ids);
    }
    if v :| 0 <= v < |users| && v != u && ids.subscription.Some? && users[v].subscription == ids.subscription {
      assert HoldsSubscription(users, v, ids);
    }
  }

  // ---- What an event leaves in the document -----------------------------------------------------

  /** A live subscription's plan can be told: its price is configured, or it has none, or its metadata
      names no paid plan. */
  predicate PriceMaps(cfg: Config, sub: Subscription) {
    sub.price.None? || sub.price.value in cfg.prices || sub.appPlan in {Free, Enterprise}
  }

  function MappedPlan(cfg: Config, sub: Subscription): Plan {
    if sub.status.Canceled? then Free
    else if sub.price.Some? && sub.price.value in cfg.prices then cfg.prices[sub.price.value]
    else if sub.appPlan in {Starter, Professional, Business} then sub.appPlan
    else Free
  }

  /** Plan and status of a user not assigned by hand. */
  predicate PlanIsLeft(cfg: Config, before: User, after: User, event: StripeEvent) {
    match event
    case CheckoutCompleted(_, appPlan) =>
      if appPlan in {Starter, Professional, Business}
      then after.plan == appPlan && after.status == (if cfg.trialDays > 0 then Trialing else Active)
      else after.plan == before.plan && after.status == before.status
    case SubscriptionChanged(sub) => after.plan == MappedPlan(cfg, sub) && after.status == sub.status
    case SubscriptionDeleted(_) => after.plan == Free && after.status == Canceled
    case Invoice(_, _, Paid, _) =>
      && after.plan == before.plan
      && after.status == if before.status in {Absent, NoneStatus, Incomplete, PastDue} then Active else before.status
    case Invoice(_, _, PaymentFailed, _) => after.plan == before.plan && after.status == PastDue
    case _ => after.plan == before.plan && after.status == before.status
  }

  /** The stored ids: an id the event carries wins. */
  predicate IdsAreLeft(before: User, after: User, event: StripeEvent) {
    match event
    case CheckoutCompleted(ref, _) =>
      && after.customer == (if ref.customer.Some? then ref.customer else before.customer)
      && after.subscription == (if ref.subscription.Some? then ref.subscription else before.subscription)
    case SubscriptionChanged(sub) =>
      && after.customer == (if sub.customer.Some? then sub.customer else before.customer)
      && after.subscription == Some(sub.id)
    case SubscriptionDeleted(sub) => after.customer == before.customer && after.subscription == Some(sub.id)
    case _ => after.customer == before.customer && after.subscription == before.subscription
  }

  predicate TimesAreLeft(before: User, after: User, event: StripeEvent, now: int) {
    && after.createdAt == (if before.createdAt.None? && event.SubscriptionChanged? then event.sub.created
                           else before.createdAt)
    && after.trialEndsAt == (if event.SubscriptionChanged? || event.TrialWillEnd? then event.sub.trialEnd
                             else before.trialEndsAt)
    && after.cancelledAt == (if event.SubscriptionDeleted? || (event.SubscriptionChanged? && event.sub.status.Canceled?)
                             then Some(if event.sub.canceledAt.Some? then event.sub.canceledAt.value else now)
                             else before.cancelledAt)
    && after.latestInvoice == (if event.Invoice? then Some(event.id) else before.latestInvoice)
    && after.lastPaymentAt == (if event.Invoice? && event.payment.Paid?
                               then Some(if event.paidAt.Some? then event.paidAt.value else now)
                               else before.lastPaymentAt)
  }

  /** What every event leaves. It is refused exactly on a conflict, an id that another user holds or
      a price that maps to no plan, and then nothing changes. Otherwise only the user it reaches
      changes, field by field; one assigned by hand keeps plan and status. */
  lemma EventLeaves(cfg: Config, users: seq<User>, event: StripeEvent, now: int)
    ensures var h := Handle(cfg, users, event, now);
            var target := Target(users, event);
            && (h.ok <==> target.Nobody?
                          || (target.Resolved? && IdsAreFree(users, event, target.user)
                              && (event.SubscriptionChanged? ==> PriceMaps(cfg, event.sub))))
            && |h.users| == |users|
            && (forall u :: 0 <= u < |users| && !(h.ok && target == Resolved(u)) ==> h.users[u] == users[u])
            && (h.ok && target.Resolved? ==>
                  var before, after := users[target.user], h.users[target.user];
                  && (if before.status == ManualOverride || before.plan == Enterprise
                      then after.plan == before.plan && after.status == before.status
                      else PlanIsLeft(cfg, before, after, event))
                  && IdsAreLeft(before, after, event)
                  && TimesAreLeft(before, after, event, now))
  {
    hide Resolve;
    var target := Target(users, event);
    if target.Resolved? {
      hide Target;
      HandleLeaves(cfg, users, event, now, target.user);
    }
  }

  lemma HandleLeaves(cfg: Config, users: seq<User>, event: StripeEvent, now: int, u: UserId)
    requires u < |users|
    ensures var f := Asked(cfg, users[u], event, now);
            && (f.None? <==> event.SubscriptionChanged? && !PriceMaps(cfg, event.sub))
            && (f.Some? ==>
                  var before := users[u];
                  var kept := KeepManualPlan(before, f.value);
                  var after := SetFields(before, kept);
                  && (Clashes(users, u, kept) <==> !IdsAreFree(users, event, u))
                  && (if before.status == ManualOverride || before.plan == Enterprise
                      then after.plan == before.plan && after.status == before.status
                      else PlanIsLeft(cfg, before, after, event))
                  && IdsAreLeft(before, after, event)
                  && TimesAreLeft(before, after, event, now))
  {
    hide HeldByAnother;
    NoIdsNoClash(users, u);
  }

  lemma NoIdsNoClash(users: seq<User>, u: UserId)
    ensures !HeldByAnother(users, u, None, None)
  {
  }

  /** What one event may change about one user. */
  lemma StepFacts(cfg: Config, users: seq<User>, event: StripeEvent, now: int, u: UserId)
    requires u < |users|
    ensures var after := Handle(cfg, users, event, now).users;
            && |after| == |users|
            && (Target(users, event) != Resolved(u) ==> after[u] == users[u])
            && (IsManual(users[u]) ==> after[u].plan == users[u].plan && after[u].status == users[u].status)
            && (users[u].createdAt.Some? ==> after[u].createdAt == users[u].createdAt)
  {
  }

  /** No sequence of Stripe events changes the plan, the status or the effective plan of a user
      whose plan was assigned by hand, and such a user stays hand-assigned. */
  lemma {:induction false} ManualPlanSurvives(cfg: Config, users: seq<User>, events: seq<Delivery>, u: UserId)
    requires u < |users| && IsManual(users[u])
    ensures var after := After(cfg, users, events);
            && |after| == |users|
            && after[u].plan == users[u].plan
            && after[u].status == users[u].status
            && EffectivePlan(after[u]) == users[u].plan
            && IsManual(after[u])
    decreases |events|
  {
    if events != [] {
      ManualPlanSurvives(cfg, users, events[..|events| - 1], u);
      var before := After(cfg, users, events[..|events| - 1]);
      StepFacts(cfg, before, Last(events).event, Last(events).now, u);
    }
  }

  /** An event turns a user hand-assigned exactly when it is a live subscription of that user
      whose status reads as the override, whose price can be mapped and whose ids are free. */
  lemma OnlyOverrideStatusMakesManual(cfg: Config, users: seq<User>, event: StripeEvent, now: int, u: UserId)
    requires ValidConfig(cfg) && u < |users| && !IsManual(users[u])
    ensures IsManual(Handle(cfg, users, event, now).users[u]) <==>
              && event.SubscriptionChanged?
              && event.sub.status.ManualOverride?
              && Target(users, event) == Resolved(u)
              && PlanOf(cfg, event.sub).Some?
              && !HeldByAnother(users, u, event.sub.customer, Some(event.sub.id))
  {
  }

  predicate StripeStatusesOnly(events: seq<Delivery>) {
    forall i :: 0 <= i < |events| && events[i].event.SubscriptionChanged? ==>
      !events[i].event.sub.status.ManualOverride?
  }

  lemma {:induction false} StripeNeverMakesManual(cfg: Config, users: seq<User>, events: seq<Delivery>, u: UserId)
    requires ValidConfig(cfg) && u < |users| && !IsManual(users[u]) && StripeStatusesOnly(events)
    ensures |After(cfg, users, events)| == |users| && !IsManual(After(cfg, users, events)[u])
    decreases |events|
  {
    if events != [] {
      StripeNeverMakesManual(cfg, users, events[..|events| - 1], u);
      var before := After(cfg, users, events[..|events| - 1]);
      StepFacts(cfg, before, Last(events).event, Last(events).now, u);
      OnlyOverrideStatusMakesManual(cfg, before, Last(events).event, Last(events).now, u);
    }
  }

  lemma {:induction false} SubscriptionCreatedAtIsWriteOnce(
    cfg: Config, users: seq<User>, events: seq<Delivery>, u: UserId)
    requires u < |users| && users[u].createdAt.Some?
    ensures |After(cfg, users, events)| == |users|
    ensures After(cfg, users, events)[u].createdAt == users[u].createdAt
    decreases |events|
  {
    if events != [] {
      SubscriptionCreatedAtIsWriteOnce(cfg, users, events[..|events| - 1], u);
      StepFacts(cfg, After(cfg, users, events[..|events| - 1]), Last(events).event, Last(events).now, u);
    }
  }

  /** The paid plan an event would have a user use, or Free: a checkout's plan, an entitling
      subscription's plan, or the stored plan when a payment, made or failed, moves the status. */
  function Restored(cfg: Config, user: User, event: StripeEvent): Plan {
    match event
    case CheckoutCompleted(_, appPlan) => if IsPaid(appPlan) then appPlan else Free
    case SubscriptionChanged(sub) =>
      if IsEntitled(sub.status) && PlanOf(cfg, sub).Some? then PlanOf(cfg, sub).value else Free
    case Invoice(_, _, Paid, _) => if user.status in {Absent, NoneStatus, Incomplete} then user.plan else Free
    case Invoice(_, _, PaymentFailed, _) => user.plan
    case _ => Free
  }

  /** No other user holds an id that the event writes. */
  predicate IdsAreFree(users: seq<User>, event: StripeEvent, u: UserId) {
    match event
    case CheckoutCompleted(ref, _) => !HeldByAnother(users, u, ref.customer, ref.subscription)
    case SubscriptionChanged(sub) => !HeldByAnother(users, u, sub.customer, Some(sub.id))
    case SubscriptionDeleted(sub) => !HeldByAnother(users, u, None, Some(sub.id))
    case _ => true
  }

  /** For every user whose effective plan is free, whatever the stored plan and status: an event
      gives a paid effective plan exactly when it restores one, is about that user and writes no
      id that another user holds; and then that very plan. */
  lemma OnlyRestoringEventsRestore(cfg: Config, users: seq<User>, event: StripeEvent, now: int, u: UserId)
    requires ValidConfig(cfg) && u < |users| && EffectivePlan(users[u]) == Free
    ensures EffectivePlan(Handle(cfg, users, event, now).users[u]) ==
            if !IsManual(users[u]) && Target(users, event) == Resolved(u) && IdsAreFree(users, event, u)
            then Restored(cfg, users[u], event) else Free
  {
  }

  /** Invoice, trial, expiry and deletion events carry no plan other than Free. */
  predicate CarriesNoPlan(event: StripeEvent) {
    !event.CheckoutCompleted? && !event.SubscriptionChanged?
  }

  /** A handled deletion takes the effective plan away exactly from users not assigned by hand
      (who keep what they had), and nothing but a checkout or a live subscription gives it back. */
  lemma {:induction false} DeletionIsNotUndone(
    cfg: Config, users: seq<User>, sub: Subscription, now: int, events: seq<Delivery>, u: UserId)
    requires Target(users, SubscriptionDeleted(sub)) == Resolved(u)
    requires !HeldByAnother(users, u, None, Some(sub.id))
    requires forall i :: 0 <= i < |events| ==> CarriesNoPlan(events[i].event)
    ensures var deleted := Handle(cfg, users, SubscriptionDeleted(sub), now).users;
            var after := After(cfg, deleted, events);
            && |after| == |users|
            && (!IsManual(users[u]) ==> after[u].plan == Free && EffectivePlan(after[u]) == Free)
            && (IsManual(users[u]) ==> EffectivePlan(after[u]) == EffectivePlan(users[u]))
            && IsManual(after[u]) == IsManual(users[u])
    decreases |events|
  {
    var deleted := Handle(cfg, users, SubscriptionDeleted(sub), now).users;
    if events != [] {
      DeletionIsNotUndone(cfg, users, sub, now, events[..|events| - 1], u);
      var before := After(cfg, deleted, events[..|events| - 1]);
      StepFacts(cfg, before, Last(events).event, Last(events).now, u);
      assert CarriesNoPlan(Last(events).event);
    }
  }

  /** A paid invoice makes active exactly the accounts that were unset, incomplete or past due, and
      a failed one puts every account past due. Both leave the plan alone; as past due still
      entitles, a failed payment even restores the plan of an account that had lost it. */
  lemma InvoiceMovesStatusOnly(cfg: Config, users: seq<User>, id: string, ref: Ref, paidAt: Option<int>, now: int, u: UserId)
    requires Resolve(users, ref) == Resolved(u) && !IsManual(users[u])
    ensures var paid := Handle(cfg, users, Invoice(id, ref, Paid, paidAt), now);
            var failed := Handle(cfg, users, Invoice(id, ref, PaymentFailed, paidAt), now);
            && paid.ok && failed.ok
            && paid.users[u].plan == failed.users[u].plan == users[u].plan
            && paid.users[u].status ==
               (if users[u].status in {Absent, NoneStatus, Incomplete, PastDue} then Active else users[u].status)
            && failed.users[u].status == PastDue
            && EffectivePlan(failed.users[u]) == users[u].plan
  {
  }

  // ---- The unique indexes ---------------------------------------------------------------------

  ghost predicate UniqueIds(users: seq<User>) {
    forall u, v :: 0 <= u < v < |users| ==>
      && (users[u].customer.Some? ==> users[u].customer != users[v].customer)
      && (users[u].subscription.Some? ==> users[u].subscription != users[v].subscription)
  }

  /** Every run keeps each Stripe customer and subscription with at most one user, so looking a
      user up by customer finds the one the id belongs to. */
  lemma {:induction false} RunsKeepIdsUnique(cfg: Config, users: seq<User>, events: seq<Delivery>)
    requires UniqueIds(users)
    ensures UniqueIds(After(cfg, users, events))
    decreases |events|
  {
    if events != [] {
      RunsKeepIdsUnique(cfg, users, events[..|events| - 1]);
      var before := After(cfg, users, events[..|events| - 1]);
      var last := Last(events);
      match Target(before, last.event)
      case Conflict =>
      case Nobody =>
      case Resolved(u) =>
        var f := Asked(cfg, before[u], last.event, last.now);
        if f.Some? {
          WriteKeepsIdsUnique(before, u, f.value);
        }
    }
  }

  lemma WriteKeepsIdsUnique(users: seq<User>, u: UserId, f: Fields)
    requires u < |users| && UniqueIds(users)
    ensures UniqueIds(Write(users, u, f).users)
  {
    var kept := KeepManualPlan(users[u], f);
    if !Clashes(users, u, kept) {
      forall v | 0 <= v < |users| && v != u
        ensures kept.customer.Some? ==> users[v].customer != kept.customer
        ensures kept.subscription.Some? ==> users[v].subscription != kept.subscription
      {
      }
    }
  }
}
