/** Abandonment is derived, never stored: an open cart is abandoned when the last verb
    that changed it is older than the window. The verbs are the checkout's and the
    cart's own, one at a time; three readers ask the same question of the rows they
    leave, and a recovery send changes no answer. */
module Recovery {
  import opened StorefrontTypes
  import opened CheckoutState
  import opened CheckoutSteps
  import opened CheckoutInvariants
  import opened CheckoutAlone
  import opened CheckoutPlaceAlone

  /** Microseconds in an hour. */
  const HOUR := 3600000000

  const DEFAULT_ABANDONED_AFTER_HOURS := 1

  /** The knob: a missing, unparseable or non-positive value falls back. */
  function AbandonedAfterHours(env: Option<int>): (h: int)
    ensures h > 0 && (env.Some? ==> h == env.value || (h == 1 && env.value <= 0)) && (env.None? ==> h == 1)
  {
    if env.Some? && env.value > 0 then env.value else DEFAULT_ABANDONED_AFTER_HOURS
  }

  /** The tables, and each cart row's last update. */
  datatype Shop = Shop(tab: Tables, clock: map<Id, int>)

  datatype Website = Website(company: Id, deleted: bool, name: string)

  // ── the three readers ─────────────────────────────────────────────────────

  /** Strictly older than the window; a row without a stamp never is. */
  predicate PastWindow(shop: Shop, c: Id, hours: int, now: int) {
    c in shop.clock && shop.clock[c] < now - hours * HOUR
  }

  /** The single-cart check. */
  predicate CartIsAbandoned(shop: Shop, c: Id, hours: int, now: int) {
    IsOpen(shop.tab, c) && PastWindow(shop, c, hours, now)
  }

  /** The officer's read over one company's live websites. */
  function AbandonedForCompany(shop: Shop, websites: map<Id, Website>, company: Id, hours: int, now: int): set<Id> {
    set c | c in shop.tab.carts && IsOpen(shop.tab, c) && PastWindow(shop, c, hours, now)
            && shop.tab.carts[c].website in websites && websites[shop.tab.carts[c].website].company == company
            && !websites[shop.tab.carts[c].website].deleted
  }

  /** The shopper's own read. */
  function AbandonedForIdentity(shop: Shop, visitor: Id, user: Option<Id>, hours: int, now: int): set<Id> {
    set c | c in shop.tab.carts && IsOpen(shop.tab, c) && PastWindow(shop, c, hours, now)
            && (shop.tab.carts[c].visitor == visitor || (user.Some? && shop.tab.carts[c].portalUser == user))
  }

  // ── the recovery send ─────────────────────────────────────────────────────

  datatype Invite = Invite(cart: Id, template: string, notifiedAt: int, state: DeliveryLabel)

  datatype DeliveryLabel = Sent | Unwired | Pending

  datatype SendRefusal =
    | NoSuchCart
    | NotAbandoned
    | SettingsNotFound
    | TemplateRequired
    | NoContactAddress
    | WebsiteNotFound

  /** The website's settings row, its template reference already examined for blanks,
      and the party map's reverse lookup. */
  datatype Contacts = Contacts(settings: map<Id, Option<string>>, addresses: map<Id, string>)

  /** The first check that fails, in the order the send runs them. */
  function SendRefused(shop: Shop, websites: map<Id, Website>, contacts: Contacts, c: Id, hours: int, now: int)
    : Option<SendRefusal>
  {
    var carts := shop.tab.carts;
    if c !in carts || carts[c].website !in websites then Some(NoSuchCart)
    else if !(carts[c].state == Open && PastWindow(shop, c, hours, now)) then Some(NotAbandoned)
    else if carts[c].website !in contacts.settings then Some(SettingsNotFound)
    else if contacts.settings[carts[c].website].None? then Some(TemplateRequired)
    else if carts[c].party.None? || carts[c].party.value !in contacts.addresses then Some(NoContactAddress)
    else if websites[carts[c].website].deleted then Some(WebsiteNotFound)
    else None
  }

  class InviteTable {
    var invites: seq<Invite>

    constructor ()
      ensures invites == []
    {
      invites := [];
    }

    /** A send writes one invite and nothing else; a transport refusal is recorded as
        pending; a failed check writes nothing. */
    method SendRecovery(shop: Shop, websites: map<Id, Website>, contacts: Contacts, c: Id, hours: int, now: int,
                        delivered: Option<DeliveryLabel>) returns (r: Result<DeliveryLabel, SendRefusal>)
      requires delivered != Some(Pending)
      modifies this
      ensures var refused := SendRefused(shop, websites, contacts, c, hours, now);
        if refused.Some? then r == Err(refused.value) && invites == old(invites)
        else
          r == Ok(if delivered.Some? then delivered.value else Pending)
          && invites == old(invites) + [Invite(c, contacts.settings[shop.tab.carts[c].website].value, now, r.value)]
    {
      if c !in shop.tab.carts { return Err(NoSuchCart); }
      var row := shop.tab.carts[c];
      if row.website !in websites { return Err(NoSuchCart); }
      if row.state != Open || c !in shop.clock || shop.clock[c] >= now - hours * HOUR { return Err(NotAbandoned); }
      if row.website !in contacts.settings { return Err(SettingsNotFound); }
      var template := contacts.settings[row.website];
      if template.None? { return Err(TemplateRequired); }
      if row.party.None? || row.party.value !in contacts.addresses { return Err(NoContactAddress); }
      if websites[row.website].deleted { return Err(WebsiteNotFound); }
      var outcome := if delivered.Some? then delivered.value else Pending;
      invites := invites + [Invite(c, template.value, now, outcome)];
      r := Ok(outcome);
    }
  }

  // ── the verbs, one at a time ──────────────────────────────────────────────

  datatype Verb =
    | CreateCart(cart: Id, website: Id, visitor: Id)
    | EditLines(cart: Id, accepted: bool)
    | Coupon(cart: Id, code: Option<string>)
    | Fulfil(cart: Id, verb: LockedVerb, owned: bool)
    | Capture(cart: Id, key: Key, minted: Id)
    | PlaceCart(args: PlaceArgs)
    | Adopt(cart: Id, visitor: Id, user: Id)
    | Recover(cart: Id, visitor: Id, principal: Option<Id>)
    | Settle(gateway: Id, checkout: Id)
    | ConfirmPickup(checkout: Id)
    | Cancel(checkout: Id)
    | Send(cart: Id)

  /** A verb, when it ran and what it could read. */
  datatype Event = Event(at: int, around: Surroundings, verb: Verb)

  /** New ids are new, and a delivery names its own session. */
  predicate Callable(tab: Tables, verb: Verb) {
    match verb
    case CreateCart(c, _, _) => c !in tab.carts
    case Fulfil(_, v, _) => !v.CaptureBilling?
    case PlaceCart(args) => Undrawn(tab, args)
    case Settle(g, x) =>
      g in tab.gateways && tab.gateways[g].settled && x in tab.sessions && tab.sessions[x].gateway == Some(g)
    case EditLines(_, _) => true
    case Coupon(_, _) => true
    case Capture(_, _, _) => true
    case Adopt(_, _, _) => true
    case Recover(_, _, _) => true
    case ConfirmPickup(_) => true
    case Cancel(_) => true
    case Send(_) => true
  }

  /** What the verb does to the tables, with nothing in between; line edits and sends
      write other tables. */
  function EffectOf(tab: Tables, e: Event): Effect {
    if !Callable(tab, e.verb) then Finish(tab, Aborted)
    else
      match e.verb
      case CreateCart(c, website, visitor) => CreateAlone(e.around, tab, c, website, visitor)
      case EditLines(_, _) => Finish(tab, Changed)
      case Coupon(c, code) => CouponAlone(e.around, tab, c, code)
      case Fulfil(c, v, owned) => WriteAlone(e.around, tab, c, v, owned)
      case Capture(c, key, minted) => CaptureAlone(e.around, tab, c, key, minted)
      case PlaceCart(args) => PlaceAlone(e.around, tab, args)
      case Adopt(c, visitor, user) => AdoptAlone(e.around, tab, c, visitor, user)
      case Recover(c, visitor, principal) => RecoverAlone(e.around, tab, c, visitor, principal)
      case Settle(g, x) => ConsumeAlone(e.around, tab, g, x)
      case ConfirmPickup(x) => PickUpAlone(e.around, tab, x)
      case Cancel(x) => CancelAlone(e.around, tab, x)
      case Send(_) => Finish(tab, Changed)
  }

  /** How the verb ended. */
  function EndedAs(tab: Tables, e: Event): Option<Outcome> {
    var at := EffectOf(tab, e).proc.at;
    if at.Done? then Some(at.outcome) else None
  }

  /** The cart whose update stamp the verb writes. A refused verb, a removal that finds
      no line, a recover of the session's own cart and a send write none. */
  function Touched(tab: Tables, e: Event): Option<Id> {
    match e.verb
    case CreateCart(c, _, visitor) => if c !in tab.carts && !HasOpenCart(tab.carts, visitor) then Some(c) else None
    case EditLines(c, accepted) => if accepted && IsOpen(tab, c) then Some(c) else None
    case Coupon(c, _) => if EndedAs(tab, e) == Some(Changed) then Some(c) else None
    case Fulfil(c, _, _) => if EndedAs(tab, e) == Some(Changed) then Some(c) else None
    case Capture(c, key, _) =>
      if EndedAs(tab, e).Some? && EndedAs(tab, e).value.BillingCaptured? then Some(c) else None
    case PlaceCart(args) =>
      if EndedAs(tab, e).Some? && EndedAs(tab, e).value.CheckedOut? then Some(args.cart) else None
    case Adopt(c, _, _) => if EndedAs(tab, e) == Some(Changed) then Some(c) else None
    case Recover(c, visitor, _) =>
      if EndedAs(tab, e) == Some(Changed) && c in tab.carts && tab.carts[c].visitor != visitor then Some(c) else None
    case Cancel(x) =>
      if EndedAs(tab, e) == Some(Changed) && x in tab.sessions then Some(tab.sessions[x].cart) else None
    case Settle(_, _) => None
    case ConfirmPickup(_) => None
    case Send(_) => None
  }

  function After(shop: Shop, e: Event): Shop {
    var touched := Touched(shop.tab, e);
    Shop(EffectOf(shop.tab, e).tab, if touched.Some? then shop.clock[touched.value := e.at] else shop.clock)
  }

  /** The shop after a trace, from any shop. */
  function Run(start: Shop, trace: seq<Event>): Shop {
    if trace == [] then start else After(Run(start, trace[..|trace| - 1]), trace[|trace| - 1])
  }

  /** Orderly tables, and a stamp on every cart row. */
  ghost predicate ShopOk(shop: Shop) {
    TablesOk(shop.tab) && shop.tab.carts.Keys <= shop.clock.Keys
  }

  // ── every change is stamped ───────────────────────────────────────────────

  /** Cart rows other than this one are as they were. */
  predicate ChangesOnly(t: Tables, u: Tables, touched: Option<Id>) {
    && (forall c | c in t.carts :: c in u.carts && (Some(c) != touched ==> u.carts[c] == t.carts[c]))
    && (forall c | c in u.carts :: c in t.carts || Some(c) == touched)
  }

  lemma CreatesAreStamped(tab: Tables, e: Event)
    requires e.verb.CreateCart? || e.verb.Coupon?
    ensures ChangesOnly(tab, EffectOf(tab, e).tab, Touched(tab, e))
  {
    if Callable(tab, e.verb) {
      match e.verb
      case CreateCart(c, website, visitor) => CreateAloneIs(e.around, tab, c, website, visitor);
      case Coupon(c, code) => CouponAloneIs(e.around, tab, c, code);
    }
  }

  lemma WritesAreStamped(tab: Tables, e: Event)
    requires e.verb.Fulfil?
    ensures ChangesOnly(tab, EffectOf(tab, e).tab, Touched(tab, e))
  {
    if Callable(tab, e.verb) { WriteAloneIs(e.around, tab, e.verb.cart, e.verb.verb, e.verb.owned); }
  }

  lemma CapturesAreStamped(tab: Tables, e: Event)
    requires e.verb.Capture?
    ensures ChangesOnly(tab, EffectOf(tab, e).tab, Touched(tab, e))
  {
    CaptureAloneIs(e.around, tab, e.verb.cart, e.verb.key, e.verb.minted);
  }

  lemma AdoptsAreStamped(tab: Tables, e: Event)
    requires e.verb.Adopt?
    ensures ChangesOnly(tab, EffectOf(tab, e).tab, Touched(tab, e))
  {
    AdoptAloneIs(e.around, tab, e.verb.cart, e.verb.visitor, e.verb.user);
  }

  lemma RecoversAreStamped(tab: Tables, e: Event)
    requires e.verb.Recover?
    ensures ChangesOnly(tab, EffectOf(tab, e).tab, Touched(tab, e))
  {
    RecoverAloneIs(e.around, tab, e.verb.cart, e.verb.visitor, e.verb.principal);
  }

  lemma PlacesAreStamped(tab: Tables, e: Event)
    requires e.verb.PlaceCart?
    ensures ChangesOnly(tab, EffectOf(tab, e).tab, Touched(tab, e))
  {
    if Callable(tab, e.verb) { PlaceAloneCarts(e.around, tab, e.verb.args); }
  }

  lemma SettlesAreStamped(tab: Tables, e: Event)
    requires e.verb.Settle? || e.verb.ConfirmPickup?
    ensures ChangesOnly(tab, EffectOf(tab, e).tab, Touched(tab, e))
  {
    if Callable(tab, e.verb) {
      if e.verb.Settle? { ConsumeAloneIs(e.around, tab, e.verb.gateway, e.verb.checkout); }
      else { PickUpAloneIs(e.around, tab, e.verb.checkout); }
    }
  }

  lemma CancelsAreStamped(tab: Tables, e: Event)
    requires SessionsAgree(tab) && e.verb.Cancel?
    ensures ChangesOnly(tab, EffectOf(tab, e).tab, Touched(tab, e))
  {
    CancelAloneIs(e.around, tab, e.verb.checkout);
  }

  /** Whatever the verb, a cart row that is written or inserted is the one it stamps. */
  lemma EveryChangeIsStamped(tab: Tables, e: Event)
    requires SessionsAgree(tab)
    ensures ChangesOnly(tab, EffectOf(tab, e).tab, Touched(tab, e))
  {
    match e.verb
    case CreateCart(_, _, _) => CreatesAreStamped(tab, e);
    case Coupon(_, _) => CreatesAreStamped(tab, e);
    case Fulfil(_, _, _) => WritesAreStamped(tab, e);
    case Capture(_, _, _) => CapturesAreStamped(tab, e);
    case PlaceCart(_) => PlacesAreStamped(tab, e);
    case Adopt(_, _, _) => AdoptsAreStamped(tab, e);
    case Recover(_, _, _) => RecoversAreStamped(tab, e);
    case Settle(_, _) => SettlesAreStamped(tab, e);
    case ConfirmPickup(_) => SettlesAreStamped(tab, e);
    case Cancel(_) => CancelsAreStamped(tab, e);
    case EditLines(_, _) =>
    case Send(_) =>
  }

  /** The steps of a verb, as a list of its own. */
  function StepsOf(verb: Verb): seq<Step> {
    match verb
    case CreateCart(c, website, visitor) => CreateSteps(c, website, visitor)
    case EditLines(_, _) => []
    case Coupon(c, code) => CouponSteps(c, code)
    case Fulfil(c, v, owned) => WriteSteps(c, v, owned)
    case Capture(c, key, minted) => CaptureSteps(c, key, minted)
    case PlaceCart(args) => PlaceSteps(PlaceActs(args))
    case Adopt(c, visitor, user) => AdoptSteps(c, visitor, user)
    case Recover(c, visitor, principal) => RecoverSteps(c, visitor, principal)
    case Settle(g, x) => ConsumeSteps(g, x)
    case ConfirmPickup(x) => PickUpSteps(x)
    case Cancel(x) => CancelSteps(x)
    case Send(_) => []
  }

  lemma EffectKeepsTables(tab: Tables, e: Event)
    requires TablesOk(tab)
    ensures TablesOk(EffectOf(tab, e).tab)
  {
    RunAloneKeeps(e.around, tab, StepsOf(e.verb));
  }

  lemma AfterKeepsShop(shop: Shop, e: Event)
    requires ShopOk(shop)
    ensures ShopOk(After(shop, e))
  {
    EffectKeepsTables(shop.tab, e);
    EveryChangeIsStamped(shop.tab, e);
  }

  lemma {:induction false} RunKeepsShop(start: Shop, trace: seq<Event>)
    requires ShopOk(start)
    ensures ShopOk(Run(start, trace))
  {
    if trace != [] {
      RunKeepsShop(start, trace[..|trace| - 1]);
      AfterKeepsShop(Run(start, trace[..|trace| - 1]), trace[|trace| - 1]);
    }
  }

  // ── the clock is the trace's ──────────────────────────────────────────────

  /** The i-th event of the trace changed this cart. */
  predicate TouchedAt(start: Shop, trace: seq<Event>, i: nat, c: Id)
    requires i < |trace|
  {
    Touched(Run(start, trace[..i]).tab, trace[i]) == Some(c)
  }

  /** When the cart was last changed, by the trace alone; before the first change, when
      it was last changed before the trace. */
  function LastMutation(start: Shop, trace: seq<Event>, c: Id): Option<int> {
    if trace == [] then (if c in start.clock then Some(start.clock[c]) else None)
    else
      var n := |trace| - 1;
      if Touched(Run(start, trace[..n]).tab, trace[n]) == Some(c) then Some(trace[n].at)
      else LastMutation(start, trace[..n], c)
  }

  /** The row's clock is the trace's last mutation. */
  lemma {:induction false} ClockIsLastMutation(start: Shop, trace: seq<Event>, c: Id)
    ensures c in Run(start, trace).clock <==> LastMutation(start, trace, c).Some?
    ensures c in Run(start, trace).clock ==> Run(start, trace).clock[c] == LastMutation(start, trace, c).value
  {
    if trace != [] { ClockIsLastMutation(start, trace[..|trace| - 1], c); }
  }

  /** An open cart is abandoned at a time exactly when the last verb of the trace that
      changed it is older than the window. */
  lemma AbandonedIffLastMutationIsOld(start: Shop, trace: seq<Event>, c: Id, hours: int, now: int)
    requires IsOpen(Run(start, trace).tab, c)
    ensures CartIsAbandoned(Run(start, trace), c, hours, now)
            <==> LastMutation(start, trace, c).Some? && LastMutation(start, trace, c).value < now - hours * HOUR
  {
    ClockIsLastMutation(start, trace, c);
  }

  /** The clock does not run back, in the trace or since the rows it starts with. */
  ghost predicate Monotone(start: Shop, trace: seq<Event>) {
    && (forall i, j | 0 <= i < j < |trace| :: trace[i].at <= trace[j].at)
    && (forall i, c | 0 <= i < |trace| && c in start.clock :: start.clock[c] <= trace[i].at)
  }

  /** Nothing has changed the cart within the window. */
  ghost predicate Quiet(start: Shop, trace: seq<Event>, c: Id, hours: int, now: int) {
    && (c in start.clock ==> start.clock[c] < now - hours * HOUR)
    && forall i | 0 <= i < |trace| && TouchedAt(start, trace, i, c) :: trace[i].at < now - hours * HOUR
  }

  lemma TouchedAtPrefix(start: Shop, trace: seq<Event>, i: nat, c: Id)
    requires i < |trace| - 1
    ensures TouchedAt(start, trace[..|trace| - 1], i, c) <==> TouchedAt(start, trace, i, c)
  {
    assert trace[..|trace| - 1][..i] == trace[..i];
  }

  /** Before the last event, nothing has changed the cart within the window. */
  ghost predicate QuietBefore(start: Shop, trace: seq<Event>, c: Id, hours: int, now: int)
    requires trace != []
  {
    && (c in start.clock ==> start.clock[c] < now - hours * HOUR)
    && forall i | 0 <= i < |trace| - 1 && TouchedAt(start, trace, i, c) :: trace[i].at < now - hours * HOUR
  }

  lemma QuietPrefix(start: Shop, trace: seq<Event>, c: Id, hours: int, now: int)
    requires trace != []
    ensures Quiet(start, trace[..|trace| - 1], c, hours, now) <==> QuietBefore(start, trace, c, hours, now)
  {
    var n := |trace| - 1;
    var front := trace[..n];
    forall i | 0 <= i < n ensures front[i] == trace[i] && (TouchedAt(start, front, i, c) <==> TouchedAt(start, trace, i, c)) {
      TouchedAtPrefix(start, trace, i, c);
    }
  }

  /** Under a clock that does not run back, the last mutation is old exactly when all
      of them are. */
  lemma {:induction false} LastIsOldIffAllAre(start: Shop, trace: seq<Event>, c: Id, hours: int, now: int)
    requires Monotone(start, trace) && LastMutation(start, trace, c).Some?
    ensures LastMutation(start, trace, c).value < now - hours * HOUR <==> Quiet(start, trace, c, hours, now)
  {
    if trace != [] {
      var n := |trace| - 1;
      if TouchedAt(start, trace, n, c) {
        EarlierIsOlder(start, trace, c, hours, now);
      } else {
        MonotonePrefix(start, trace);
        LastIsOldIffAllAre(start, trace[..n], c, hours, now);
        QuietPrefix(start, trace, c, hours, now);
      }
    }
  }

  lemma MonotonePrefix(start: Shop, trace: seq<Event>)
    requires Monotone(start, trace) && trace != []
    ensures Monotone(start, trace[..|trace| - 1])
  {}

  lemma EarlierIsOlder(start: Shop, trace: seq<Event>, c: Id, hours: int, now: int)
    requires Monotone(start, trace) && trace != []
    ensures trace[|trace| - 1].at < now - hours * HOUR ==> QuietBefore(start, trace, c, hours, now)
  {}

  /** The three readers follow the trace: for an open cart of a live website, the single
      check, the company's read, the owner's read and the send's own window check all
      say abandoned exactly when no verb has changed the cart within the window. */
  lemma ReadersFollowTheTrace(start: Shop, trace: seq<Event>, websites: map<Id, Website>, contacts: Contacts,
                              c: Id, hours: int, now: int)
    requires ShopOk(start) && Monotone(start, trace) && IsOpen(Run(start, trace).tab, c)
    requires var website := Run(start, trace).tab.carts[c].website; website in websites && !websites[website].deleted
    ensures var shop := Run(start, trace); var row := shop.tab.carts[c];
      var quiet := Quiet(start, trace, c, hours, now);
      && (CartIsAbandoned(shop, c, hours, now) <==> quiet)
      && (c in AbandonedForCompany(shop, websites, websites[row.website].company, hours, now) <==> quiet)
      && (c in AbandonedForIdentity(shop, row.visitor, None, hours, now) <==> quiet)
      && (row.portalUser.Some? ==>
            forall v :: c in AbandonedForIdentity(shop, v, row.portalUser, hours, now) <==> quiet)
      && (SendRefused(shop, websites, contacts, c, hours, now) != Some(NotAbandoned) <==> quiet)
  {
    RunKeepsShop(start, trace);
    ClockIsLastMutation(start, trace, c);
    LastIsOldIffAllAre(start, trace, c, hours, now);
  }

  /** Neither read shows a closed cart, a fresh one or a stranger's: the company's shows
      only carts of its own live websites, the shopper's only carts of the visitor asked
      for or of the principal asked for. */
  lemma ReadsStayInside(shop: Shop, websites: map<Id, Website>, company: Id, visitor: Id, user: Option<Id>,
                        hours: int, now: int, c: Id)
    ensures c in AbandonedForCompany(shop, websites, company, hours, now)
            <==> CartIsAbandoned(shop, c, hours, now)
                 && exists w | w in websites :: shop.tab.carts[c].website == w && websites[w].company == company
                                                && !websites[w].deleted
    ensures c in AbandonedForIdentity(shop, visitor, user, hours, now)
            <==> CartIsAbandoned(shop, c, hours, now)
                 && (shop.tab.carts[c].visitor == visitor
                     || (exists u :: user == Some(u) && shop.tab.carts[c].portalUser == Some(u)))
    ensures CartIsAbandoned(shop, c, hours, now)
            <==> c in shop.tab.carts && shop.tab.carts[c].state == Open && c in shop.clock
                 && now - shop.clock[c] > hours * 3600 * 1000000
  {}

  /** An invite goes out exactly for an abandoned open cart of a live website whose
      settings name a template, billed to a party with an address. */
  lemma SendGoesOutIff(shop: Shop, websites: map<Id, Website>, contacts: Contacts, c: Id, hours: int, now: int)
    ensures SendRefused(shop, websites, contacts, c, hours, now) == None
            <==> c in shop.tab.carts && shop.tab.carts[c].state == Open && c in shop.clock
                 && now - shop.clock[c] > hours * 3600 * 1000000
                 && var row := shop.tab.carts[c];
                 && row.website in websites && !websites[row.website].deleted
                 && row.website in contacts.settings && contacts.settings[row.website].Some?
                 && row.party.Some? && row.party.value in contacts.addresses
  {}

  /** Which refusal a cart that gets none meets, the first in the order of the checks: a
      missing cart, a closed or fresh one, missing settings, a missing template, a party
      without an address, a deleted website. */
  lemma SendRefusesFirst(shop: Shop, websites: map<Id, Website>, contacts: Contacts, c: Id, hours: int, now: int)
    ensures var why := SendRefused(shop, websites, contacts, c, hours, now);
      var known := c in shop.tab.carts && shop.tab.carts[c].website in websites;
      && (why == Some(NoSuchCart) <==> !known)
      && (why == Some(NotAbandoned) <==> known && !CartIsAbandoned(shop, c, hours, now))
      && (known && CartIsAbandoned(shop, c, hours, now) ==>
            var row := shop.tab.carts[c];
            var addressed := row.party.Some? && row.party.value in contacts.addresses;
            && (why == Some(SettingsNotFound) <==> row.website !in contacts.settings)
            && (why == Some(TemplateRequired) <==>
                  row.website in contacts.settings && contacts.settings[row.website] == None)
            && (why == Some(NoContactAddress) <==>
                  row.website in contacts.settings && contacts.settings[row.website].Some? && !addressed)
            && (why == Some(WebsiteNotFound) <==>
                  row.website in contacts.settings && contacts.settings[row.website].Some? && addressed
                  && websites[row.website].deleted))
  {}

  // ── what changes no answer ────────────────────────────────────────────────

  /** The verb leaves the tables and the clock alone. */
  predicate Idle(tab: Tables, e: Event) {
    EffectOf(tab, e).tab == tab && Touched(tab, e) == None
  }

  /** Sends, refused line edits, recovers of the session's own cart, and verbs that end
      refused are idle (a place refused at its commit has minted its order, but touches
      no cart either). */
  lemma RefusedIsIdle(tab: Tables, e: Event)
    requires SessionsAgree(tab)
    requires e.verb.Send?
             || (e.verb.EditLines? && !e.verb.accepted)
             || (e.verb.Recover? && e.verb.cart in tab.carts && tab.carts[e.verb.cart].visitor == e.verb.visitor)
             || (EndedAs(tab, e).Some? && EndedAs(tab, e).value.Refused?)
    ensures Touched(tab, e) == None
    ensures EndedAs(tab, e) != Some(Refused(AmountRefused)) ==> Idle(tab, e)
  {
    if Callable(tab, e.verb) {
      match e.verb
      case CreateCart(c, website, visitor) => CreateAloneIs(e.around, tab, c, website, visitor);
      case Coupon(c, code) => CouponAloneIs(e.around, tab, c, code);
      case Fulfil(c, v, owned) => WriteAloneIs(e.around, tab, c, v, owned);
      case Capture(c, key, minted) => CaptureAloneIs(e.around, tab, c, key, minted);
      case PlaceCart(args) => PlaceAloneChecksOutIff(e.around, tab, args);
      case Adopt(c, visitor, user) => AdoptAloneIs(e.around, tab, c, visitor, user);
      case Recover(c, visitor, principal) => RecoverAloneIs(e.around, tab, c, visitor, principal);
      case Settle(g, x) => ConsumeAloneIs(e.around, tab, g, x);
      case ConfirmPickup(x) => PickUpAloneIs(e.around, tab, x);
      case Cancel(x) => CancelAloneIs(e.around, tab, x);
      case EditLines(_, _) =>
      case Send(_) =>
    }
  }

  /** A trace without its idle verbs. */
  function Effective(start: Shop, trace: seq<Event>): seq<Event> {
    if trace == [] then []
    else
      var n := |trace| - 1;
      Effective(start, trace[..n]) + (if Idle(Run(start, trace[..n]).tab, trace[n]) then [] else [trace[n]])
  }

  /** Any number of sends, refused verbs and idempotent recovers, anywhere in the
      trace, leave every row, and so every abandonment answer, as it was. */
  lemma {:induction false} IdleVerbsChangeNoAnswer(start: Shop, trace: seq<Event>)
    ensures Run(start, Effective(start, trace)) == Run(start, trace)
  {
    if trace != [] {
      var n := |trace| - 1;
      IdleVerbsChangeNoAnswer(start, trace[..n]);
      var kept := Effective(start, trace[..n]);
      if Idle(Run(start, trace[..n]).tab, trace[n]) {
        assert Effective(start, trace) == kept;
      } else {
        assert (kept + [trace[n]])[..|kept|] == kept;
      }
    }
  }

  // ── how abandonment ends ──────────────────────────────────────────────────

  /** As time passes, an abandoned cart stays abandoned through any verbs that do not
      change it. */
  lemma {:induction false} AbandonedUntilMutated(start: Shop, trace: seq<Event>, c: Id, hours: int, t: int, now: int)
    requires ShopOk(start) && t <= now && CartIsAbandoned(start, c, hours, t)
    requires forall i | 0 <= i < |trace| :: !TouchedAt(start, trace, i, c)
    ensures CartIsAbandoned(Run(start, trace), c, hours, now)
  {
    if trace != [] {
      var n := |trace| - 1;
      forall i | 0 <= i < n ensures !TouchedAt(start, trace[..n], i, c) { TouchedAtPrefix(start, trace, i, c); }
      AbandonedUntilMutated(start, trace[..n], c, hours, t, now);
      RunKeepsShop(start, trace[..n]);
      EveryChangeIsStamped(Run(start, trace[..n]).tab, trace[n]);
      assert !TouchedAt(start, trace, n, c);
    }
  }

  /** When the other verbs stamp a cart, by what the rows say before the call: an
      idempotent write on an open cart stamps it again. */
  lemma WritesTouchIff(tab: Tables, e: Event, c: Id)
    requires Callable(tab, e.verb)
    ensures e.verb.CreateCart? ==>
      (Touched(tab, e) == Some(c)
       <==> c == e.verb.cart
            && !exists d | d in tab.carts :: tab.carts[d].state == Open && tab.carts[d].visitor == e.verb.visitor)
    ensures e.verb.EditLines? ==>
      (Touched(tab, e) == Some(c)
       <==> c == e.verb.cart && e.verb.accepted && c in tab.carts && tab.carts[c].state == Open)
    ensures e.verb.Coupon? || e.verb.Capture? ==>
      (Touched(tab, e) == Some(c) <==> c == e.verb.cart && c in tab.carts && tab.carts[c].state == Open)
    ensures e.verb.Fulfil? ==>
      (Touched(tab, e) == Some(c)
       <==> c == e.verb.cart && c in tab.carts && tab.carts[c].state == Open
            && (e.verb.verb.SetDelivery? ==> e.verb.owned)
            && (e.verb.verb.SetPickup? ==>
                  var l := e.verb.verb.location;
                  l in e.around.locations && e.around.locations[l].active
                  && e.around.locations[l].website == tab.carts[c].website))
    ensures e.verb.Settle? || e.verb.ConfirmPickup? || e.verb.Send? ==> Touched(tab, e) == None
  {
    match e.verb
    case CreateCart(d, website, visitor) => CreateAloneIs(e.around, tab, d, website, visitor);
    case Coupon(d, code) => CouponAloneIs(e.around, tab, d, code);
    case Fulfil(d, v, owned) => WriteAloneIs(e.around, tab, d, v, owned);
    case Capture(d, key, minted) => CaptureAloneIs(e.around, tab, d, key, minted);
    case _ =>
  }

  /** A place stamps its cart exactly when it checks out, and a cancel the cart of a
      checkout that is not over and whose order is not void. */
  lemma CheckoutsTouchIff(tab: Tables, e: Event, c: Id)
    requires Callable(tab, e.verb) && SessionsAgree(tab)
    ensures e.verb.PlaceCart? ==>
      (Touched(tab, e) == Some(c)
       <==> c == e.verb.args.cart && OpeningReady(e.around, tab, e.verb.args)
            && BasketReady(e.around, c, tab.carts[c]) && e.verb.args.total >= 0.0)
    ensures e.verb.Cancel? ==>
      (Touched(tab, e) == Some(c)
       <==> e.verb.checkout in tab.sessions
            && var z := tab.sessions[e.verb.checkout];
            && z.cart == c && z.order.Some? && z.order.value in tab.orders && tab.orders[z.order.value].status != Void
            && (z.state == PendingPayment || z.state == PendingPickup || z.state == ConfirmedFree))
  {
    if e.verb.PlaceCart? { PlaceAloneChecksOutIff(e.around, tab, e.verb.args); }
    if e.verb.Cancel? { CancelAloneIs(e.around, tab, e.verb.checkout); }
  }

  /** A recover changes a cart exactly when the cart is open, another visitor's, linked
      to the caller, and the caller's visitor has no other open cart; an adopt likewise,
      whoever's visitor the cart is. */
  lemma RebindTouchesIff(tab: Tables, e: Event, c: Id)
    ensures e.verb.Recover? ==>
      (Touched(tab, e) == Some(c)
       <==> c == e.verb.cart && IsOpen(tab, c) && tab.carts[c].visitor != e.verb.visitor
            && e.verb.principal.Some? && tab.carts[c].portalUser == e.verb.principal
            && !exists d | d in tab.carts && d != c ::
                 tab.carts[d].state == Open && tab.carts[d].visitor == e.verb.visitor)
    ensures e.verb.Adopt? ==>
      (Touched(tab, e) == Some(c)
       <==> c == e.verb.cart && IsOpen(tab, c) && tab.carts[c].portalUser == Some(e.verb.user)
            && !exists d | d in tab.carts && d != c ::
                 tab.carts[d].state == Open && tab.carts[d].visitor == e.verb.visitor)
  {
    if e.verb.Recover? { RecoverAloneIs(e.around, tab, e.verb.cart, e.verb.visitor, e.verb.principal); }
    if e.verb.Adopt? { AdoptAloneIs(e.around, tab, e.verb.cart, e.verb.visitor, e.verb.user); }
  }

  /** An accepted recover or adopt ends abandonment: the cart is open, its caller's
      visitor's, and not abandoned until the window has passed again. */
  lemma RebindEndsAbandonment(shop: Shop, e: Event, c: Id, hours: int, now: int)
    requires (e.verb.Recover? || e.verb.Adopt?) && Touched(shop.tab, e) == Some(c)
    ensures var after := After(shop, e);
      && IsOpen(after.tab, c) && c in shop.tab.carts
      && after.tab.carts[c] == shop.tab.carts[c].(visitor := e.verb.visitor)
      && (CartIsAbandoned(after, c, hours, now) <==> e.at < now - hours * HOUR)
  {
    RebindTouchesIff(shop.tab, e, c);
    if e.verb.Recover? { RecoverAloneIs(e.around, shop.tab, c, e.verb.visitor, e.verb.principal); }
    if e.verb.Adopt? { AdoptAloneIs(e.around, shop.tab, c, e.verb.visitor, e.verb.user); }
  }
}
