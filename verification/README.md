# Storefront checkout, cart, pricing and listing: a verified model

This project models the storefront service's checkout protocol and the code it rests on, and
proves what they promise. `dafny verify dfyconfig.toml` checks the whole project.

## What is modelled

**The checkout as a step system** (`CheckoutState`, `CheckoutSteps`). The committed tables are
carts, the shopper-party map, sales orders, gateway rows and sessions. Any number of verbs run
at once, each a process with a program counter, split where its statements read other
transactions' work or commit their own: the order mint, the free arm's confirm and the gateway
row commit inside the cart's row lock, the session row and the placement flip with the outer
transaction. A process keeps the row it read under the lock, the party it resolved and the ids
it drew. `Abort` is a crash or a port's refusal at any point: it drops the uncommitted part and
keeps what was committed. Lines, prices, policies, stores and stock may change between any two
steps. Coupon, adopt and recover updates wait for the row lock and test the state again; the
partial unique indexes are guards on the writes. Selling is an order that is Draft, Confirmed or
Void, whose confirm answers "not draft" on anything but a draft.

`CheckoutInvariants` states what every reachable state satisfies; `CheckoutFrames`,
`CheckoutTableProofs` and `CheckoutStepProofs` prove that every step keeps it;
`CheckoutRuns`, `CheckoutSettlement`, `CheckoutDeliveries` and `CheckoutOrigins` draw the
results over whole runs. `CheckoutCancels` says what happens when cancel's commits come apart,
`CheckoutConsumers` lets any number of deliveries of one event interleave, and `CheckoutWaiting`
shows that no chain of waits closes.
`CheckoutAlone` and `CheckoutPlaceAlone` say what a verb does with nothing in between,
`CheckoutService` has the verbs as methods that update the tables in place, each proved equal to
its undisturbed steps, and `CheckoutWitness` exhibits a run.

**The algorithms beside it.** `Pricing` (slot assembly and fold-back), `Availability` (clamp and
place gate), `CartLines` (the line verbs on a table with soft deletes), `Base64Url` (the encoder
and the adoption ticket), `Listing` (filter, five orders, in-place sort, pages), `Merchandising`
(officer verbs and the three readers of the publish gate), `Wishlist` (rows, union read, stock
alerts) and `Recovery` (abandonment as a function of the trace of the same verbs). `Types` and `Text` are shared.

## What the proofs found

Where the code does not keep a promise for every input, the model follows the code, a lemma
shows the input, and another gives the exact condition.

- Cancel is several commits. If it reaches selling while a delivery is between its confirm and
  its stamp, or crashes there and a delivery follows, the session settles over a void order,
  because "not draft" counts as confirmed; a plain race suffices
  (`CheckoutWitness.RacedVoidIsReachable`, `CheckoutWitness.SettledVoidIsReachable`). In every
  run a settled session's order is confirmed exactly when no cancel of that session has reached
  selling (`CheckoutCancels.SettledIsConfirmed`).
- Cancel's session update has no state guard, so a settled session can still become cancelled:
  exactly when a cancel that started before then reaches that update
  (`CheckoutCancels.LeavesBirthOnce`).
- The quantity column keeps four decimals. A positive quantity under half a step passes the
  check and is stored as zero (`CartLines.TinyQuantityStoredAsZero`,
  `CartLines.LinesStayPositiveIff`).
- The listing fetch is bounded and names no order. Past 1000 gated rows an item whose detail
  reads may be on no page (`Merchandising.PastTheBoundAnItemCanVanish`); the listing and the
  detail agree for every fetch exactly up to the bound (`Merchandising.ReadersAgreeIff`).
- The page offset is a 64-bit product. A very large page number wraps and can show earlier rows
  again (`Listing.WrappedPageRepeatsTheFirst`, `Listing.PageIsItsSliceIff`).
- A crash after the mint, or a negative total, which the sessions table refuses at the outer
  commit, leaves a draft order that no session refers to, so no lemma claims one order per cart.
- The settlement consumer reports `settled` without looking at whether its update hit a row; the
  lemmas speak of the stored state.
- The service writes six session states; the generated enum in
  `src/domain/entity/storefront_checkout_state.rs` has five. The model has the six texts.

## Model

| member | source | states |
|---|---|---|
| `CheckoutRuns.ReachableInv` | src/application/service/checkout_service.rs:585-943 | Every state of every run (any number of verbs, interleaved at their transaction boundaries, crashes and port failures at any point, prices, stock and lines changing at will) satisfies the joint table, process and lock invariant. |
| `CheckoutRuns.RunGrows` | src/application/service/checkout_service.rs:896-938 | Between any two states of a run no committed row is lost: map bindings, births, linkage, gateway amounts and all of an order but its status and of a session but its state are fixed, and those two only move forward. |
| `CheckoutRuns.SessionMatchesItsRows` | src/application/service/checkout_service.rs:744-938 | In every state of every run a session amount equals its order total and its gateway gross and net (fee zero); the order carries the cart's current carrier, coupon and customer, the session the current pin; no session lacks its order. |
| `CheckoutRuns.OneSessionAndNeverReopened` | src/application/service/checkout_service.rs:896-938 | A cart has at most one session, has one exactly when it is not open, and is never open again. |
| `CheckoutRuns.LateLocksAreRefused` | src/application/service/checkout_service.rs:593-602 | Taking an unlocked cart's row lock answers the closed door exactly when the cart is missing or has a session: CartNotFound to a place, the state by name to its siblings; no table changes. |
| `CheckoutRuns.ConfirmedOnceByItsLane` | src/application/service/checkout_service.rs:805-881 | Every confirmation of a session's order was made by the one confirmer its birth lane allows (its own gateway row, the pickup officer, the free place), and no order is confirmed twice. |
| `CheckoutRuns.ConfirmationsAreLogged` | src/application/service/checkout_service.rs:1017-1043 | The confirmation history used above is exact: each step either confirms one draft and logs it, or makes no order confirmed and logs nothing. |
| `CheckoutRuns.NeverBack` | src/application/service/checkout_service.rs:1056-1076 | Along a run a session never returns to a pending state, its order id is fixed, and the order never returns to Draft nor leaves Void. |
| `CheckoutRuns.BirthFollowsLaneAndTotal` | src/application/service/checkout_service.rs:807-881 | In every later state of every run the lane and the total of a place that checked out say how its session was born: pay on site waits for the officer without a gateway row, a zero online total was confirmed at place without one, and any other online total waits for its own gateway row of the whole amount, billed to the same party. |
| `CheckoutRuns.OnlyItsGatewaySettles` | src/application/service/checkout_service.rs:969-1011 | A gateway row becomes settled only by its gateway, never by a verb of the storefront, and stays settled. |
| `CheckoutRuns.OnePartyPerKey` | src/application/service/cart_service.rs:714-776 | Captures and express places that finished, at any two times of a run, for one company and normalized email reported one party; the map still binds it and the express order bills it. |
| `Text.FoldIsStable` | src/application/service/cart_service.rs:74-76 | The party map's key is one spelling: trimming and folding leave no outer blanks and no capitals, and a second pass changes nothing. |
| `Text.FoldsAlikeIff` | src/application/service/cart_service.rs:74-76 | Folding maps every capital to its own small letter and keeps every other character; two texts fold alike exactly when they differ in case alone, so distinct addresses never share a party. |
| `CheckoutRuns.OwnershipAlongRuns` | src/application/service/cart_service.rs:865-966 | No visitor has two open carts; a step changes a cart's visitor only as the guarded adopt or recover of the principal it is linked to, while it is open and no other open cart of that visitor exists. |
| `CheckoutRuns.PlacedCartsAreFrozen` | src/application/service/checkout_service.rs:915-927 | Between any two later states of a run, a cart that is not open differs at most in its state: every cart writer is shut out. |
| `CheckoutRuns.LinkageNeverChanges` | src/application/service/cart_service.rs:885-897 | No verb changes a cart's portal user. |
| `CheckoutRuns.OneRacerBinds` | src/application/service/cart_service.rs:853-966 | In every run, once a guarded write has bound a cart to a visitor, every guarded write of another cart to that visitor writes nothing for as long as the first cart is open and not rebound itself; while its own cart is open it answers OpenCartExists. |
| `CheckoutRuns.IndexLoserChangesNothing` | src/application/service/cart_service.rs:853-863 | The guarded write of adopt or recover answers OpenCartExists exactly when the cart is still open and some other cart is open for that visitor, and then writes nothing; a winner on an open cart holds it for the visitor. |
| `CheckoutWaiting.NoDeadlock` | src/application/service/checkout_service.rs:263-278 | In every reachable state every started, unfinished verb has an enabled step other than a crash, or waits for one inside its critical section that has, or for one that waits for such a one: the row locks and the shopper-party inserts never deadlock. |
| `CheckoutWaiting.WaitsAreShort` | src/application/service/cart_service.rs:740-776 | Whoever is waited for is another, unfinished verb, and two waits in a row are a row lock's and then a map key's, whose holder waits for nothing. |
| `CheckoutStepProofs.StepKeepsInv` | src/application/service/checkout_service.rs:585-943 | One step of any verb, at any interleaving point, keeps the invariant and loses or rebinds no committed row. |
| `CheckoutStepProofs.CommitIsLawful` | src/application/service/checkout_service.rs:890-938 | The outer commit (session row, placement flip, billing row) keeps the tables in agreement and disturbs no other process. |
| `CheckoutCancels.SettledIsConfirmed` | src/application/service/checkout_service.rs:1017-1068 | In every run, a settled or confirmed-free session's order is confirmed exactly when no cancel of that session has reached selling. |
| `CheckoutCancels.VoidIff` | src/application/service/checkout_service.rs:1127-1135 | In every run, the order of a session that is not cancelled is void exactly when some cancel of that session has reached selling. |
| `CheckoutSettlement.WholeRunsStayInStep` | src/application/service/checkout_service.rs:1101-1160 | In a run whose cancels each run as one step, settled and confirmed-free sessions have confirmed orders, waiting ones draft or confirmed ones, and a session is cancelled iff its order is void iff its cart is cancelled. |
| `CheckoutCancels.LeavesBirthOnce` | src/application/service/checkout_service.rs:1137-1147 | In every run, a session that has left the state it was born with changes again exactly when it had settled and a cancel of it then reached its session update; it is then cancelled. |
| `CheckoutSettlement.StepKeepsClean` | src/application/service/checkout_service.rs:1101-1160 | Every step but an interrupted cancel keeps sessions, orders and carts in step with one another. |
| `CheckoutDeliveries.DeliverySettles` | src/application/service/checkout_service.rs:969-1093 | One undisturbed delivery to a waiting session settles it, and its order is confirmed exactly when it was not void; no other session or order and no cart, gateway or map row changes. (Interleaved with others: `SettledIsConfirmed`, `ManyDeliveriesAreOne`.) |
| `CheckoutConsumers.ManyDeliveriesAreOne` | src/application/service/checkout_service.rs:992-1068 | From any state of any run: if from there on only consumers of one event take steps, in any number and order, crashing anywhere, some possibly under way already, and at least one finishes, the tables are exactly those of one undisturbed delivery. |
| `CheckoutCancels.RedeliveryHealsAnyCrash` | src/application/service/checkout_service.rs:1036-1043 | Wherever any run has got to, one complete delivery settles a session waiting for its settled gateway row, its order confirmed exactly when no cancel of it has reached selling. |
| `CheckoutDeliveries.StampedMeansOver` | src/application/service/checkout_service.rs:1089-1092 | In every run, a consumer that finished its stamp leaves a session that waits no more, then and later. |
| `CheckoutDeliveries.PickupSettles` | src/application/service/checkout_service.rs:1183-1265 | The officer confirm settles a waiting pickup, its order confirmed exactly when it was not void; any other checkout is refused and no table changes. |
| `CheckoutCancels.OfficerHealsAnyCrash` | src/application/service/checkout_service.rs:1216-1245 | The same for a waiting pickup and the officer's confirm. |
| `CheckoutDeliveries.OnlyWaitingIsDraft` | src/application/service/checkout_service.rs:1017-1068 | In every run, interrupted cancels included, only a waiting session's order can be a draft: confirm or void first, stamp second. |
| `CheckoutDeliveries.InterruptedCancelSettlesVoid` | src/application/service/checkout_service.rs:1127-1147 | From every good state with a waiting paid session, a cancel that crashes after selling followed by a delivery settles the session with a void order. |
| `CheckoutCancels.RaceSettlesVoid` | src/application/service/checkout_service.rs:1017-1068 | From every state with a waiting paid session whose order is not void: a cancel that reaches selling between a delivery's confirm and its stamp leaves the session settled over a void order, and the cancel's next commit takes the settled session to cancelled. Nobody crashes. |
| `CheckoutWitness.SettledVoidIsReachable` | src/application/service/checkout_service.rs:1127-1147 | The failure is reachable by a crash: a concrete run ends with a settled session over a void order, and a cancel of it did reach selling. |
| `CheckoutWitness.RacedVoidIsReachable` | src/application/service/checkout_service.rs:1017-1068 | The failure is reachable without any crash, and so is a settled session that becomes cancelled. |
| `CheckoutOrigins.GatedIsMinted` | src/application/service/checkout_service.rs:685-769 | For every checkout of every run there were states, in this order, at which its cart held exactly the minted items and quantities, its website priced each of them at the minted list price, and every line was on backorder by the policy read or carried at no less than its quantity: in the pinned store's warehouse for a pickup cart whose store has one, in the company aggregate otherwise. |
| `CheckoutOrigins.GateReadsTheCartsScope` | src/application/service/availability_service.rs:67-89 | The gate step of a pickup cart whose pinned store has a warehouse passes exactly when every line not on backorder is carried in that warehouse, whatever the company aggregate holds; a delivery cart's exactly when the aggregate carries them. |
| `CheckoutOrigins.GatePassesIff` | src/application/service/availability_service.rs:146-201 | Over one stock table the place gate passes exactly when every line is backorder-allowed or carried at no less than its quantity. |
| `CheckoutOrigins.GateRefusesFirst` | src/application/service/availability_service.rs:168-201 | A refusal of the gate is that of the first line not covered: short stock named with the quantity asked and the free one, an item left out of the answer never taken for zero. |
| `CheckoutAlone.TryIsApply` | src/application/service/checkout_service.rs:585-602 | A step of an undisturbed process is a step of the interleaved system, and keeps its invariant. |
| `CheckoutAlone.WriteAloneIs` | src/application/service/checkout_service.rs:334-474 | Delivery, pickup and reset, undisturbed: the refusals in order, and else the cart carries the carrier asked for, or is pinned for pickup at the store asked for, or is back to delivery without a pin; nothing else changes. |
| `CheckoutAlone.CaptureAloneIs` | src/application/service/checkout_service.rs:488-524 | Billing capture, undisturbed: a known key keeps its party, a new key is bound to the minted one, and the cart is stamped with the same party. |
| `CheckoutAlone.ConsumeAloneIs` | src/application/service/checkout_service.rs:969-1093 | The settlement consumer, undisturbed: a session that does not wait is left alone, a waiting one settles, its order confirmed and the confirmation recorded exactly if it was a draft; nothing else changes. |
| `CheckoutAlone.PickUpAloneIs` | src/application/service/checkout_service.rs:1183-1265 | The pickup confirm, undisturbed: any checkout but a waiting pickup is refused by name, a waiting one settles, its order confirmed exactly if it was a draft; nothing else changes. |
| `CheckoutAlone.CancelAloneIsAtomic` | src/application/service/checkout_service.rs:1101-1176 | With nothing in between, cancel's separate commits are the one atomic cancel step. |
| `CheckoutAlone.CancelAloneIs` | src/application/service/checkout_service.rs:1101-1176 | Cancel, undisturbed: refused exactly on a settled, cancelled or failed session or an order already void; a waiting payment, a waiting pickup and a free checkout go with their order and cart, and nothing else changes. |
| `CheckoutAlone.CouponAloneIs` | src/application/service/cart_service.rs:626-698 | A coupon write, undisturbed: only an open cart, and only its coupon. |
| `CheckoutAlone.AdoptAloneIs` | src/application/service/cart_service.rs:865-912 | Adopt, undisturbed: only the linked principal, only an open cart, only onto a visitor without another open one; the visitor alone changes. |
| `CheckoutAlone.RecoverAloneIs` | src/application/service/cart_service.rs:920-966 | Recover, undisturbed: a foreign cart is not found, the session's own is left as it is, another's is rebound under the same index rule. |
| `CheckoutAlone.CreateAloneIs` | src/application/service/cart_service.rs:295-332 | Create, undisturbed: a new cart only for a visitor without an open one. |
| `CheckoutPlaceAlone.PlaceAloneIs` | src/application/service/checkout_service.rs:585-943 | The twelve steps of an undisturbed place compose to its three parts in order: opening, gating, recording. What those leave and refuse is `PlaceAloneRecords`, `PlaceAloneChecksOutIff` and `PlaceAloneRefuses`. |
| `CheckoutPlaceAlone.PlaceAloneChecksOutIff` | src/application/service/checkout_service.rs:593-743 | An undisturbed place whose ports all answer checks out exactly when the cart is open, the lane fits the mode, a pickup store is live with a country, billing is at hand, every line of a non-empty basket is priced and covered, and the minted total is not negative; otherwise it changes no table, or, for a negative total (which the sessions table refuses), leaves the draft order and gateway row it had committed. |
| `CheckoutPlaceAlone.PlaceAloneRecords` | src/application/service/checkout_service.rs:744-938 | What an undisturbed place that checks out leaves, table by table: an order of the cart's items at the website's prices with the cart's carrier and coupon, the pinned store's country and the party that pays; a session and gateway row by lane and total (on site: waiting pickup, none; online zero: confirmed, none; online otherwise: waiting payment, one row of the whole total); the cart placed and billed; the shopper's key bound; every other row as it was. |
| `CheckoutPlaceAlone.PlaceAloneRefuses` | src/application/service/checkout_service.rs:593-743 | Which refusal an undisturbed place meets, the first in the order of its checks, down to the first line short of stock. |
| `CheckoutService.CheckoutTables.PlaceWithLane` | src/application/service/checkout_service.rs:585-943 | The place as it updates the tables in place leaves exactly what its steps leave, and, when it checks out, each table as `CheckoutPlaceAlone.PlaceAloneRecords` spells it out; keeps all table invariants. |
| `CheckoutService.CheckoutTables.SetDelivery` | src/application/service/checkout_service.rs:334-383 | Equals its steps; keeps the invariants. |
| `CheckoutService.CheckoutTables.SetPickup` | src/application/service/checkout_service.rs:397-443 | Equals its steps; keeps the invariants. |
| `CheckoutService.CheckoutTables.ResetFulfillment` | src/application/service/checkout_service.rs:448-482 | Equals its steps; keeps the invariants. |
| `CheckoutService.CheckoutTables.CaptureBilling` | src/application/service/checkout_service.rs:488-524 | Equals its steps; keeps the invariants. |
| `CheckoutService.CheckoutTables.ConsumeSettlement` | src/application/service/checkout_service.rs:969-1093 | An event of no session changes nothing; an event of a session equals that session's steps; keeps the invariants. |
| `CheckoutService.CheckoutTables.ConfirmPickup` | src/application/service/checkout_service.rs:1183-1265 | Equals its steps; keeps the invariants. |
| `CheckoutService.CheckoutTables.ConfirmSalesOrder` | src/application/service/checkout_service.rs:1017-1043 | Selling's confirm as the consumers see it: Draft becomes Confirmed, anything else is left alone. |
| `CheckoutService.CheckoutTables.CancelCheckout` | src/application/service/checkout_service.rs:1101-1176 | Equals its steps; keeps the invariants. |
| `CheckoutService.CheckoutTables.CreateCart` | src/application/service/cart_service.rs:295-332 | Equals its steps; afterwards some cart is open for the visitor. |
| `CheckoutService.CheckoutTables.SetCoupon` | src/application/service/cart_service.rs:626-698 | Equals its steps; keeps the invariants. |
| `CheckoutService.CheckoutTables.AdoptCart` | src/application/service/cart_service.rs:865-912 | Equals its steps; keeps the invariants. |
| `CheckoutService.CheckoutTables.RecoverCart` | src/application/service/cart_service.rs:920-966 | Equals its steps; keeps the invariants. |
| `Pricing.PriceCart` | src/application/service/pricing_service.rs:212-381 | The ports are asked about the cart's own items and party; the pricing port gets a request carrying the company, the party, the coupon, the party's own segment or else the website's default group, and per available line, in order, its item, quantity, list price, catalog group and brand. Refuses as its ports refuse; otherwise every line is shown in order, unavailable exactly without a live price, the k-th answer on the k-th available line only, the subtotal equal to both the answers' and the shown net totals, the currency the first one a price names, the unavailable count exact, rewards named, and an answer of the wrong length refused. |
| `Pricing.Assemble` | src/application/service/pricing_service.rs:252-297 | One display line per cart line, one request line and one slot per priceable line, each slot pointing back at its line. |
| `Pricing.FoldBack` | src/application/service/pricing_service.rs:325-338 | Each answer lands on its own slot and on no other line, and the subtotal is the answers' sum. |
| `Pricing.FoldBackConserves` | src/application/service/pricing_service.rs:325-338 | What the lines show sums to what the port charged. |
| `Pricing.RequestLineOfRank` | src/application/service/pricing_service.rs:254-295 | Request line r asks for the item and quantity of the priceable cart line of rank r, at the website's list price, with the catalog's group and brand of that item. |
| `Pricing.OneRequestPerBasket` | src/application/service/pricing_service.rs:254-320 | Those fields leave no choice: two requests for one basket are the same request. |
| `Pricing.LineOfRank` | src/application/service/pricing_service.rs:254-295 | Every request line comes from a priceable cart line of that rank. |
| `Pricing.RankCounts` | src/application/service/pricing_service.rs:252-297 | A line's rank is the number of priceable lines before it. |
| `Pricing.UnavailableCountZeroIff` | src/application/service/checkout_service.rs:696-702 | Place's refusal test is exact: the unavailable count is zero iff every line has a live price. |
| `Pricing.MintLines` | src/application/service/checkout_service.rs:754-769 | The lines sent to the mint are the cart's items and quantities in order with the website's list prices. |
| `Availability.GateRefinesClamp` | src/application/service/availability_service.rs:117-201 | With batch and single reads agreeing, the place gate accepts a basket iff the line clamp accepts each of its lines. |
| `Availability.GateRefusalIsFirstClampRefusal` | src/application/service/availability_service.rs:182-199 | An out-of-stock refusal of the gate is the clamp's own refusal of the first line the clamp refuses. |
| `Availability.OmittedItemRefuses` | src/application/service/availability_service.rs:182-192 | An adapter that leaves out a gated item never passes. |
| `Availability.ScanAcceptsIff` | src/application/service/availability_service.rs:182-201 | The scan accepts iff every gated line is answered and within its answer; else it reports the first that is not. |
| `Availability.GatedLinesMembers` | src/application/service/availability_service.rs:168-173 | Exactly the lines that are not backorder-allowed are gated. |
| `Availability.GateBoundsBasket` | src/application/service/availability_service.rs:146-201 | With distinct items, passing bounds the basket's whole quantity of each gated item. |
| `Availability.DuplicateItemsEscapeGate` | src/application/service/availability_service.rs:182-201 | Without distinct items it does not: a concrete basket passes while asking for more than is free. |
| `CartLines.LineTable.AddLine` | src/application/service/cart_service.rs:407-479 | In place: a repeat item grows its row, a new one appends under the bound; a refusal writes nothing. When it is accepted, what it refuses and what it writes are `AddAcceptedIff`, `RefusalsAreTrue` and `AcceptedWrites`. |
| `CartLines.AddAcceptedIff` | src/application/service/cart_service.rs:407-456 | An add is accepted exactly when its quantity is positive, the cart open, the publish gate open for the item, the column holds the quantity, and, off backorder, the stock port answered the item with at least the quantity it would end at: with its live line's own, if it has one, and else alone and under the line bound. |
| `CartLines.LineTable.SetLineQuantity` | src/application/service/cart_service.rs:487-556 | In place: the refusals in order, else one row's stored quantity. |
| `CartLines.SetAcceptedIff` | src/application/service/cart_service.rs:487-556 | The same for a set, at the quantity set, of a line that is live; and when a removal is accepted or refused, and how. |
| `CartLines.RefusalsAreTrue` | src/application/service/availability_service.rs:117-144 | Each refusal of an add or set says what is so: the gate's own code, the port's own code, or the item with the whole quantity it would have ended at and the smaller free quantity the port answered; and each is given exactly when its check is the first to fail. |
| `CartLines.AcceptedWrites` | src/application/service/cart_service.rs:425-599 | Of all rows an accepted verb writes one: the item's live line grows by the quantity as stored or a new row is appended, the set line takes the stored quantity, the removed line is deleted; all others stay. |
| `CartLines.StoredIsNearest` | migrations/20260904000001_storefront_core_schema.up.sql:113-113 | The stored quantity is the one multiple of a ten-thousandth nearest to what was asked, the greater of two as near. |
| `CartLines.LineTable.RemoveLine` | src/application/service/cart_service.rs:559-599 | In place: one live row becomes deleted, or the line is not found. |
| `CartLines.RunKeepsLines` | src/application/service/cart_service.rs:407-599 | Over every sequence of line verbs, live items are distinct, quantities lie on the column's grid and are not negative, and at most the bound are live. |
| `CartLines.QuantityIsLedger` | src/application/service/cart_service.rs:425-430 | Over every sequence, each item's quantity is its last set value plus all later adds, each as stored, and none after a removal. |
| `CartLines.LinesStayPositiveIff` | src/application/service/cart_service.rs:416-418 | Live lines stay positive throughout a sequence exactly when no accepted add or set asks for less than half of the column's step. |
| `CartLines.TinyQuantityStoredAsZero` | src/application/service/cart_service.rs:416-418 | A positive quantity under half a step is accepted and stored as zero. |
| `CartLines.GateBoundsWholeBasket` | src/application/service/availability_service.rs:146-201 | Whatever line verbs ran, a passing place gate bounds each gated item's total in the basket by the free quantity answered for it. |
| `Base64Url.Base64UrlNoPad` | src/application/service/cart_service.rs:819-837 | The chunk loop computes the encoding. |
| `Base64Url.DecodeInvertsEncode` | src/application/service/cart_service.rs:819-837 | A strict unpadded decoder (RFC 4648 sections 5 and 3.2) reads every encoding back. |
| `Base64Url.EncodeInvertsDecode` | src/application/service/cart_service.rs:819-837 | Every text that decoder accepts is the encoding of what it reads. |
| `Base64Url.EncodeIsInjective` | src/application/service/cart_service.rs:819-837 | Distinct byte strings have distinct encodings. |
| `Base64Url.EncodeShape` | src/application/service/cart_service.rs:819-837 | Length is four thirds of the bytes rounded up, and every character is in the alphabet. |
| `Base64Url.EncodeSpellsBits` | src/application/service/cart_service.rs:819-837 | Character k of an encoding is the alphabet's letter for the k-th run of six bits of the byte string, zero bits past its end. |
| `Base64Url.KnownVectors` | src/application/service/cart_service.rs:994-998 | The repository's own vectors: the encodings of "foobar" and of its first four and five bytes. |
| `Base64Url.AlphabetIsDigits` | src/application/service/cart_service.rs:813-814 | The table spells the URL-safe alphabet, position by position. |
| `Base64Url.AdoptionTicket` | src/application/service/cart_service.rs:843-846 | The ticket is the encoding of the claim text. |
| `Base64Url.TicketNamesCartAndPrincipal` | src/application/service/cart_service.rs:843-846 | Every ticket has 98 characters, and two tickets are equal exactly for the same cart and the same principal. |
| `Base64Url.TicketReadsBack` | src/application/service/cart_service.rs:843-846 | Reading a ticket back gives the cart's text, a colon and the principal's. |
| `Base64Url.UuidTextSpells` | src/application/service/cart_service.rs:843-846 | A uuid is spelled byte by byte in lower-case hex, high digit first, in groups of 8-4-4-4-12. |
| `Listing.LeqIsTotal` | src/application/service/catalog_service.rs:177-192 | Each of the five orders is total, and only rows of one item tie. |
| `Listing.LeqIsTransitive` | src/application/service/catalog_service.rs:177-192 | Each of the five orders is transitive. |
| `Listing.LeqIsBefore` | src/application/service/catalog_service.rs:177-192 | The comparator of each order promises that, said without it, of any two rows it does not exchange. |
| `Listing.SortInPlace` | src/application/service/catalog_service.rs:177-192 | The vector sorted in place equals the stable insertion sort of what it held. |
| `Listing.SortedSorts` | src/application/service/catalog_service.rs:177-192 | That sort permutes its rows into order. |
| `Listing.PublicListings` | src/application/service/catalog_service.rs:125-199 | The catalog's refusal, or one page of a shelf that holds every fetched row of an active item whose folded name contains the folded, trimmed search text, as often as it was fetched and no other row, in order: list price rising or falling, sequence rising, folded names in dictionary order, or stamps falling with unstamped rows last, ties by item (downwards for the newest order). Pages count from one, hold 1 to 100 rows, and start at the 64-bit offset. |
| `Listing.ListingIgnoresRowOrder` | src/application/service/catalog_service.rs:106-199 | With one row per item, no sort, search or page depends on the order in which the database returned the rows. |
| `Listing.PagesAreEverything` | src/application/service/catalog_service.rs:194-198 | Enough pages, one after another, are exactly the filtered rows, sorted: none lost, none repeated. |
| `Listing.PageIsItsSliceIff` | src/application/service/catalog_service.rs:194-198 | A page is its own slice exactly when its 64-bit start offset has not wrapped into the rows. |
| `Listing.WrappedPageRepeatsTheFirst` | src/application/service/catalog_service.rs:194-198 | A concrete page number shows the first page again. |
| `Merchandising.CatalogTables.UpsertListing` | src/application/service/catalog_service.rs:398-478 | Updates the pair's live listing or inserts an unpublished one; never writes the published flag; keeps one live row per pair. |
| `Merchandising.CatalogTables.SetListingBackorder` | src/application/service/catalog_service.rs:485-527 | Sets only the policy of the pair's live listing, or is refused. |
| `Merchandising.CatalogTables.PublishListing` | src/application/service/catalog_service.rs:531-568 | Publishes a live unpublished row; missing and published rows answer alike. |
| `Merchandising.CatalogTables.UnpublishListing` | src/application/service/catalog_service.rs:571-606 | Unpublishes a live published row; others answer alike. |
| `Merchandising.CatalogTables.SetPrice` | src/application/service/catalog_service.rs:609-699 | Refuses bad prices and currencies, else updates or inserts the pair's one live price. |
| `Merchandising.FetchHasOneRowPerItem` | src/application/service/catalog_service.rs:106-120 | With one live listing and price per pair, the fetch has one row per item, so its order cannot matter. |
| `Merchandising.DetailReadsIff` | src/application/service/catalog_service.rs:203-254 | The detail reads, and the cart's gate passes, exactly when some live listing of that website and item is for sale and published, a live price of the pair exists and the catalog knows the item as active; every closed door answers alike but a catalog that does not answer. |
| `Merchandising.DetailShowsThePair` | src/application/service/catalog_service.rs:203-254 | The row shown carries that listing's id, sequence and stamp, that price's amount and currency and the catalog's name; the cart's gate answers the same row. |
| `Merchandising.GatedRowIff` | src/application/service/catalog_service.rs:106-120 | The rows a fetch may return are exactly such pairs', field by field. |
| `Merchandising.UnpublishCloses` | src/application/service/catalog_service.rs:571-606 | Once the pair's live listing is unpublished the detail and the cart's gate refuse, and no page of any search, sort or size shows the item. |
| `Merchandising.PublishOpensIff` | src/application/service/catalog_service.rs:531-568 | Publishing the pair's live listing opens the doors exactly when it is for sale, priced and active. |
| `Merchandising.GateReadersAgree` | src/application/service/cart_service.rs:353-399 | Within the fetch bound an item is on some page of the unfiltered listing iff its detail reads iff the cart gate passes, and all three show one row. (When that is: `DetailReadsIff`.) |
| `Merchandising.AlwaysListedIffWithinBound` | src/application/service/catalog_service.rs:106-120 | An item whose detail reads is on some page whatever the database fetches exactly when the website has no more gated rows than the fetch bound. |
| `Merchandising.ReadersAgreeIff` | src/application/service/catalog_service.rs:125-254 | The listing agrees with the detail on an item, for every fetch, exactly when the item is closed or the website is within the bound. |
| `Merchandising.ListedIffFetched` | src/application/service/catalog_service.rs:125-254 | For any fetch at all, an item is on some page iff its detail reads and a row of it was fetched. |
| `Merchandising.PastTheBoundAnItemCanVanish` | src/application/service/catalog_service.rs:106-120 | Past the bound, for any item whose detail reads there is a fetch that leaves it off every page. |
| `Wishlist.WishTable.Add` | src/application/service/wishlist_service.rs:61-99 | Idempotent on the live key, refused by a closed gate. |
| `Wishlist.WishTable.Remove` | src/application/service/wishlist_service.rs:106-145 | Row by row: the live rows of the item that are the caller's own or stamped with its principal are disarmed and deleted, all others untouched; refused exactly when there is none. |
| `Wishlist.WishTable.Reconcile` | src/application/service/wishlist_service.rs:178-219 | Row by row: the device's live rows take the principal's stamp and address, all others untouched; the count is theirs. |
| `Wishlist.WishTable.ArmNotify` | src/application/service/wishlist_service.rs:226-284 | Row by row: the caller's own live row of the item is armed, and stamped for a principal, all others untouched, none created; refused exactly when there is none. |
| `Wishlist.WishTable.SendStockAlerts` | src/application/service/wishlist_service.rs:386-530 | Refused unless stock returned; else attempted = sent + failed + skipped, skipped is the number of waiting rows with no address, a fetched row stops waiting exactly when its own send was accepted and no other row changes, and the delivery state says which deliveries occurred. |
| `Wishlist.AlertsReach` | src/application/service/wishlist_service.rs:386-460 | A send reaches exactly the live, armed rows of the item on the website that have an address, once each and at that address, and skips exactly the armed ones without. |
| `Wishlist.WaitingAfterSend` | src/application/service/wishlist_service.rs:482-503 | The waiting rows after a send are those before less the accepted ones. |
| `Wishlist.RunKeeps` | src/application/service/wishlist_service.rs:61-284 | Over every sequence of verbs no row moves, is lost or comes back; deleted rows are never armed, an address never stands without a principal's stamp, live keys are unique. |
| `Wishlist.UnionReadIsUnique` | src/application/service/wishlist_service.rs:151-170 | The union read has one answer: its order leaves no tie. |
| `Wishlist.UnionReadIsOwn` | src/application/service/wishlist_service.rs:151-170 | The union read shows exactly the live rows of the website that are the visitor's own or stamped with the caller's principal, nobody else's, oldest first with ties by id. |
| `Wishlist.ReconcileCarriesTheDevice` | src/application/service/wishlist_service.rs:178-219 | Right after a reconcile the principal's union read, from any device, carries each live row of the device exactly once and still all it carried. |
| `Recovery.InviteTable.SendRecovery` | src/application/service/recovery_service.rs:202-365 | The checks in order, then one invite with the delivery label; a transport refusal is recorded as pending; nothing else is written. |
| `Recovery.SendGoesOutIff` | src/application/service/recovery_service.rs:202-330 | An invite goes out exactly for an abandoned open cart of a live website whose settings name a template, billed to a party with an address. |
| `Recovery.SendRefusesFirst` | src/application/service/recovery_service.rs:202-330 | Otherwise the refusal is the first of the checks that fails. |
| `Recovery.ReadersFollowTheTrace` | src/application/service/recovery_service.rs:66-190 | Over every trace under a clock that does not run back, from any shop: for an open cart of a live website the single check, the company's read, the owner's and the principal's reads and the send's window check all say abandoned exactly when no verb has changed the cart within the window. |
| `Recovery.ReadsStayInside` | src/application/service/recovery_service.rs:66-190 | No read shows a closed cart, a fresh one or a stranger's: the company's only carts of its own live websites, the shopper's only carts of the visitor or principal asked for. |
| `Recovery.AbandonedIffLastMutationIsOld` | src/application/service/recovery_service.rs:172-196 | An open cart is abandoned iff the last verb of the trace that changed it, or before any its start stamp, is older than the window. |
| `Recovery.ClockIsLastMutation` | src/application/service/cart_service.rs:601-618 | The row's clock is the time of the trace's last mutation of that cart, else the start row's clock. |
| `Recovery.EveryChangeIsStamped` | src/application/service/cart_service.rs:601-618 | Whatever the verb (create, lines, coupon, delivery, pickup, reset, billing, place, adopt, recover, settle, pickup confirm, cancel, send), a cart row it writes or inserts is the one whose clock it stamps. |
| `Recovery.WritesTouchIff` | src/application/service/cart_service.rs:601-618 | When create, line edits, coupon, delivery, pickup, reset and billing stamp a cart, by what the rows say before the call; settlement, pickup confirm and sends stamp none. |
| `Recovery.CheckoutsTouchIff` | src/application/service/checkout_service.rs:915-938 | A place stamps its cart exactly when it checks out, a cancel the cart of a checkout that is not over and whose order is not void. |
| `Recovery.RefusedIsIdle` | src/application/service/cart_service.rs:920-945 | Sends, refused line edits, recovers of the session's own cart and refused verbs stamp no cart, and but for a place refused at its commit change no table. |
| `Recovery.IdleVerbsChangeNoAnswer` | src/application/service/recovery_service.rs:202-365 | Removing every idle verb from a trace changes nothing, so no abandonment answer. |
| `Recovery.AbandonedUntilMutated` | src/application/service/recovery_service.rs:172-196 | As time passes an abandoned cart stays abandoned through any verbs that do not change it. |
| `Recovery.RebindTouchesIff` | src/application/service/cart_service.rs:865-966 | A recover changes a cart exactly when it is open, another visitor's, linked to the caller, and the caller's visitor has no other open cart; an adopt likewise, whoever's visitor it is. |
| `Recovery.RebindEndsAbandonment` | src/application/service/cart_service.rs:948-966 | An accepted recover or adopt leaves the cart open, its caller's visitor's, and not abandoned until the window has passed again. |

## Left out

- Mint, tax and promotion arithmetic, the gateway's own settlement and mail delivery are not part of this model: the minted total, the settled flag, the registry's verdict on a carrier and every port answer are arbitrary inputs. Reward lines that selling appends to the minted order are not modelled.
- Equality of the displayed subtotal and the locked total is not claimed: the mint re-prices without the group and brand dimensions, and the express lane prices with the cart row read before its capture.
- Place re-checks only that a live price exists, as the code does; the full publish gate at place time is not claimed.
- SQL text, connection pools, company and organisation scope binding and row-level security; audit rows, which nothing reads back; soft deletion of carts, sessions, listings and prices, which no modelled verb performs.
- CheckoutDeliveries.DeliverySettles: states one undisturbed delivery; what interleaved deliveries and cancels leave is `CheckoutConsumers.ManyDeliveriesAreOne` and `CheckoutCancels.SettledIsConfirmed`.
- CheckoutSettlement.WholeRunsStayInStep: covers runs whose cancels each run as one step; `CheckoutCancels` covers all runs.
- Generic CRUD writes to carts and sessions bypass the verbs; the invariants are about the verbs. The session state `failed` and the cart state `closed` are read but never written.
- `CheckoutSteps.Init` starts with open carts only and no sessions or orders; carts may already be linked to a principal, since no verb creates a linkage.
- Checkout ids, order ids and gateway ids are drawn fresh, as random uuids are; uuids elsewhere are numbers that keep their order.
- Amounts are exact numbers: the two-decimal columns for prices and session totals are not rounded in the model. The cart line quantity column is.
- Trimming, case folding and case-insensitive search are modelled for ASCII text with blanks as the only white space.
- `CartLines` reads the publish gate once per call; a fold in the code reads it a second time inside the set. The coupon's format check and the email check of the billing route are verdicts taken before the verb.
- `Listing.SortInPlace` is an insertion sort; the library's stable sort is specified only through its result, which with one row per item is the same.
- The order of the abandoned-carts reads, the officer's demand read, derived categories, media-URL checks, sale settings and pickup-location maintenance are settled by one branch each.
- A run's clock and the steps of the line verbs are not in the step system: line edits are arbitrary changes of the surroundings there, and `CartLines` takes the verbs one at a time. `Recovery` takes a line edit's acceptance as a verdict, and counts a cart row without an update stamp as never abandoned.
