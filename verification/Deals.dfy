/**
 Deals: one table changed by guarded updates of the bot, the verification tool and poller, the expiry job, and any number
 of executors. Payments arrive as TON transfers an external verifier vouches for, or as gifts received by message id.
 Executors load, lock, send and report in separate steps, so that everything may happen in between.
 */
module Deals {
  import opened Common

  type DealId = string

  datatype Status =
    | Proposed | Accepted | PaymentClaimed | Verified | Completed | Declined | Expired | Cancelled | Failed

  datatype Payment = PaysTon | PaysGift(slug: string)

  datatype Give = GivesTon(amount: Option<real>) | GivesGift(giftId: Option<string>)

  datatype TxStatus = PendingTx | ConfirmedTx

  /** A row. `verified` and `locked` stand for user_payment_verified_at and agent_sent_at being set. */
  datatype Deal = Deal(
    user: int,
    userGives: Payment,
    agentGives: Give,
    createdAt: int,
    expiresAt: int,
    status: Status,
    verified: bool,
    paymentTx: Option<string>,
    paymentWallet: Option<string>,
    paymentGift: Option<string>,
    locked: bool,
    sentTx: Option<string>,
    txStatus: Option<TxStatus>,
    sentGift: Option<string>)

  type Table = map<DealId, Deal>

  /** A received gift; receivedAt in milliseconds. */
  datatype Gift = Gift(msgId: string, slug: string, fromUser: int, receivedAt: int)

  // ---------------------------------------------------------------- guarded updates

  predicate HasStatus(t: Table, id: DealId, s: Status) { id in t && t[id].status == s }

  /** UPDATE deals SET status = s WHERE id = ? AND status = from */
  function Move(t: Table, id: DealId, from: Status, s: Status): Table {
    if HasStatus(t, id, from) then t[id := t[id].(status := s)] else t
  }

  function AcceptDeal(t: Table, id: DealId, expiry: int): Table {
    if HasStatus(t, id, Proposed) then t[id := t[id].(status := Accepted, expiresAt := expiry)] else t
  }

  predicate Cancellable(t: Table, id: DealId) { HasStatus(t, id, Proposed) || HasStatus(t, id, Accepted) }

  function CancelDeal(t: Table, id: DealId): Table {
    if Cancellable(t, id) then t[id := t[id].(status := Cancelled)] else t
  }

  function ExpireDeal(t: Table, id: DealId): Table {
    if Cancellable(t, id) then t[id := t[id].(status := Expired)] else t
  }

  predicate Stale(d: Deal, now: int) { (d.status == Proposed || d.status == Accepted) && d.expiresAt < now }

  /** The periodic job. */
  function ExpireStale(t: Table, now: int): Table {
    map id | id in t :: if Stale(t[id], now) then t[id].(status := Expired) else t[id]
  }

  function VerifyTon(t: Table, id: DealId, expected: Status, tx: string, wallet: string): Table {
    if HasStatus(t, id, expected) then
      t[id := t[id].(status := Verified, verified := true, paymentTx := Some(tx), paymentWallet := Some(wallet))]
    else t
  }

  predicate GiftUsed(t: Table, msgId: string) { exists id :: id in t && t[id].paymentGift == Some(msgId) }

  predicate GiftClaimable(t: Table, id: DealId, msgId: string, expected: Status) {
    HasStatus(t, id, expected) && !GiftUsed(t, msgId)
  }

  /** The payment reservation: status and uniqueness are tested by the update itself. */
  function ClaimGift(t: Table, id: DealId, msgId: string, expected: Status): Table {
    if GiftClaimable(t, id, msgId, expected)
    then t[id := t[id].(status := Verified, verified := true, paymentGift := Some(msgId))]
    else t
  }

  predicate Lockable(t: Table, id: DealId) { HasStatus(t, id, Verified) && !t[id].locked }

  function LockDeal(t: Table, id: DealId): Table {
    if Lockable(t, id) then t[id := t[id].(locked := true)] else t
  }

  function CompleteTon(t: Table, id: DealId, hash: string): Table {
    if id in t then t[id := t[id].(status := Completed, sentTx := Some(hash), txStatus := Some(ConfirmedTx))] else t
  }

  function CompleteGift(t: Table, id: DealId, giftId: string): Table {
    if id in t then t[id := t[id].(status := Completed, sentGift := Some(giftId))] else t
  }

  /** The gift branch's handler: whatever the status, the deal is failed and unlocked. */
  function FailGift(t: Table, id: DealId): Table {
    if id in t then t[id := t[id].(status := Failed, locked := false)] else t
  }

  function MarkPending(t: Table, id: DealId): Table {
    if id in t then t[id := t[id].(txStatus := Some(PendingTx))] else t
  }

  /** The outer handler: only a deal still verified is failed and unlocked. */
  function Rollback(t: Table, id: DealId): Table {
    if HasStatus(t, id, Verified) then t[id := t[id].(status := Failed, locked := false)] else t
  }

  // ---------------------------------------------------------------- gift payments

  /** A gift that pays this deal: the expected slug, from the buyer, not before the deal (created in seconds). */
  predicate Pays(g: Gift, d: Deal) {
    d.userGives == PaysGift(g.slug) && g.fromUser == d.user && g.receivedAt >= d.createdAt * 1000
  }

  /** gifts.find(...): the first gift that pays and is not used. */
  method VerifyGiftPayment(d: Deal, gifts: seq<Gift>, isUsed: string -> bool) returns (found: Option<Gift>)
    ensures found.Some? ==>
              exists i :: 0 <= i < |gifts| && found.value == gifts[i] && !isUsed(gifts[i].msgId) && Pays(gifts[i], d)
                          && forall j :: 0 <= j < i ==> isUsed(gifts[j].msgId) || !Pays(gifts[j], d)
    ensures found.Some? ==>
              && found.value.fromUser == d.user && d.userGives == PaysGift(found.value.slug)
              && found.value.receivedAt >= 1000 * d.createdAt && !isUsed(found.value.msgId)
    ensures found.None? ==>
              forall g :: g in gifts ==>
                isUsed(g.msgId) || g.fromUser != d.user || d.userGives != PaysGift(g.slug)
                || g.receivedAt < 1000 * d.createdAt
  {
    var i := 0;
    while i < |gifts|
      invariant 0 <= i <= |gifts|
      invariant forall j :: 0 <= j < i ==> isUsed(gifts[j].msgId) || !Pays(gifts[j], d)
    {
      var g := gifts[i];
      if !isUsed(g.msgId) && d.userGives == PaysGift(g.slug) && g.fromUser == d.user
         && g.receivedAt >= d.createdAt * 1000 {
        return Some(g);
      }
      i := i + 1;
    }
    return None;
  }

  // ---------------------------------------------------------------- executors

  /** Where an executor stands: it has read the row; holds the lock; has asked for the transfer; reports to the chat. */
  datatype Pc = Loaded | Locked | Sending | Reporting | Returned

  datatype Executor = Executor(id: DealId, deal: Deal, pc: Pc)

  datatype Transfer = Sent(reference: string) | NotSent | Unconfirmed

  predicate Executable(t: Table, id: DealId) { id in t && t[id].status == Verified && !t[id].locked }

  /** The row read has what the transfer needs. */
  predicate Configured(d: Deal) {
    match d.agentGives
    case GivesTon(amount) => amount.Some? && amount.value != 0.0 && d.paymentWallet.Some? && d.paymentWallet.value != ""
    case GivesGift(giftId) => giftId.Some? && giftId.value != ""
  }

  /** The update that follows the answer to a transfer. */
  function AfterTransfer(t: Table, x: Executor, answer: Transfer): Table {
    match answer
    case Sent(reference) =>
      if x.deal.agentGives.GivesTon? then CompleteTon(t, x.id, reference)
      else CompleteGift(t, x.id, x.deal.agentGives.giftId.GetOr(""))
    case NotSent => if x.deal.agentGives.GivesTon? then Rollback(t, x.id) else FailGift(t, x.id)
    case Unconfirmed => if x.deal.agentGives.GivesTon? then MarkPending(t, x.id) else FailGift(t, x.id)
  }

  /** The update that follows a failed chat message: the gift branch does not tell it from a failed transfer. */
  function AfterFailedReport(t: Table, x: Executor): Table {
    if x.deal.agentGives.GivesTon? then Rollback(t, x.id) else FailGift(t, x.id)
  }

  // ---------------------------------------------------------------- the world

  datatype Entry = PaymentVerified(id: DealId) | TransferAsked(id: DealId) | Delivered(id: DealId) | ReportFailed(id: DealId)

  datatype World = World(deals: Table, received: map<string, Gift>, executors: seq<Executor>, log: seq<Entry>)

  datatype Event =
    | Propose(id: DealId, user: int, userGives: Payment, agentGives: Give, now: int, expiresAt: int)
    | Accept(id: DealId, expiresAt: int)
    | Decline(id: DealId)
    | Cancel(id: DealId)
    | Claim(id: DealId)
    | Expire(id: DealId)
    | ExpiryJob(now: int)
    | Timeout(id: DealId)
    | ReceiveGift(gift: Gift)
    | TonVerified(id: DealId, expected: Status, tx: string, wallet: string)
    | GiftVerified(id: DealId, expected: Status, msgId: string)
    | Load(id: DealId)
    | Lock(x: nat)
    | Ask(x: nat)
    | Answer(x: nat, answer: Transfer)
    | Report(x: nat, delivered: bool)

  /** Statuses in which the tool and the poller look for a payment. */
  predicate AwaitsPayment(s: Status) { s == Accepted || s == PaymentClaimed }

  function NewDeal(e: Event): Deal
    requires e.Propose?
  {
    Deal(e.user, e.userGives, e.agentGives, e.now, e.expiresAt, Proposed, false, None, None, None, false, None, None, None)
  }

  function SetExecutor(w: World, x: nat, pc: Pc): seq<Executor>
    requires x < |w.executors|
  {
    w.executors[x := w.executors[x].(pc := pc)]
  }

  predicate At(w: World, x: nat, pc: Pc) { x < |w.executors| && w.executors[x].pc == pc }

  function StepTable(w: World, e: Event): World
    requires e.Propose? || e.Accept? || e.Decline? || e.Cancel? || e.Claim? || e.Expire? || e.ExpiryJob? || e.Timeout?
  {
    match e
    case Propose(id, _, _, _, _, _) => if id in w.deals then w else w.(deals := w.deals[id := NewDeal(e)])
    case Accept(id, expiresAt) => w.(deals := AcceptDeal(w.deals, id, expiresAt))
    case Decline(id) => w.(deals := Move(w.deals, id, Proposed, Declined))
    case Cancel(id) => w.(deals := CancelDeal(w.deals, id))
    case Claim(id) => w.(deals := Move(w.deals, id, Accepted, PaymentClaimed))
    case Expire(id) => w.(deals := ExpireDeal(w.deals, id))
    case ExpiryJob(now) => w.(deals := ExpireStale(w.deals, now))
    case Timeout(id) => w.(deals := Move(w.deals, id, PaymentClaimed, Failed))
  }

  function StepTonVerified(w: World, id: DealId, expected: Status, tx: string, wallet: string): World {
    if AwaitsPayment(expected) && HasStatus(w.deals, id, expected) && w.deals[id].userGives.PaysTon? then
      w.(deals := VerifyTon(w.deals, id, expected, tx, wallet), log := w.log + [PaymentVerified(id)])
    else w
  }

  /** The gift was found earlier, on the row as it was then; what it was matched on never changes. */
  function StepGiftVerified(w: World, id: DealId, expected: Status, msgId: string): World {
    if AwaitsPayment(expected) && id in w.deals && msgId in w.received && Pays(w.received[msgId], w.deals[id])
       && GiftClaimable(w.deals, id, msgId, expected) then
      w.(deals := ClaimGift(w.deals, id, msgId, expected), log := w.log + [PaymentVerified(id)])
    else w
  }

  function StepLoad(w: World, id: DealId): World {
    if Executable(w.deals, id) then w.(executors := w.executors + [Executor(id, w.deals[id], Loaded)]) else w
  }

  /** The lock, and the checks on the row read before it: a deal that lacks something stays verified and locked. */
  function StepLock(w: World, x: nat): World {
    if !At(w, x, Loaded) then w else
    var me := w.executors[x];
    if !Lockable(w.deals, me.id) then w.(executors := SetExecutor(w, x, Returned))
    else w.(deals := LockDeal(w.deals, me.id),
            executors := SetExecutor(w, x, if Configured(me.deal) then Locked else Returned))
  }

  function StepAsk(w: World, x: nat): World {
    if !At(w, x, Locked) then w else
    w.(executors := SetExecutor(w, x, Sending), log := w.log + [TransferAsked(w.executors[x].id)])
  }

  /** The answer of the transfer; it may also fail before it is asked for. */
  function StepAnswer(w: World, x: nat, answer: Transfer): World {
    if At(w, x, Sending) then
      w.(deals := AfterTransfer(w.deals, w.executors[x], answer),
         executors := SetExecutor(w, x, if answer.Sent? then Reporting else Returned),
         log := if answer.Sent? then w.log + [Delivered(w.executors[x].id)] else w.log)
    else if At(w, x, Locked) && answer.NotSent? then
      w.(deals := AfterTransfer(w.deals, w.executors[x], answer), executors := SetExecutor(w, x, Returned))
    else w
  }

  function StepReport(w: World, x: nat, delivered: bool): World {
    if !At(w, x, Reporting) then w
    else if delivered then w.(executors := SetExecutor(w, x, Returned))
    else w.(deals := AfterFailedReport(w.deals, w.executors[x]), executors := SetExecutor(w, x, Returned),
            log := w.log + [ReportFailed(w.executors[x].id)])
  }

  function Step(w: World, e: Event): World {
    match e
    case ReceiveGift(gift) => if gift.msgId in w.received then w else w.(received := w.received[gift.msgId := gift])
    case TonVerified(id, expected, tx, wallet) => StepTonVerified(w, id, expected, tx, wallet)
    case GiftVerified(id, expected, msgId) => StepGiftVerified(w, id, expected, msgId)
    case Load(id) => StepLoad(w, id)
    case Lock(x) => StepLock(w, x)
    case Ask(x) => StepAsk(w, x)
    case Answer(x, answer) => StepAnswer(w, x, answer)
    case Report(x, delivered) => StepReport(w, x, delivered)
    case _ => StepTable(w, e)
  }

  const EMPTY := World(map[], map[], [], [])

  function Continue(w: World, events: seq<Event>): World
    decreases |events|
  {
    if events == [] then w else Continue(Step(w, events[0]), events[1..])
  }

  function Run(events: seq<Event>): World { Continue(EMPTY, events) }
}
