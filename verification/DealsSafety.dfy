/** What every interleaving of the deal machinery keeps: one transfer per deal, after its payment, one gift per deal. */
module DealsSafety {
  import opened Common
  import opened Deals

  // ---------------------------------------------------------------- invariant

  /** What the log says of one deal. */
  datatype Past = Past(paid: bool, asked: bool, delivered: bool, reportFailed: bool)

  ghost function PastOf(log: seq<Entry>, id: DealId): Past {
    Past(PaymentVerified(id) in log, TransferAsked(id) in log, Delivered(id) in log, ReportFailed(id) in log)
  }

  /** The payment columns of a row are justified. */
  predicate PaymentOk(d: Deal, received: map<string, Gift>) {
    && (d.paymentWallet.Some? ==> d.userGives.PaysTon?)
    && (d.verified && d.userGives.PaysTon? ==> d.paymentTx.Some?)
    && (d.verified && d.userGives.PaysGift? ==> d.paymentGift.Some?)
    && (d.paymentGift.Some? ==>
         d.verified && d.paymentGift.value in received && Pays(received[d.paymentGift.value], d))
  }

  /** Status, lock and past of a deal fit together. */
  predicate PhaseOk(d: Deal, past: Past) {
    && past.paid == d.verified
    && match d.status {
         case Verified => d.verified && !past.delivered && (past.asked ==> d.locked)
         case Completed => past.delivered && (past.reportFailed ==> d.agentGives.GivesTon?)
         case Failed => !d.locked && (past.delivered ==> past.reportFailed && d.agentGives.GivesGift?)
         case _ => !d.verified && !d.locked
       }
    && (past.asked ==> d.verified && Configured(d))
    && (past.delivered ==> past.asked) && (past.reportFailed ==> past.delivered)
  }

  ghost predicate RowOk(w: World, id: DealId)
    requires id in w.deals
  {
    PaymentOk(w.deals[id], w.received) && PhaseOk(w.deals[id], PastOf(w.log, id))
  }

  predicate Holds(x: Executor) { x.pc == Locked || x.pc == Sending || x.pc == Reporting }

  /** Columns no update changes once the payment is verified. */
  predicate SameTerms(a: Deal, b: Deal) {
    && a.user == b.user && a.userGives == b.userGives && a.agentGives == b.agentGives && a.createdAt == b.createdAt
    && a.paymentWallet == b.paymentWallet
  }

  predicate ExecutorOk(x: Executor, d: Deal, past: Past) {
    && d.verified && SameTerms(x.deal, d)
    && match x.pc {
         case Locked => Configured(d) && d.status == Verified && d.locked && !past.asked
         case Sending => d.status == Verified && d.locked && past.asked
         case Reporting => d.status == Completed && !past.reportFailed
         case _ => true
       }
  }

  ghost predicate ExecutorsOk(w: World) {
    && (forall x :: 0 <= x < |w.executors| ==>
         && w.executors[x].id in w.deals
         && ExecutorOk(w.executors[x], w.deals[w.executors[x].id], PastOf(w.log, w.executors[x].id)))
    && (forall x, y :: 0 <= x < y < |w.executors| && Holds(w.executors[x]) && Holds(w.executors[y]) ==>
         w.executors[x].id != w.executors[y].id)
  }

  ghost predicate RowsOk(w: World) {
    && (forall id :: id in w.deals ==> RowOk(w, id))
    && (forall id :: id !in w.deals ==> PastOf(w.log, id) == Past(false, false, false, false))
  }

  /** No gift pays two deals. */
  ghost predicate GiftsUnique(t: Table) {
    forall i, j :: i in t && j in t && i != j && t[i].paymentGift.Some? ==> t[i].paymentGift != t[j].paymentGift
  }

  /** Each transfer is asked for once, after the payment of its deal was verified. */
  ghost predicate LogOk(log: seq<Entry>) {
    forall k :: 0 <= k < |log| && log[k].TransferAsked? ==>
      PaymentVerified(log[k].id) in log[..k] && log[k] !in log[..k]
  }

  ghost predicate Inv(w: World) { RowsOk(w) && ExecutorsOk(w) && GiftsUnique(w.deals) && LogOk(w.log) }

  // ---------------------------------------------------------------- one row changes

  /** The log grew by entries about one deal only. */
  ghost predicate LogGrew(log: seq<Entry>, after: seq<Entry>, id: DealId) {
    log <= after && forall e :: e in after && e !in log ==> e.id == id
  }

  lemma OthersPast(log: seq<Entry>, after: seq<Entry>, id: DealId, other: DealId)
    requires LogGrew(log, after, id) && other != id
    ensures PastOf(after, other) == PastOf(log, other)
  {
  }

  /** Rows stay justified when one of them, and the log about it, changes to something justified. */
  lemma RowChanged(w: World, v: World, id: DealId)
    requires RowsOk(w) && id in w.deals && v.received == w.received && LogGrew(w.log, v.log, id)
    requires v.deals.Keys == w.deals.Keys
    requires forall other :: other in w.deals && other != id ==> v.deals[other] == w.deals[other]
    requires RowOk(v, id)
    ensures RowsOk(v)
  {
    hide PaymentOk, PhaseOk, PastOf;
    forall other | other != id
      ensures PastOf(v.log, other) == PastOf(w.log, other)
    {
      OthersPast(w.log, v.log, id, other);
    }
  }

  /** Executors of other deals are not concerned; those of this deal must be looked at. */
  lemma ExecutorsKept(w: World, v: World, id: DealId)
    requires ExecutorsOk(w) && id in w.deals && v.executors == w.executors && LogGrew(w.log, v.log, id)
    requires v.deals.Keys == w.deals.Keys
    requires forall other :: other in w.deals && other != id ==> v.deals[other] == w.deals[other]
    requires forall x :: 0 <= x < |w.executors| && w.executors[x].id == id ==>
               ExecutorOk(w.executors[x], v.deals[id], PastOf(v.log, id))
    ensures ExecutorsOk(v)
  {
    hide ExecutorOk, PastOf;
    forall other | other != id
      ensures PastOf(v.log, other) == PastOf(w.log, other)
    {
      OthersPast(w.log, v.log, id, other);
    }
  }

  /** The same, when one executor of the deal moves on as well. */
  lemma ExecutorMoved(w: World, v: World, x: nat, pc: Pc)
    requires ExecutorsOk(w) && x < |w.executors| && v.executors == SetExecutor(w, x, pc)
    requires var id := w.executors[x].id;
      && LogGrew(w.log, v.log, id) && v.deals.Keys == w.deals.Keys
      && (forall other :: other in w.deals && other != id ==> v.deals[other] == w.deals[other])
      && ExecutorOk(v.executors[x], v.deals[id], PastOf(v.log, id))
      && (forall y :: 0 <= y < |w.executors| && y != x && w.executors[y].id == id ==>
           !Holds(w.executors[y]) && SameTerms(w.deals[id], v.deals[id]) && v.deals[id].verified)
    ensures ExecutorsOk(v)
  {
    hide PastOf;
    var id := w.executors[x].id;
    forall y | 0 <= y < |v.executors|
      ensures v.executors[y].id in v.deals
      ensures ExecutorOk(v.executors[y], v.deals[v.executors[y].id], PastOf(v.log, v.executors[y].id))
    {
      if w.executors[y].id != id {
        OthersPast(w.log, v.log, id, w.executors[y].id);
      }
    }
  }

  lemma LogAppended(log: seq<Entry>, e: Entry)
    requires LogOk(log) && (e.TransferAsked? ==> PaymentVerified(e.id) in log && e !in log)
    ensures LogOk(log + [e]) && LogGrew(log, log + [e], e.id)
    ensures PastOf(log + [e], e.id) == PastAfter(PastOf(log, e.id), e)
  {
    forall k | 0 <= k < |log + [e]| && (log + [e])[k].TransferAsked?
      ensures PaymentVerified((log + [e])[k].id) in (log + [e])[..k] && (log + [e])[k] !in (log + [e])[..k]
    {
      assert k < |log| ==> (log + [e])[..k] == log[..k];
      assert k == |log| ==> (log + [e])[..k] == log;
    }
  }

  function PastAfter(past: Past, e: Entry): Past {
    match e
    case PaymentVerified(_) => past.(paid := true)
    case TransferAsked(_) => past.(asked := true)
    case Delivered(_) => past.(delivered := true)
    case ReportFailed(_) => past.(reportFailed := true)
  }

  // ---------------------------------------------------------------- steps before a payment

  /** An update of a deal whose payment is not verified, to another such row. */
  predicate Unpaid(d: Deal) { !d.verified && !d.locked && d.status !in {Verified, Completed} && d.paymentGift.None? }

  lemma UnpaidChanged(w: World, id: DealId, d: Deal)
    requires Inv(w) && id in w.deals && Unpaid(w.deals[id]) && Unpaid(d)
    requires d.paymentWallet == w.deals[id].paymentWallet && d.userGives == w.deals[id].userGives
    ensures Inv(w.(deals := w.deals[id := d]))
  {
    hide LogOk, PastOf;
    var v := w.(deals := w.deals[id := d]);
    assert RowOk(w, id);
    RowChanged(w, v, id);
    ExecutorsKept(w, v, id);
  }

  lemma UnpaidStatuses(w: World, id: DealId)
    requires Inv(w) && id in w.deals && w.deals[id].status in {Proposed, Accepted, PaymentClaimed}
    ensures Unpaid(w.deals[id])
  {
    assert RowOk(w, id);
  }

  lemma ProposedKeeps(w: World, e: Event)
    requires Inv(w) && e.Propose? && e.id !in w.deals
    ensures Inv(w.(deals := w.deals[e.id := NewDeal(e)]))
  {
    hide LogOk, PastOf;
    var v := w.(deals := w.deals[e.id := NewDeal(e)]);
    forall id | id in v.deals
      ensures RowOk(v, id)
    {
      assert id != e.id ==> RowOk(w, id);
    }
    forall x | 0 <= x < |w.executors|
      ensures w.executors[x].id != e.id
    {
    }
  }

  lemma ExpiryJobKeeps(w: World, now: int)
    requires Inv(w)
    ensures Inv(w.(deals := ExpireStale(w.deals, now)))
  {
    hide LogOk, PastOf;
    var v := w.(deals := ExpireStale(w.deals, now));
    forall id | id in w.deals
      ensures RowOk(v, id) && (w.deals[id].verified ==> v.deals[id] == w.deals[id])
    {
      assert RowOk(w, id);
      if Stale(w.deals[id], now) {
        UnpaidStatuses(w, id);
      }
    }
  }

  lemma RowStepKeeps(w: World, e: Event)
    requires Inv(w) && (e.Accept? || e.Decline? || e.Cancel? || e.Claim? || e.Expire? || e.Timeout?)
    ensures Inv(StepTable(w, e))
  {
    hide Inv;
    if e.id in w.deals && w.deals[e.id].status in {Proposed, Accepted, PaymentClaimed} {
      UnpaidStatuses(w, e.id);
      UnpaidChanged(w, e.id, StepTable(w, e).deals[e.id]);
      assert StepTable(w, e) == w.(deals := w.deals[e.id := StepTable(w, e).deals[e.id]]);
    } else {
      assert StepTable(w, e) == w;
    }
  }

  lemma TableStepKeeps(w: World, e: Event)
    requires Inv(w)
    requires e.Propose? || e.Accept? || e.Decline? || e.Cancel? || e.Claim? || e.Expire? || e.ExpiryJob? || e.Timeout?
    ensures Inv(StepTable(w, e))
  {
    hide Inv, ExpireStale;
    if e.Propose? {
      if e.id !in w.deals { ProposedKeeps(w, e); }
    } else if e.ExpiryJob? {
      ExpiryJobKeeps(w, e.now);
    } else {
      RowStepKeeps(w, e);
    }
  }

  // ---------------------------------------------------------------- payments

  lemma PaymentVerifiedKeeps(w: World, id: DealId, d: Deal)
    requires Inv(w) && id in w.deals && Unpaid(w.deals[id])
    requires d.status == Verified && d.verified && !d.locked && PaymentOk(d, w.received)
    requires d.paymentGift.Some? ==> !GiftUsed(w.deals, d.paymentGift.value)
    ensures Inv(w.(deals := w.deals[id := d], log := w.log + [PaymentVerified(id)]))
  {
    hide LogOk, PaymentOk, PastOf;
    var v := w.(deals := w.deals[id := d], log := w.log + [PaymentVerified(id)]);
    LogAppended(w.log, PaymentVerified(id));
    assert RowOk(w, id);
    RowChanged(w, v, id);
    ExecutorsKept(w, v, id);
  }

  lemma PaymentStepsKeep(w: World, id: DealId, expected: Status, tx: string, wallet: string, msgId: string)
    requires Inv(w)
    ensures Inv(StepTonVerified(w, id, expected, tx, wallet)) && Inv(StepGiftVerified(w, id, expected, msgId))
  {
    if AwaitsPayment(expected) && HasStatus(w.deals, id, expected) {
      UnpaidStatuses(w, id);
      assert RowOk(w, id);
      hide Inv;
      if w.deals[id].userGives.PaysTon? {
        PaymentVerifiedKeeps(w, id, VerifyTon(w.deals, id, expected, tx, wallet)[id]);
      }
      if msgId in w.received && Pays(w.received[msgId], w.deals[id]) && GiftClaimable(w.deals, id, msgId, expected) {
        PaymentVerifiedKeeps(w, id, ClaimGift(w.deals, id, msgId, expected)[id]);
      }
    }
  }

  lemma ReceiveKeeps(w: World, gift: Gift)
    requires Inv(w) && gift.msgId !in w.received
    ensures Inv(w.(received := w.received[gift.msgId := gift]))
  {
    hide LogOk, ExecutorOk, PhaseOk;
    var v := w.(received := w.received[gift.msgId := gift]);
    forall id | id in w.deals
      ensures RowOk(v, id)
    {
      assert RowOk(w, id);
    }
  }

  // ---------------------------------------------------------------- executors

  lemma LoadKeeps(w: World, id: DealId)
    requires Inv(w)
    ensures Inv(StepLoad(w, id))
  {
    hide LogOk, PastOf;
    if Executable(w.deals, id) {
      assert RowOk(w, id);
      var v := StepLoad(w, id);
      forall x | 0 <= x < |v.executors|
        ensures v.executors[x].id in v.deals
        ensures ExecutorOk(v.executors[x], v.deals[v.executors[x].id], PastOf(v.log, v.executors[x].id))
      {
        assert x < |w.executors| ==> v.executors[x] == w.executors[x];
      }
      forall other | other in v.deals
        ensures RowOk(v, other)
      {
        assert RowOk(w, other);
      }
    }
  }

  /** A holder is the only one of its deal. */
  lemma OnlyHolder(w: World, x: nat)
    requires ExecutorsOk(w) && x < |w.executors|
    requires var d := w.deals[w.executors[x].id];
      Holds(w.executors[x]) || (d.status == Verified && !d.locked)
    ensures forall y :: 0 <= y < |w.executors| && y != x && w.executors[y].id == w.executors[x].id ==>
              !Holds(w.executors[y])
  {
    forall y | 0 <= y < |w.executors| && y != x && w.executors[y].id == w.executors[x].id
      ensures !Holds(w.executors[y])
    {
      assert ExecutorOk(w.executors[y], w.deals[w.executors[y].id], PastOf(w.log, w.executors[y].id));
    }
  }

  /** A step of the only holder x of a deal: its row, its own position, the log about the deal. */
  lemma HolderStepKeeps(w: World, v: World, x: nat, d: Deal, pc: Pc)
    requires Inv(w) && x < |w.executors| && v.received == w.received
    requires var id := w.executors[x].id;
      && v.deals == w.deals[id := d] && v.executors == SetExecutor(w, x, pc)
      && LogGrew(w.log, v.log, id) && LogOk(v.log)
      && SameTerms(w.deals[id], d) && d.verified && d.paymentGift == w.deals[id].paymentGift
      && d.paymentTx == w.deals[id].paymentTx
      && PhaseOk(d, PastOf(v.log, id)) && ExecutorOk(v.executors[x], d, PastOf(v.log, id))
      && forall y :: 0 <= y < |w.executors| && y != x && w.executors[y].id == id ==> !Holds(w.executors[y])
    ensures Inv(v)
  {
    hide LogOk, PastOf, PhaseOk;
    var id := w.executors[x].id;
    assert RowOk(w, id);
    RowChanged(w, v, id);
    ExecutorMoved(w, v, x, pc);
  }

  lemma LockKeeps(w: World, x: nat)
    requires Inv(w)
    ensures Inv(StepLock(w, x))
  {
    hide LogOk, PastOf, Configured;
    if At(w, x, Loaded) {
      var id := w.executors[x].id;
      assert RowOk(w, id);
      assert ExecutorOk(w.executors[x], w.deals[id], PastOf(w.log, id));
      var v := StepLock(w, x);
      if Lockable(w.deals, id) {
        OnlyHolder(w, x);
        SameConfiguration(w.executors[x].deal, v.deals[id]);
        HolderStepKeeps(w, v, x, v.deals[id], v.executors[x].pc);
      } else {
        assert v.deals == w.deals;
        StandingDown(w, v, x);
      }
    }
  }

  lemma SameConfiguration(a: Deal, b: Deal)
    requires SameTerms(a, b)
    ensures Configured(a) == Configured(b)
  {
  }

  /** An executor that returns without a change concerns nobody. */
  lemma StandingDown(w: World, v: World, x: nat)
    requires Inv(w) && x < |w.executors| && v == w.(executors := SetExecutor(w, x, Returned))
    ensures Inv(v)
  {
    hide LogOk, PastOf, PhaseOk, PaymentOk;
    forall id | id in v.deals
      ensures RowOk(v, id)
    {
      assert RowOk(w, id);
    }
  }

  lemma AskKeeps(w: World, x: nat)
    requires Inv(w)
    ensures Inv(StepAsk(w, x))
  {
    hide PastOf, Configured;
    if At(w, x, Locked) {
      var id := w.executors[x].id;
      assert RowOk(w, id);
      OnlyHolder(w, x);
      AskedOnce(w, id);
      hide LogOk;
      LogAppended(w.log, TransferAsked(id));
      assert w.deals == w.deals[id := w.deals[id]];
      HolderStepKeeps(w, StepAsk(w, x), x, w.deals[id], Sending);
    }
  }

  lemma AskedOnce(w: World, id: DealId)
    requires id in w.deals && RowOk(w, id) && w.deals[id].verified && !PastOf(w.log, id).asked
    ensures PaymentVerified(id) in w.log && TransferAsked(id) !in w.log
  {
  }

  lemma AnswerKeeps(w: World, x: nat, answer: Transfer)
    requires Inv(w)
    ensures Inv(StepAnswer(w, x, answer))
  {
    hide LogOk, PastOf, Configured;
    if At(w, x, Sending) || (At(w, x, Locked) && answer.NotSent?) {
      var id := w.executors[x].id;
      var v := StepAnswer(w, x, answer);
      assert RowOk(w, id);
      assert ExecutorOk(w.executors[x], w.deals[id], PastOf(w.log, id));
      OnlyHolder(w, x);
      LogAppended(w.log, Delivered(id));
      SameConfiguration(w.deals[id], v.deals[id]);
      HolderStepKeeps(w, v, x, v.deals[id], v.executors[x].pc);
    }
  }

  lemma ReportKeeps(w: World, x: nat, delivered: bool)
    requires Inv(w)
    ensures Inv(StepReport(w, x, delivered))
  {
    hide LogOk, PastOf, Configured;
    if At(w, x, Reporting) {
      var id := w.executors[x].id;
      var v := StepReport(w, x, delivered);
      assert RowOk(w, id);
      assert ExecutorOk(w.executors[x], w.deals[id], PastOf(w.log, id));
      OnlyHolder(w, x);
      LogAppended(w.log, ReportFailed(id));
      SameConfiguration(w.deals[id], v.deals[id]);
      if delivered {
        StandingDown(w, v, x);
      } else {
        HolderStepKeeps(w, v, x, v.deals[id], Returned);
      }
    }
  }

  // ---------------------------------------------------------------- every run

  lemma StepKeeps(w: World, e: Event)
    requires Inv(w)
    ensures Inv(Step(w, e))
  {
    hide Inv, StepTonVerified, StepGiftVerified, StepLoad, StepLock, StepAsk, StepAnswer, StepReport, StepTable;
    match e
    case ReceiveGift(gift) => if gift.msgId !in w.received { ReceiveKeeps(w, gift); }
    case TonVerified(id, expected, tx, wallet) => PaymentStepsKeep(w, id, expected, tx, wallet, "");
    case GiftVerified(id, expected, msgId) => PaymentStepsKeep(w, id, expected, "", "", msgId);
    case Load(id) => LoadKeeps(w, id);
    case Lock(x) => LockKeeps(w, x);
    case Ask(x) => AskKeeps(w, x);
    case Answer(x, answer) => AnswerKeeps(w, x, answer);
    case Report(x, delivered) => ReportKeeps(w, x, delivered);
    case _ => TableStepKeeps(w, e);
  }

  lemma {:induction false} ContinueKeeps(w: World, events: seq<Event>)
    requires Inv(w)
    ensures Inv(Continue(w, events))
    decreases |events|
  {
    hide Inv, Step;
    if events != [] {
      StepKeeps(w, events[0]);
      ContinueKeeps(Step(w, events[0]), events[1..]);
    }
  }

  lemma RunKeeps(events: seq<Event>)
    ensures Inv(Run(events))
  {
    ContinueKeeps(EMPTY, events);
  }
}
