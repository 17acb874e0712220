/** When a deal's status changes, for every step and every column it depends on. */
module DealsTransitions {
  import opened Common
  import opened Deals
  import opened DealsSafety
  import opened DealsTheorems

  ghost predicate Changes(w: World, w': World, id: DealId, s: Status) {
    id in w.deals && id in w'.deals && w.deals[id].status != s && w'.deals[id].status == s
  }

  predicate Has(w: World, id: DealId, statuses: set<Status>) { id in w.deals && w.deals[id].status in statuses }

  /** A payment is accepted for a deal that awaits it: TON for a deal paid in TON, vouched for by the verifier; or a received
      gift of the deal's buyer and slug, not before the deal, that pays no deal yet. */
  ghost predicate PaymentArrives(w: World, e: Event, id: DealId) {
    || (e.TonVerified? && e.id == id && e.expected in {Accepted, PaymentClaimed} && Has(w, id, {e.expected})
        && w.deals[id].userGives == PaysTon)
    || (e.GiftVerified? && e.id == id && e.expected in {Accepted, PaymentClaimed} && Has(w, id, {e.expected})
        && e.msgId in w.received
        && (var gift, deal := w.received[e.msgId], w.deals[id];
            && gift.fromUser == deal.user && deal.userGives == PaysGift(gift.slug)
            && gift.receivedAt >= 1000 * deal.createdAt)
        && forall other :: other in w.deals ==> w.deals[other].paymentGift != Some(e.msgId))
  }

  /** An executor of the deal stands there. */
  predicate ExecutorAt(w: World, x: nat, id: DealId, pc: Pc) {
    x < |w.executors| && w.executors[x].id == id && w.executors[x].pc == pc
  }

  /** The transfer is known not to have happened, or a gift transfer is in doubt, or a gift's chat message failed. */
  predicate ExecutionFails(w: World, e: Event, id: DealId) {
    id in w.deals &&
    (|| (e.Answer? && e.answer == NotSent && (ExecutorAt(w, e.x, id, Locked) || ExecutorAt(w, e.x, id, Sending)))
     || (e.Answer? && e.answer == Unconfirmed && ExecutorAt(w, e.x, id, Sending) && w.deals[id].agentGives.GivesGift?)
     || (e.Report? && !e.delivered && ExecutorAt(w, e.x, id, Reporting) && w.deals[id].agentGives.GivesGift?))
  }

  predicate TransferConfirmed(w: World, e: Event, id: DealId) {
    e.Answer? && e.answer.Sent? && ExecutorAt(w, e.x, id, Sending)
  }

  ghost predicate ChangesExactly(w: World, e: Event, w': World, id: DealId) {
    && id in w.deals && id in w'.deals
    && (Changes(w, w', id, Accepted) <==> e.Accept? && e.id == id && Has(w, id, {Proposed}))
    && (Changes(w, w', id, Declined) <==> e == Decline(id) && Has(w, id, {Proposed}))
    && (Changes(w, w', id, Cancelled) <==> e == Cancel(id) && Has(w, id, {Proposed, Accepted}))
    && (Changes(w, w', id, PaymentClaimed) <==> e == Claim(id) && Has(w, id, {Accepted}))
    && (Changes(w, w', id, Expired) <==>
          Has(w, id, {Proposed, Accepted}) && (e == Expire(id) || (e.ExpiryJob? && w.deals[id].expiresAt < e.now)))
    && (Changes(w, w', id, Verified) <==> PaymentArrives(w, e, id))
    && (Changes(w, w', id, Completed) <==> TransferConfirmed(w, e, id))
    && (Changes(w, w', id, Failed) <==> (e == Timeout(id) && Has(w, id, {PaymentClaimed})) || ExecutionFails(w, e, id))
    && !Changes(w, w', id, Proposed)
  }

  lemma AnsweredCalls(w: World, e: Event, id: DealId)
    requires id in w.deals && (e.Accept? || e.Decline? || e.Cancel?)
    ensures ChangesExactly(w, e, Step(w, e), id)
  {
    hide StepTonVerified, StepGiftVerified, StepLoad, StepLock, StepAsk, StepAnswer, StepReport, ExpireStale;
  }

  lemma EndedCalls(w: World, e: Event, id: DealId)
    requires id in w.deals && (e.Claim? || e.Expire? || e.Timeout?)
    ensures ChangesExactly(w, e, Step(w, e), id)
  {
    hide StepTonVerified, StepGiftVerified, StepLoad, StepLock, StepAsk, StepAnswer, StepReport, ExpireStale;
  }

  lemma TableCalls(w: World, e: Event, id: DealId)
    requires id in w.deals && (e.Propose? || e.ExpiryJob?)
    ensures ChangesExactly(w, e, Step(w, e), id)
  {
    hide StepTonVerified, StepGiftVerified, StepLoad, StepLock, StepAsk, StepAnswer, StepReport;
  }

  lemma PaymentCalls(w: World, e: Event, id: DealId)
    requires id in w.deals && (e.ReceiveGift? || e.TonVerified? || e.GiftVerified?)
    ensures ChangesExactly(w, e, Step(w, e), id)
  {
    hide StepTable, StepLoad, StepLock, StepAsk, StepAnswer, StepReport;
  }

  lemma QuietCalls(w: World, e: Event, id: DealId)
    requires id in w.deals && (e.Load? || e.Lock? || e.Ask?)
    ensures ChangesExactly(w, e, Step(w, e), id)
  {
    hide StepTable, StepTonVerified, StepGiftVerified, StepAnswer, StepReport, Configured;
  }

  /** An executor that holds a deal works on a row that still has its terms and the status its position implies. */
  lemma Holder(w: World, x: nat)
    requires Inv(w) && x < |w.executors| && Holds(w.executors[x])
    ensures var id := w.executors[x].id;
            && id in w.deals && w.executors[x].deal.agentGives == w.deals[id].agentGives
            && w.deals[id].status == if w.executors[x].pc == Reporting then Completed else Verified
  {
    assert ExecutorOk(w.executors[x], w.deals[w.executors[x].id], PastOf(w.log, w.executors[x].id));
  }

  lemma TransferAnswers(w: World, e: Event, id: DealId)
    requires Inv(w) && id in w.deals && e.Answer?
    ensures ChangesExactly(w, e, Step(w, e), id)
  {
    hide Inv, StepTable, StepTonVerified, StepGiftVerified, StepLoad, StepLock, StepAsk, StepReport, Configured;
    if e.x < |w.executors| && Holds(w.executors[e.x]) {
      Holder(w, e.x);
    }
  }

  lemma ReportCalls(w: World, e: Event, id: DealId)
    requires Inv(w) && id in w.deals && e.Report?
    ensures ChangesExactly(w, e, Step(w, e), id)
  {
    hide Inv, StepTable, StepTonVerified, StepGiftVerified, StepLoad, StepLock, StepAsk, StepAnswer, Configured;
    if e.x < |w.executors| && Holds(w.executors[e.x]) {
      Holder(w, e.x);
    }
  }

  /** A deal's status changes in a step exactly as listed. */
  lemma StatusChangesExactly(w: World, e: Event, id: DealId)
    requires Inv(w) && id in w.deals
    ensures ChangesExactly(w, e, Step(w, e), id)
  {
    hide Inv, Step, ChangesExactly;
    if e.Answer? {
      TransferAnswers(w, e, id);
    } else if e.Report? {
      ReportCalls(w, e, id);
    } else if e.Load? || e.Lock? || e.Ask? {
      QuietCalls(w, e, id);
    } else if e.ReceiveGift? || e.TonVerified? || e.GiftVerified? {
      PaymentCalls(w, e, id);
    } else if e.Propose? || e.ExpiryJob? {
      TableCalls(w, e, id);
    } else if e.Accept? || e.Decline? || e.Cancel? {
      AnsweredCalls(w, e, id);
    } else {
      EndedCalls(w, e, id);
    }
  }

  // ---------------------------------------------------------------- what is written beside the status

  /** An executor that has read the row takes the lock. */
  predicate LockTaken(w: World, e: Event, id: DealId) {
    e.Lock? && ExecutorAt(w, e.x, id, Loaded) && Has(w, id, {Verified}) && !w.deals[id].locked
  }

  /** The terms stay; the expiry moves when the deal is accepted; the payment is recorded when it arrives; the lock is taken
      by an executor and released when the execution fails; the proof of the transfer comes with its answer. */
  ghost predicate ColumnsFit(w: World, e: Event, w': World, id: DealId) {
    id in w.deals && id in w'.deals &&
    var d, d' := w.deals[id], w'.deals[id];
    && d'.user == d.user && d'.userGives == d.userGives && d'.agentGives == d.agentGives && d'.createdAt == d.createdAt
    && d'.expiresAt == (if e.Accept? && e.id == id && d.status == Proposed then e.expiresAt else d.expiresAt)
    && (d'.verified <==> d.verified || PaymentArrives(w, e, id))
    && (!PaymentArrives(w, e, id) ==>
         d'.paymentTx == d.paymentTx && d'.paymentWallet == d.paymentWallet && d'.paymentGift == d.paymentGift)
    && (d'.locked <==> LockTaken(w, e, id) || (d.locked && !ExecutionFails(w, e, id)))
    && (!(e.Answer? && ExecutorAt(w, e.x, id, Sending)) ==>
         d'.sentTx == d.sentTx && d'.sentGift == d.sentGift && d'.txStatus == d.txStatus)
  }

  lemma TableFits(w: World, e: Event, id: DealId)
    requires id in w.deals && !e.Answer? && !e.Report? && !e.TonVerified? && !e.GiftVerified? && !e.Lock?
    ensures ColumnsFit(w, e, Step(w, e), id)
  {
    hide StepTonVerified, StepGiftVerified, StepLock, StepAnswer, StepReport;
  }

  lemma PaymentFits(w: World, e: Event, id: DealId)
    requires id in w.deals && (e.TonVerified? || e.GiftVerified?)
    ensures ColumnsFit(w, e, Step(w, e), id)
  {
    hide StepTable, StepLoad, StepLock, StepAsk, StepAnswer, StepReport;
  }

  lemma LockFits(w: World, e: Event, id: DealId)
    requires id in w.deals && e.Lock?
    ensures ColumnsFit(w, e, Step(w, e), id)
  {
    hide StepTable, StepTonVerified, StepGiftVerified, StepAnswer, StepReport, Configured;
  }

  lemma AnswerFits(w: World, e: Event, id: DealId)
    requires Inv(w) && id in w.deals && e.Answer?
    ensures ColumnsFit(w, e, Step(w, e), id)
  {
    hide Inv, StepTable, StepTonVerified, StepGiftVerified, StepLoad, StepLock, StepAsk, StepReport, Configured;
    if e.x < |w.executors| && Holds(w.executors[e.x]) {
      Holder(w, e.x);
    }
  }

  lemma ReportFits(w: World, e: Event, id: DealId)
    requires Inv(w) && id in w.deals && e.Report?
    ensures ColumnsFit(w, e, Step(w, e), id)
  {
    hide Inv, StepTable, StepTonVerified, StepGiftVerified, StepLoad, StepLock, StepAsk, StepAnswer, Configured;
    if e.x < |w.executors| && Holds(w.executors[e.x]) {
      Holder(w, e.x);
    }
  }

  lemma ColumnsChangeExactly(w: World, e: Event, id: DealId)
    requires Inv(w) && id in w.deals
    ensures ColumnsFit(w, e, Step(w, e), id)
  {
    hide Inv, Step, ColumnsFit;
    if e.Answer? {
      AnswerFits(w, e, id);
    } else if e.Report? {
      ReportFits(w, e, id);
    } else if e.Lock? {
      LockFits(w, e, id);
    } else if e.TonVerified? || e.GiftVerified? {
      PaymentFits(w, e, id);
    } else {
      TableFits(w, e, id);
    }
  }

  /** A proposal begins a row with its terms and nothing paid; a known id is not proposed again. */
  lemma ProposalRecorded(w: World, e: Event)
    requires e.Propose?
    ensures var w' := Step(w, e);
            && e.id in w'.deals && (e.id in w.deals ==> w' == w)
            && (e.id !in w.deals ==>
                 var d := w'.deals[e.id];
                 && d.status == Proposed && d.user == e.user && d.userGives == e.userGives && d.agentGives == e.agentGives
                 && d.createdAt == e.now && d.expiresAt == e.expiresAt && !d.verified && !d.locked
                 && d.paymentTx == d.paymentWallet == d.paymentGift == d.sentTx == d.sentGift == None)
  {
  }

  /** An accepted payment is recorded with what proves it. */
  lemma PaymentRecorded(w: World, e: Event, id: DealId)
    requires PaymentArrives(w, e, id)
    ensures var d := Step(w, e).deals[id];
            && d.verified && (e.TonVerified? ==> d.paymentTx == Some(e.tx) && d.paymentWallet == Some(e.wallet))
            && (e.GiftVerified? ==> d.paymentGift == Some(e.msgId) && d.paymentWallet == w.deals[id].paymentWallet)
            && d.locked == w.deals[id].locked && Step(w, e).log == w.log + [PaymentVerified(id)]
  {
  }

  /** What the answer of a transfer leaves in the row: the proof of it, a note that it is pending, or the lock released. */
  lemma AnswerRecorded(w: World, e: Event, id: DealId)
    requires Inv(w) && e.Answer? && ExecutorAt(w, e.x, id, Sending)
    ensures id in w.deals && id in Step(w, e).deals
    ensures var before, after := w.deals[id], Step(w, e).deals[id];
            && (e.answer.Sent? && before.agentGives.GivesTon? ==>
                  after == before.(status := Completed, sentTx := Some(e.answer.reference), txStatus := Some(ConfirmedTx)))
            && (e.answer.Sent? && before.agentGives.GivesGift? ==>
                  after == before.(status := Completed, sentGift := before.agentGives.giftId))
            && (e.answer == Unconfirmed && before.agentGives.GivesTon? ==> after == before.(txStatus := Some(PendingTx)))
            && (e.answer == NotSent || (e.answer == Unconfirmed && before.agentGives.GivesGift?) ==>
                  after == before.(status := Failed, locked := false))
  {
    Holder(w, e.x);
    SentWhatWasConfigured(w, e.x);
    hide Inv, StepTable, StepTonVerified, StepGiftVerified, StepLoad, StepLock, StepAsk, StepReport;
  }

  /** A failed gift transfer fails its deal whatever became of it meanwhile; a failed TON transfer only if it is still
      verified. */
  lemma FailureRecorded(t: Table, x: Executor)
    requires x.id in t
    ensures var d, failed := t[x.id], t[x.id].(status := Failed, locked := false);
            && AfterTransfer(t, x, NotSent) == AfterFailedReport(t, x)
            && AfterFailedReport(t, x) == (if x.deal.agentGives.GivesGift? || d.status == Verified then t[x.id := failed] else t)
            && (x.deal.agentGives.GivesGift? ==> AfterTransfer(t, x, Unconfirmed) == t[x.id := failed])
            && (x.deal.agentGives.GivesTon? ==> AfterTransfer(t, x, Unconfirmed) == t[x.id := d.(txStatus := Some(PendingTx))])
  {
    assert t[x.id := t[x.id]] == t;
  }

  lemma SentWhatWasConfigured(w: World, x: nat)
    requires Inv(w) && x < |w.executors| && w.executors[x].pc == Sending
    ensures w.executors[x].id in w.deals && Configured(w.deals[w.executors[x].id])
  {
    var id := w.executors[x].id;
    assert ExecutorOk(w.executors[x], w.deals[id], PastOf(w.log, id));
    assert RowOk(w, id);
  }

  // ---------------------------------------------------------------- executors and the log

  /** Where executor x stands after a step. */
  function MovesTo(w: World, e: Event, x: nat): Pc
    requires x < |w.executors|
  {
    var me := w.executors[x];
    if e == Lock(x) && me.pc == Loaded then
      if Has(w, me.id, {Verified}) && !w.deals[me.id].locked && !LacksTransferData(me.deal) then Locked else Returned
    else if e == Ask(x) && me.pc == Locked then Sending
    else if e.Answer? && e.x == x && me.pc == Sending then if e.answer.Sent? then Reporting else Returned
    else if e == Answer(x, NotSent) && me.pc == Locked then Returned
    else if e.Report? && e.x == x && me.pc == Reporting then Returned
    else me.pc
  }

  /** An executor begins with the row of a verified, unlocked deal. */
  predicate Begins(w: World, e: Event) { e.Load? && Has(w, e.id, {Verified}) && !w.deals[e.id].locked }

  /** Executors move one at a time, each through lock, transfer and report to its return, and keep the row they read; none
      vanishes, and a new one begins with a load. */
  lemma ExecutorsMoveExactly(w: World, e: Event)
    ensures var w' := Step(w, e);
            && |w'.executors| == |w.executors| + (if Begins(w, e) then 1 else 0)
            && (Begins(w, e) ==> w'.executors[|w.executors|] == Executor(e.id, w.deals[e.id], Loaded))
            && forall x: nat :: x < |w.executors| ==> w'.executors[x] == w.executors[x].(pc := MovesTo(w, e, x))
  {
    hide StepTable, StepTonVerified, StepGiftVerified, AfterTransfer, AfterFailedReport, Configured, LacksTransferData;
    if !(e.Load? || e.Lock? || e.Ask? || e.Answer? || e.Report?) {
      StepKeepsExecutors(w, e);
    }
    if e.Lock? && e.x < |w.executors| {
      LacksWhatIsConfigured(w.executors[e.x].deal);
    }
  }

  lemma StepKeepsExecutors(w: World, e: Event)
    requires !(e.Load? || e.Lock? || e.Ask? || e.Answer? || e.Report?)
    ensures Step(w, e).executors == w.executors
  {
  }

  /** The log is told of every payment accepted, every transfer asked for, every delivery and every report that failed. */
  lemma LogGrowsExactly(w: World, e: Event)
    ensures var w' := Step(w, e);
            w'.log == w.log +
              if (e.TonVerified? || e.GiftVerified?) && PaymentArrives(w, e, e.id) then [PaymentVerified(e.id)]
              else if e.Ask? && e.x < |w.executors| && w.executors[e.x].pc == Locked then [TransferAsked(w.executors[e.x].id)]
              else if e.Answer? && e.answer.Sent? && e.x < |w.executors| && w.executors[e.x].pc == Sending
              then [Delivered(w.executors[e.x].id)]
              else if e.Report? && !e.delivered && e.x < |w.executors| && w.executors[e.x].pc == Reporting
              then [ReportFailed(w.executors[e.x].id)]
              else []
  {
    hide AfterTransfer, AfterFailedReport, Configured;
  }
}
