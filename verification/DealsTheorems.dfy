/** The main results about deals, over every interleaving of payments, executors, expiry and failures. */
module DealsTheorems {
  import opened Common
  import opened Deals
  import opened DealsSafety

  /** Each deal's transfer is asked for at most once, and only after its payment was verified. */
  lemma TransferAtMostOnceAfterPayment(events: seq<Event>, k: nat)
    requires k < |Run(events).log| && Run(events).log[k].TransferAsked?
    ensures var log := Run(events).log;
            && (exists j :: 0 <= j < k && log[j] == PaymentVerified(log[k].id))
            && (forall j :: 0 <= j < |log| && j != k ==> log[j] != log[k])
  {
    RunKeeps(events);
    hide Run, RowsOk, ExecutorsOk;
    var log := Run(events).log;
    assert PaymentVerified(log[k].id) in log[..k];
    forall j | 0 <= j < |log| && j != k
      ensures log[j] != log[k]
    {
      if j > k {
        assert log[..j][k] == log[k];
      }
    }
  }

  // ---------------------------------------------------------------- gifts received and deals paid

  /** Deals paid by a gift whose asset was asked to be sent. */
  ghost function GiftPaidSends(w: World): set<DealId> {
    set id | id in w.deals && w.deals[id].userGives.PaysGift? && TransferAsked(id) in w.log
  }

  lemma {:induction false} InjectionCounts(ids: set<DealId>, t: Table, bound: set<string>)
    requires forall id :: id in ids ==> id in t && t[id].paymentGift.Some? && t[id].paymentGift.value in bound
    requires forall i, j :: i in ids && j in ids && i != j ==> t[i].paymentGift != t[j].paymentGift
    ensures |ids| <= |bound|
    decreases ids
  {
    if ids != {} {
      var id :| id in ids;
      InjectionCounts(ids - {id}, t, bound - {t[id].paymentGift.value});
    }
  }

  /** Every such deal was paid by a received gift of the right kind, sender and time; no gift pays two of them, so that
      they never outnumber the gifts received. */
  lemma GiftPaidSendsAreCovered(events: seq<Event>)
    ensures var w := Run(events);
            && (forall id :: id in GiftPaidSends(w) ==>
                 && w.deals[id].paymentGift.Some? && w.deals[id].paymentGift.value in w.received
                 && var gift, deal := w.received[w.deals[id].paymentGift.value], w.deals[id];
                    && gift.fromUser == deal.user && deal.userGives == PaysGift(gift.slug)
                    && gift.receivedAt >= 1000 * deal.createdAt)
            && (forall i, j :: i in GiftPaidSends(w) && j in GiftPaidSends(w) && i != j ==>
                 w.deals[i].paymentGift != w.deals[j].paymentGift)
            && |GiftPaidSends(w)| <= |w.received|
  {
    RunKeeps(events);
    hide Run, ExecutorsOk, LogOk;
    var w := Run(events);
    forall id | id in GiftPaidSends(w)
      ensures w.deals[id].paymentGift.Some? && w.deals[id].paymentGift.value in w.received
      ensures Pays(w.received[w.deals[id].paymentGift.value], w.deals[id])
    {
      assert RowOk(w, id) && PastOf(w.log, id).asked;
    }
    InjectionCounts(GiftPaidSends(w), w.deals, w.received.Keys);
    assert |w.received.Keys| == |w.received|;
  }

  // ---------------------------------------------------------------- what a delivered deal is recorded as

  /** A delivered deal is recorded as completed, except that a gift whose report to the chat failed is recorded as
      failed; and nothing else is recorded as completed. */
  lemma DeliveredIsCompletedExactly(events: seq<Event>, id: DealId)
    requires id in Run(events).deals
    ensures var w := Run(events);
            && (Delivered(id) in w.log ==>
                 w.deals[id].status ==
                 if w.deals[id].agentGives.GivesGift? && ReportFailed(id) in w.log then Failed else Completed)
            && (w.deals[id].status == Completed ==> Delivered(id) in w.log)
  {
    RunKeeps(events);
    hide Run, ExecutorsOk, LogOk;
    var w := Run(events);
    assert RowOk(w, id);
    assert PastOf(w.log, id) == Past(PaymentVerified(id) in w.log, TransferAsked(id) in w.log, Delivered(id) in w.log,
                                     ReportFailed(id) in w.log);
  }

  const GIFT_DEAL: Event := Propose("d", 7, PaysTon, GivesGift(Some("41")), 0, 100)

  /** The deal above once its payment is verified. */
  const PAID_DEAL: Deal :=
    NewDeal(GIFT_DEAL).(status := Verified, verified := true, paymentTx := Some("tx"), paymentWallet := Some("wallet"))

  lemma GiftDealPaid(w: World)
    requires w == EMPTY
    ensures Continue(w, [GIFT_DEAL, Accept("d", 100), TonVerified("d", Accepted, "tx", "wallet")])
         == World(map["d" := PAID_DEAL], map[], [], [PaymentVerified("d")])
  {
    var w1 := Step(w, GIFT_DEAL);
    assert w1 == World(map["d" := NewDeal(GIFT_DEAL)], map[], [], []);
    var w2 := Step(w1, Accept("d", 100));
    assert w2.deals == map["d" := NewDeal(GIFT_DEAL).(status := Accepted)];
    var w3 := Step(w2, TonVerified("d", Accepted, "tx", "wallet"));
    assert w3.deals == map["d" := PAID_DEAL];
    Unroll(w2, TonVerified("d", Accepted, "tx", "wallet"), []);
    Unroll(w1, Accept("d", 100), [TonVerified("d", Accepted, "tx", "wallet")]);
    Unroll(w, GIFT_DEAL, [Accept("d", 100), TonVerified("d", Accepted, "tx", "wallet")]);
  }

  lemma Unroll(w: World, e: Event, rest: seq<Event>)
    ensures Continue(w, [e] + rest) == Continue(Step(w, e), rest) && Continue(w, []) == w
  {
    assert ([e] + rest)[1..] == rest;
  }

  lemma GiftDealSent(w: World, log: seq<Entry>)
    requires w == World(map["d" := PAID_DEAL], map[], [], log)
    ensures Continue(w, [Load("d"), Lock(0), Ask(0)])
         == World(map["d" := PAID_DEAL.(locked := true)], map[], [Executor("d", PAID_DEAL, Sending)],
                  log + [TransferAsked("d")])
  {
    var w1 := Step(w, Load("d"));
    assert w1.executors == [Executor("d", PAID_DEAL, Loaded)];
    var w2 := Step(w1, Lock(0));
    assert w2.executors == [Executor("d", PAID_DEAL, Locked)] && w2.deals == map["d" := PAID_DEAL.(locked := true)];
    var w3 := Step(w2, Ask(0));
    assert w3.executors == [Executor("d", PAID_DEAL, Sending)];
    Unroll(w2, Ask(0), []);
    Unroll(w1, Lock(0), [Ask(0)]);
    Unroll(w, Load("d"), [Lock(0), Ask(0)]);
  }

  lemma GiftDealUnreported(w: World, log: seq<Entry>)
    requires w == World(map["d" := PAID_DEAL.(locked := true)], map[], [Executor("d", PAID_DEAL, Sending)], log)
    ensures var v := Continue(w, [Answer(0, Sent("41")), Report(0, false)]);
            "d" in v.deals && v.deals["d"].status == Failed && !v.deals["d"].locked && Delivered("d") in v.log
  {
    var w1 := Step(w, Answer(0, Sent("41")));
    assert w1.executors == [Executor("d", PAID_DEAL, Reporting)] && Delivered("d") in w1.log;
    Unroll(w1, Report(0, false), []);
    Unroll(w, Answer(0, Sent("41")), [Report(0, false)]);
  }

  lemma {:induction false} ContinueAppend(w: World, es: seq<Event>, more: seq<Event>)
    ensures Continue(w, es + more) == Continue(Continue(w, es), more)
    decreases |es|
  {
    hide Step;
    if es == [] {
      assert es + more == more;
    } else {
      assert (es + more)[0] == es[0] && (es + more)[1..] == es[1..] + more;
      ContinueAppend(Step(w, es[0]), es[1..], more);
    }
  }

  /** That exception happens: a gift deal paid, sent and delivered, whose chat message could not be sent. */
  lemma DeliveredGiftRecordedAsFailed()
    ensures exists events, id :: id in Run(events).deals && Delivered(id) in Run(events).log
              && Run(events).deals[id].status == Failed && !Run(events).deals[id].locked
  {
    hide Step;
    var paid := [GIFT_DEAL, Accept("d", 100), TonVerified("d", Accepted, "tx", "wallet")];
    var sent := [Load("d"), Lock(0), Ask(0)];
    var unreported := [Answer(0, Sent("41")), Report(0, false)];
    GiftDealPaid(EMPTY);
    GiftDealSent(Run(paid), [PaymentVerified("d")]);
    ContinueAppend(EMPTY, paid, sent);
    GiftDealUnreported(Run(paid + sent), [PaymentVerified("d")] + [TransferAsked("d")]);
    ContinueAppend(EMPTY, paid + sent, unreported);
    assert Delivered("d") in Run(paid + sent + unreported).log;
  }

  // ---------------------------------------------------------------- deals that are never served

  /** A deal in which the user gives a gift and the agent TON is never paid out: no gift payment records a wallet. */
  lemma GiftForTonIsNeverPaid(events: seq<Event>, id: DealId)
    requires id in Run(events).deals
    requires Run(events).deals[id].userGives.PaysGift? && Run(events).deals[id].agentGives.GivesTon?
    ensures TransferAsked(id) !in Run(events).log && Run(events).deals[id].status != Completed
  {
    RunKeeps(events);
    hide Run, ExecutorsOk, LogOk;
    var w := Run(events);
    assert RowOk(w, id);
    assert PastOf(w.log, id).asked == (TransferAsked(id) in w.log);
  }

  /** No executor holds this deal. */
  ghost predicate Unheld(w: World, id: DealId) {
    forall x :: 0 <= x < |w.executors| && w.executors[x].id == id ==> !Holds(w.executors[x])
  }

  /** A deal left verified and locked by every executor: what it lacked or awaited is never looked at again. */
  ghost predicate Stranded(w: World, id: DealId) {
    id in w.deals && w.deals[id].status == Verified && w.deals[id].locked && Unheld(w, id)
  }

  lemma StrandedByTable(w: World, e: Event, id: DealId)
    requires Stranded(w, id)
    requires e.Propose? || e.Accept? || e.Decline? || e.Cancel? || e.Claim? || e.Expire? || e.ExpiryJob? || e.Timeout?
    ensures Stranded(StepTable(w, e), id)
  {
    hide Unheld;
    assert StepTable(w, e).executors == w.executors && StepTable(w, e).deals[id] == w.deals[id];
    UnheldWith(w, StepTable(w, e), id);
  }

  lemma UnheldWith(w: World, v: World, id: DealId)
    requires Unheld(w, id) && v.executors == w.executors
    ensures Unheld(v, id)
  {
  }

  lemma StrandedByPayment(w: World, e: Event, id: DealId)
    requires Stranded(w, id) && (e.ReceiveGift? || e.TonVerified? || e.GiftVerified?)
    ensures Stranded(Step(w, e), id)
  {
    hide Unheld, Pays, GiftUsed;
    UnheldWith(w, Step(w, e), id);
  }

  lemma StrandedByExecutor(w: World, e: Event, id: DealId)
    requires Stranded(w, id) && (e.Load? || e.Lock? || e.Ask? || e.Answer? || e.Report?)
    requires forall x :: 0 <= x < |w.executors| ==> w.executors[x].id in w.deals
    ensures Stranded(Step(w, e), id)
  {
    hide Configured, StepTable;
    var v := Step(w, e);
    forall x | 0 <= x < |v.executors| && v.executors[x].id == id
      ensures !Holds(v.executors[x])
    {
      assert x < |w.executors| ==> w.executors[x].id == v.executors[x].id;
    }
  }

  lemma StrandedStays(w: World, e: Event, id: DealId)
    requires Inv(w) && Stranded(w, id)
    ensures Stranded(Step(w, e), id)
  {
    hide Stranded, StepTonVerified, StepGiftVerified, StepLoad, StepLock, StepAsk, StepAnswer, StepReport, StepTable;
    if e.ReceiveGift? || e.TonVerified? || e.GiftVerified? {
      StrandedByPayment(w, e, id);
    } else if e.Load? || e.Lock? || e.Ask? || e.Answer? || e.Report? {
      StrandedByExecutor(w, e, id);
    } else {
      StrandedByTable(w, e, id);
    }
  }

  /** Once stranded, a deal stays verified, locked and unsent whatever happens next. */
  lemma {:induction false} StrandedForever(w: World, events: seq<Event>, id: DealId)
    requires Inv(w) && Stranded(w, id)
    ensures Stranded(Continue(w, events), id)
    decreases |events|
  {
    if events != [] {
      hide Inv, Step, Stranded;
      StrandedStays(w, events[0], id);
      StepKeeps(w, events[0]);
      StrandedForever(Step(w, events[0]), events[1..], id);
    }
  }

  /** What the transfer needs is missing: the amount or the wallet, or the gift. */
  predicate LacksTransferData(d: Deal) {
    match d.agentGives
    case GivesTon(amount) => amount == None || amount == Some(0.0) || d.paymentWallet == None || d.paymentWallet == Some("")
    case GivesGift(giftId) => giftId == None || giftId == Some("")
  }

  lemma LacksWhatIsConfigured(d: Deal)
    ensures LacksTransferData(d) <==> !Configured(d)
  {
  }

  /** A paid deal is stranded by its first executor exactly when it lacks what the transfer needs. */
  lemma LockStrandsExactly(w: World, x: nat)
    requires Inv(w) && At(w, x, Loaded) && Lockable(w.deals, w.executors[x].id)
    ensures Stranded(Step(w, Lock(x)), w.executors[x].id) <==> LacksTransferData(w.executors[x].deal)
  {
    OnlyHolder(w, x);
    LacksWhatIsConfigured(w.executors[x].deal);
    hide Inv, Configured, LacksTransferData;
    var id := w.executors[x].id;
    var v := Step(w, Lock(x));
    assert forall y :: 0 <= y < |w.executors| && y != x ==> v.executors[y] == w.executors[y];
    assert v.executors[x] == w.executors[x].(pc := if Configured(w.executors[x].deal) then Locked else Returned);
  }

  const TON_DEAL: Event := Propose("d", 7, PaysGift("pepe"), GivesTon(Some(5.0)), 0, 100)

  const GIFT: Gift := Gift("m", "pepe", 7, 0)

  /** The deal above once its gift has arrived and been matched. */
  const GIFTED_DEAL: Deal := NewDeal(TON_DEAL).(status := Verified, verified := true, paymentGift := Some("m"))

  lemma TonDealPaid(w: World)
    requires w == EMPTY
    ensures Continue(w, [TON_DEAL, Accept("d", 100), ReceiveGift(GIFT), GiftVerified("d", Accepted, "m")])
         == World(map["d" := GIFTED_DEAL], map["m" := GIFT], [], [PaymentVerified("d")])
  {
    var w1 := Step(w, TON_DEAL);
    assert w1 == World(map["d" := NewDeal(TON_DEAL)], map[], [], []);
    var w2 := Step(w1, Accept("d", 100));
    assert w2.deals == map["d" := NewDeal(TON_DEAL).(status := Accepted)];
    var w3 := Step(w2, ReceiveGift(GIFT));
    assert w3.received == map["m" := GIFT];
    var w4 := Step(w3, GiftVerified("d", Accepted, "m"));
    assert w4.deals == map["d" := GIFTED_DEAL];
    Unroll(w3, GiftVerified("d", Accepted, "m"), []);
    Unroll(w2, ReceiveGift(GIFT), [GiftVerified("d", Accepted, "m")]);
    Unroll(w1, Accept("d", 100), [ReceiveGift(GIFT), GiftVerified("d", Accepted, "m")]);
    Unroll(w, TON_DEAL, [Accept("d", 100), ReceiveGift(GIFT), GiftVerified("d", Accepted, "m")]);
  }

  lemma TonDealStranded(w: World)
    requires w.deals == map["d" := GIFTED_DEAL] && w.executors == []
    ensures Stranded(Continue(w, [Load("d"), Lock(0)]), "d")
    ensures Continue(w, [Load("d"), Lock(0)]).deals["d"] == GIFTED_DEAL.(locked := true)
  {
    var w1 := Step(w, Load("d"));
    assert w1.executors == [Executor("d", GIFTED_DEAL, Loaded)];
    var w2 := Step(w1, Lock(0));
    assert w2.executors == [Executor("d", GIFTED_DEAL, Returned)] && w2.deals == map["d" := GIFTED_DEAL.(locked := true)];
    Unroll(w1, Lock(0), []);
    Unroll(w, Load("d"), [Lock(0)]);
  }

  /** Deals are stranded: one in which the buyer's gift arrived and was verified, and the agent owes TON. */
  lemma PaidGiftForTonIsStranded()
    ensures exists events, id :: Stranded(Run(events), id) && Run(events).deals[id].verified
              && Run(events).deals[id].userGives.PaysGift? && Run(events).deals[id].agentGives.GivesTon?
  {
    hide Step, Stranded;
    var paid := [TON_DEAL, Accept("d", 100), ReceiveGift(GIFT), GiftVerified("d", Accepted, "m")];
    var locked := [Load("d"), Lock(0)];
    TonDealPaid(EMPTY);
    TonDealStranded(Run(paid));
    ContinueAppend(EMPTY, paid, locked);
    assert Stranded(Run(paid + locked), "d") && Run(paid + locked).deals["d"].verified;
  }

  // ---------------------------------------------------------------- statuses move forward

  predicate Forward(from: Status, to: Status) {
    from == to ||
    match from
    case Proposed => to in {Accepted, Declined, Expired, Cancelled}
    case Accepted => to in {PaymentClaimed, Verified, Expired, Cancelled}
    case PaymentClaimed => to in {Verified, Failed}
    case Verified => to in {Completed, Failed}
    case Completed => to == Failed
    case _ => false
  }

  predicate Advanced(d: Deal, e: Deal) {
    Forward(d.status, e.status)
    && (d.verified ==> e.verified && e.paymentGift == d.paymentGift && e.paymentTx == d.paymentTx)
  }

  lemma TableAdvances(w: World, e: Event, id: DealId)
    requires id in w.deals && RowOk(w, id)
    requires e.Propose? || e.Accept? || e.Decline? || e.Cancel? || e.Claim? || e.Expire? || e.ExpiryJob? || e.Timeout?
    ensures id in StepTable(w, e).deals && Advanced(w.deals[id], StepTable(w, e).deals[id])
  {
    assert w.deals[id].status in {Proposed, Accepted, PaymentClaimed} ==> !w.deals[id].verified;
    hide RowOk;
  }

  lemma PaymentsAdvance(w: World, e: Event, id: DealId)
    requires id in w.deals && RowOk(w, id)
    requires e.ReceiveGift? || e.TonVerified? || e.GiftVerified? || e.Load? || e.Lock? || e.Ask?
    ensures id in Step(w, e).deals && Advanced(w.deals[id], Step(w, e).deals[id])
  {
    assert w.deals[id].status in {Proposed, Accepted, PaymentClaimed} ==> !w.deals[id].verified;
    hide RowOk, Configured, Pays, GiftUsed, StepTable;
  }

  lemma HolderRow(w: World, x: nat)
    requires Inv(w) && x < |w.executors| && Holds(w.executors[x])
    ensures w.executors[x].id in w.deals
    ensures w.deals[w.executors[x].id].status == if w.executors[x].pc == Reporting then Completed else Verified
  {
    assert ExecutorOk(w.executors[x], w.deals[w.executors[x].id], PastOf(w.log, w.executors[x].id));
  }

  lemma AnswersAdvance(w: World, e: Event, id: DealId)
    requires Inv(w) && id in w.deals && (e.Answer? || e.Report?)
    ensures id in Step(w, e).deals && Advanced(w.deals[id], Step(w, e).deals[id])
  {
    hide Inv, Configured, PastOf, StepTable;
    if e.x < |w.executors| && Holds(w.executors[e.x]) {
      HolderRow(w, e.x);
    }
  }

  /** Whoever updates the table, rows are kept and statuses only move forward; the last four are final, and a payment
      once verified is never withdrawn. */
  lemma StatusesMoveForward(w: World, e: Event, id: DealId)
    requires Inv(w) && id in w.deals
    ensures id in Step(w, e).deals && Advanced(w.deals[id], Step(w, e).deals[id])
  {
    assert RowOk(w, id);
    hide Inv, RowOk, Advanced, StepTable, StepTonVerified, StepGiftVerified, StepLoad, StepLock, StepAsk, StepAnswer,
         StepReport;
    if e.Answer? || e.Report? {
      AnswersAdvance(w, e, id);
    } else if e.ReceiveGift? || e.TonVerified? || e.GiftVerified? || e.Load? || e.Lock? || e.Ask? {
      PaymentsAdvance(w, e, id);
    } else {
      TableAdvances(w, e, id);
    }
  }
}
