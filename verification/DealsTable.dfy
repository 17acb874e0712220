/** The deals table as it is updated in place: each update tests its guard and says whether a row changed. */
module DealsTable {
  import opened Common
  import opened Deals

  class DealsDb {
    var rows: Table

    constructor ()
      ensures rows == map[]
    {
      rows := map[];
    }

    /** UPDATE ... WHERE id = ? AND status = ?; returns whether a row changed. */
    method MoveStatus(id: DealId, from: Status, s: Status) returns (changed: bool)
      modifies this
      ensures rows == Move(old(rows), id, from, s) && changed == HasStatus(old(rows), id, from)
    {
      changed := id in rows && rows[id].status == from;
      if changed { rows := rows[id := rows[id].(status := s)]; }
    }

    method ClaimGiftPayment(id: DealId, msgId: string, expected: Status) returns (claimed: bool)
      modifies this
      ensures rows == ClaimGift(old(rows), id, msgId, expected)
      ensures claimed == GiftClaimable(old(rows), id, msgId, expected)
    {
      claimed := id in rows && rows[id].status == expected && !(exists i | i in rows :: rows[i].paymentGift == Some(msgId));
      if claimed {
        rows := rows[id := rows[id].(status := Verified, verified := true, paymentGift := Some(msgId))];
      }
    }

    /** The expiry job: one update of every stale row. */
    method ExpireStaleDeals(now: int)
      modifies this
      ensures rows == ExpireStale(old(rows), now)
      ensures rows.Keys == old(rows).Keys
      ensures forall id :: id in rows ==>
                if old(rows)[id].status in {Proposed, Accepted} && old(rows)[id].expiresAt < now
                then rows[id] == old(rows)[id].(status := Expired) else rows[id] == old(rows)[id]
    {
      rows := map id | id in rows ::
        if (rows[id].status == Proposed || rows[id].status == Accepted) && rows[id].expiresAt < now
        then rows[id].(status := Expired) else rows[id];
    }

    method LockRow(id: DealId) returns (changed: bool)
      modifies this
      ensures rows == LockDeal(old(rows), id) && changed == Lockable(old(rows), id)
    {
      changed := id in rows && rows[id].status == Verified && !rows[id].locked;
      if changed { rows := rows[id := rows[id].(locked := true)]; }
    }

    /** An execution up to the transfer: load, check, lock, and the checks on what was loaded. The executor returned
        goes on to the transfer; without one, the execution has failed. */
    method BeginExecution(id: DealId) returns (x: Option<Executor>)
      modifies this
      ensures rows == if Executable(old(rows), id) then LockDeal(old(rows), id) else old(rows)
      ensures x == if Executable(old(rows), id) && Configured(old(rows)[id])
                   then Some(Executor(id, old(rows)[id], Locked)) else None
    {
      if id !in rows { return None; }
      var deal := rows[id];
      if deal.status != Verified || deal.locked { return None; }
      var changed := LockRow(id);
      if !changed { return None; }
      match deal.agentGives {
        case GivesTon(amount) =>
          if amount.None? || amount.value == 0.0 { return None; }
          if deal.paymentWallet.None? || deal.paymentWallet.value == "" { return None; }
        case GivesGift(giftId) =>
          if giftId.None? || giftId.value == "" { return None; }
      }
      return Some(Executor(id, deal, Locked));
    }

    /** An execution from the answer of the transfer to the chat message. */
    method FinishTransfer(x: Executor, answer: Transfer) returns (reporting: bool)
      requires x.id in rows
      modifies this
      ensures rows == AfterTransfer(old(rows), x, answer) && reporting == answer.Sent?
    {
      var deal := rows[x.id];
      if x.deal.agentGives.GivesTon? {
        if answer.Sent? {
          rows := rows[x.id := deal.(status := Completed, sentTx := Some(answer.reference), txStatus := Some(ConfirmedTx))];
        } else if answer.Unconfirmed? {
          rows := rows[x.id := deal.(txStatus := Some(PendingTx))];
        } else if deal.status == Verified {
          rows := rows[x.id := deal.(locked := false, status := Failed)];
        }
      } else if answer.Sent? {
        rows := rows[x.id := deal.(status := Completed, sentGift := Some(x.deal.agentGives.giftId.GetOr("")))];
      } else {
        rows := rows[x.id := deal.(status := Failed, locked := false)];
      }
      reporting := answer.Sent?;
    }

    /** The chat message could not be sent. */
    method ReportFails(x: Executor)
      requires x.id in rows
      modifies this
      ensures rows == AfterFailedReport(old(rows), x)
    {
      var deal := rows[x.id];
      if x.deal.agentGives.GivesGift? {
        rows := rows[x.id := deal.(status := Failed, locked := false)];
      } else if deal.status == Verified {
        rows := rows[x.id := deal.(locked := false, status := Failed)];
      }
    }
  }

  /** Loading and locking without a pause are the two steps of an executor, one after the other. */
  lemma BeginIsLoadThenLock(w: World, id: DealId)
    requires Executable(w.deals, id)
    ensures var x := |w.executors|;
            var v := Step(Step(w, Load(id)), Lock(x));
            && v.deals == LockDeal(w.deals, id)
            && v.executors == w.executors + [Executor(id, w.deals[id], if Configured(w.deals[id]) then Locked else Returned)]
  {
    hide Configured;
    var loaded := Step(w, Load(id));
    assert loaded.executors[|w.executors|] == Executor(id, w.deals[id], Loaded);
  }
}
