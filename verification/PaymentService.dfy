/**
 validatePayment and the reconciliation loop as they run: step by step over mutable tables, rolled back on a throw.
 */
module PaymentServices {
  import opened Wrappers
  import opened Calendar
  import opened Subscriptions
  import opened Accounts
  import opened Billing

  class PaymentService {
    var txs: map<string, Transaction>
    var invoices: map<string, Invoice>
    var plans: map<PlanKey, Plan>
    var db: Db
    const isLive: bool

    constructor (s: Store, isLive: bool)
      ensures Tables() == s && this.isLive == isLive
    {
      txs, invoices, plans, db := s.txs, s.invoices, s.plans, s.db;
      this.isLive := isLive;
    }

    function Tables(): Store
      reads this
    {
      Store(txs, invoices, plans, db)
    }

    /** The stacking of a company's or a job seeker's validity; the dates are mutated with setDate or setMonth. */
    method StackSubscription(existing: Option<Subscription>, planId: string, term: Term, now: int)
      returns (sub: Subscription)
      ensures sub == Granted(existing, planId, term, now)
      ensures var start := if Running(existing, planId, now) then existing.value.endDate.value else now;
        Extended(existing, sub, planId, if term.ThirtyDays? then 30 else DaysInMonths(MonthIndex(start), term.k), now)
    {
      GrantedIsExtended(existing, planId, term, now);
      var finalStart := now;
      var finalEnd := now;
      match term {
        case ThirtyDays => finalEnd := SetDate(finalEnd, DateOf(finalEnd) + 30);
        case Months(k) => finalEnd := SetMonth(finalEnd, Month(finalEnd) + k);
      }
      if existing.Some? && existing.value.status == ACTIVE && existing.value.planId == planId {
        if existing.value.endDate.Some? && existing.value.endDate.value > now {
          finalStart := existing.value.startDate;
          var newEnd := existing.value.endDate.value;
          match term {
            case ThirtyDays => newEnd := SetDate(newEnd, DateOf(newEnd) + 30);
            case Months(k) => newEnd := SetMonth(newEnd, Month(newEnd) + k);
          }
          finalEnd := newEnd;
        }
      }
      sub := Subscription(planId, ACTIVE, finalStart, Some(finalEnd), false, None);
    }

    /** The $transaction block; false when it threw and was rolled back. */
    method CommitTransaction(tranId: string, transaction: Transaction, valId: string, riskLevel: int, now: int)
      returns (committed: bool)
      requires tranId in txs
      modifies this
      ensures var r := CommitTx(old(Tables()), tranId, transaction, valId, riskLevel, now);
        committed == r.Ok? && Tables() == if r.Ok? then r.value else old(Tables())
    {
      var savepoint := txs;
      var currentTx := txs[tranId];
      if currentTx.status == VALIDATED {
        return true;
      }
      var targetStatus := if riskLevel == 1 then PENDING_REVIEW else VALIDATED;
      if ValIdTaken(txs, tranId, valId) {
        return false;
      }
      txs := txs[tranId := currentTx.(status := targetStatus, valId := Some(valId), riskLevel := riskLevel)];
      if targetStatus == PENDING_REVIEW {
        return true;
      }
      var owner, planKey := OwnerOf(transaction), PlanOf(transaction);
      if owner.None? || planKey !in plans {
        txs := savepoint;
        return false;
      }
      var number := InvoiceNumber(transaction.category, tranId);
      if number in invoices || transaction.userId !in db.users {
        txs := savepoint;
        return false;
      }
      var plan := plans[planKey];
      var sub := StackSubscription(
        SubOf(db, transaction.category, owner.value), plan.id, TermOf(transaction.category, plan), now);
      db := WithSub(db, transaction.category, owner.value, sub);
      invoices := invoices[number := Invoice(owner.value, transaction.amount, transaction.currency, now)];
      var user := db.users[transaction.userId];
      db := db.(users := db.users[transaction.userId := user.(isPremium := true)]);
      return true;
    }

    /** validatePayment when no other call interleaves; what it throws is the result. */
    method ValidatePayment(tranId: string, valId: string, signatureOk: bool, verdict: Verdict, now: int)
      returns (error: Option<Error>)
      modifies this
      ensures (Tables(), error) == ValidateAlone(old(Tables()), isLive, tranId, valId, signatureOk, verdict, now)
    {
      if tranId !in txs {
        return Some(NotFound);
      }
      var transaction := txs[tranId];
      if transaction.status == VALIDATED {
        return None;
      }
      if !signatureOk && isLive {
        txs := txs[tranId := transaction.(status := FAILED)];
        return Some(BadSignature);
      }
      if verdict.Invalid? {
        txs := txs[tranId := transaction.(status := FAILED)];
        return Some(GatewayInvalid);
      }
      if verdict.amount != transaction.amount || verdict.currency != transaction.currency {
        txs := txs[tranId := transaction.(status := FAILED)];
        return Some(Mismatch);
      }
      var committed := CommitTransaction(tranId, transaction, valId, verdict.riskLevel, now);
      return if committed then None else Some(RolledBack);
    }

    method FailPayment(tranId: string)
      modifies this
      ensures Tables() == SetIfPending(old(Tables()), tranId, FAILED)
      ensures txs.Keys == old(txs.Keys) && invoices == old(invoices) && plans == old(plans) && db == old(db)
      ensures forall t :: t in txs ==>
        var was := old(txs)[t];
        txs[t] == if t == tranId && was.status == PENDING then was.(status := FAILED) else was
    {
      if tranId in txs && txs[tranId].status == PENDING {
        txs := txs[tranId := txs[tranId].(status := FAILED)];
      }
    }

    method CancelPayment(tranId: string)
      modifies this
      ensures Tables() == SetIfPending(old(Tables()), tranId, CANCELLED)
      ensures txs.Keys == old(txs.Keys) && invoices == old(invoices) && plans == old(plans) && db == old(db)
      ensures forall t :: t in txs ==>
        var was := old(txs)[t];
        txs[t] == if t == tranId && was.status == PENDING then was.(status := CANCELLED) else was
    {
      if tranId in txs && txs[tranId].status == PENDING {
        txs := txs[tranId := txs[tranId].(status := CANCELLED)];
      }
    }

    method ExpireStaleTransactions(cutoff: int)
      modifies this
      ensures Tables() == ExpireStale(old(Tables()), cutoff)
      ensures txs.Keys == old(txs.Keys) && invoices == old(invoices) && plans == old(plans) && db == old(db)
      ensures forall t :: t in txs ==>
        var was := old(txs)[t];
        txs[t] == if was.status == PENDING && was.createdAt < cutoff then was.(status := CANCELLED) else was
    {
      txs := map t | t in txs ::
        if txs[t].status == PENDING && txs[t].createdAt < cutoff then txs[t].(status := CANCELLED) else txs[t];
    }

    /** The job's loop over its batch of stale rows. */
    method ReconcileBatch(batch: seq<StaleRow>, computed: string, verdicts: string -> Verdict, now: int)
      modifies this
      ensures Tables() == ReconcileAll(old(Tables()), isLive, batch, computed, verdicts, now)
    {
      for i := 0 to |batch|
        invariant Tables() == ReconcileAll(old(Tables()), isLive, batch[..i], computed, verdicts, now)
      {
        ReconcileAllSnoc(old(Tables()), isLive, batch, i, computed, verdicts, now);
        var tx := batch[i];
        if tx.tranId in txs {
          if tx.sessionKey.None? {
            txs := txs[tx.tranId := txs[tx.tranId].(status := CANCELLED)];
          } else {
            var signatureOk := SignatureValid(JOB_SIGN, JOB_KEY, computed);
            var error := ValidatePayment(tx.tranId, tx.sessionKey.value, signatureOk, verdicts(tx.tranId), now);
            if error == Some(GatewayInvalid) && tx.tranId in txs {
              txs := txs[tx.tranId := txs[tx.tranId].(status := CANCELLED)];
            }
          }
        }
      }
      assert batch[..|batch|] == batch;
    }
  }

  lemma ReconcileAllSnoc(s: Store, isLive: bool, batch: seq<StaleRow>, i: nat, computed: string,
                         verdicts: string -> Verdict,
                         now: int)
    requires i < |batch|
    ensures var t := ReconcileAll(s, isLive, batch[..i], computed, verdicts, now);
      ReconcileAll(s, isLive, batch[..i + 1], computed, verdicts, now)
      == ReconcileOne(t, isLive, batch[i], computed, verdicts(batch[i].tranId), now)
  {
    var longer := batch[..i + 1];
    assert longer[..|longer| - 1] == batch[..i];
    hide ReconcileOne;
  }
}
