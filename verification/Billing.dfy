/**
 The payment ledger (payment.service.ts) and the reconciliation job (payment.reconciliation.job.ts): one transaction
 row a payment, moved by gateway callbacks, sweeps and the job. A validated payment also writes an invoice, stacks a
 subscription and sets the premium flag, in one database transaction.
 */
module Billing {
  import opened Wrappers
  import opened Traces
  import opened Subscriptions
  import opened Accounts
  import opened Calendar

  datatype PaymentStatus = PENDING | VALIDATED | PENDING_REVIEW | FAILED | CANCELLED

  datatype Transaction = Transaction(
    userId: string,
    companyId: Option<string>,
    amount: real,
    currency: string,
    status: PaymentStatus,
    category: Category,
    planId: string,
    valId: Option<string>,
    sessionKey: Option<string>,
    riskLevel: int,
    createdAt: int)

  datatype Invoice = Invoice(owner: string, amount: real, currency: string, paidAt: int)

  datatype PlanKey = PlanKey(name: string, forEmployers: bool)

  datatype Plan = Plan(id: string, durationMonths: Option<real>)

  /** The tables; transactions by tranId and invoices by invoiceNumber, both unique columns. */
  datatype Store = Store(
    txs: map<string, Transaction>,
    invoices: map<string, Invoice>,
    plans: map<PlanKey, Plan>,
    db: Db)

  /** The gateway's answer to a validation query. */
  datatype Verdict = Invalid | Valid(amount: real, currency: string, riskLevel: int)

  datatype Error = NotFound | BadSignature | GatewayInvalid | Mismatch | RolledBack

  function EmployerPlanName(planId: string): string {
    if planId == "emp_starter" then "Starter"
    else if planId == "emp_growth" || planId == "emp_pro" then "Growth"
    else if planId == "emp_business" then "Business"
    else if planId == "emp_enterprise" || planId == "emp_ultimate" then "Enterprise"
    else planId
  }

  function SeekerPlanName(planId: string): string {
    if planId == "cand_starter" then "Starter"
    else if planId == "cand_pro" then "Pro"
    else if planId == "cand_elite" || planId == "cand_job_seeker_max" then "Premium"
    else planId
  }

  function PlanOf(tx: Transaction): PlanKey {
    match tx.category
    case EMPLOYER_PLAN => PlanKey(EmployerPlanName(tx.planId), true)
    case SEEKER_PREMIUM => PlanKey(SeekerPlanName(tx.planId), false)
  }

  function TermOf(category: Category, plan: Plan): Term {
    match category
    case EMPLOYER_PLAN => ThirtyDays
    case SEEKER_PREMIUM => Months(DurationMonths(plan.durationMonths))
  }

  function InvoiceNumber(category: Category, tranId: string): string {
    match category
    case EMPLOYER_PLAN => "INV-" + tranId
    case SEEKER_PREMIUM => "INV-SEEKER-" + tranId
  }

  /** initiatePayment makes every transaction id start like this. */
  predicate IsTranId(tranId: string) { "TXN-" <= tranId }

  lemma FifthCharacter(tranId: string)
    requires IsTranId(tranId)
    ensures ("INV-" + tranId)[4] == 'T' && ("INV-SEEKER-" + tranId)[4] == 'S'
  {
    assert tranId[0] == "TXN-"[0];
  }

  /** Two payments never share an invoice number, whatever their categories. */
  lemma InvoiceNumberInjective(c: Category, s: string, d: Category, t: string)
    requires IsTranId(s) && IsTranId(t) && InvoiceNumber(c, s) == InvoiceNumber(d, t)
    ensures c == d && s == t
  {
    if c == d {
      var n, k := InvoiceNumber(c, s), if c.EMPLOYER_PLAN? then 4 else 11;
      assert s == n[k..] == t;
    }
    FifthCharacter(s);
    FifthCharacter(t);
  }

  /** Another row already carries this valId, a unique column. */
  predicate ValIdTaken(txs: map<string, Transaction>, tranId: string, valId: string) {
    exists t :: t in txs && t != tranId && txs[t].valId == Some(valId)
  }

  /** The company or the user whose subscription a payment extends. */
  function OwnerOf(tx: Transaction): Option<string> {
    match tx.category
    case EMPLOYER_PLAN => tx.companyId
    case SEEKER_PREMIUM => Some(tx.userId)
  }

  /** What a payment allocates needs an owner, a plan, a free invoice number and the paying user. */
  predicate CanGrant(s: Store, tranId: string, tx: Transaction) {
    && OwnerOf(tx).Some?
    && PlanOf(tx) in s.plans
    && InvoiceNumber(tx.category, tranId) !in s.invoices
    && tx.userId in s.db.users
  }

  function Grant(s: Store, tranId: string, tx: Transaction, now: int): Store
    requires CanGrant(s, tranId, tx)
  {
    var owner, plan := OwnerOf(tx).value, s.plans[PlanOf(tx)];
    s.(invoices := s.invoices[InvoiceNumber(tx.category, tranId) := Invoice(owner, tx.amount, tx.currency, now)],
       db := GrantTo(s.db, tx.category, owner, tx.userId, plan.id, TermOf(tx.category, plan), now))
  }

  /** The database transaction of validatePayment, from the row read before the gateway was asked; Err rolls back. */
  function CommitTx(s: Store, tranId: string, read: Transaction, valId: string, riskLevel: int, now: int)
    : Result<Store, Error>
    requires tranId in s.txs
  {
    if s.txs[tranId].status == VALIDATED then Ok(s)
    else if ValIdTaken(s.txs, tranId, valId) then Err(RolledBack)
    else
      var status := if riskLevel == 1 then PENDING_REVIEW else VALIDATED;
      var row := s.txs[tranId].(status := status, valId := Some(valId), riskLevel := riskLevel);
      var t := s.(txs := s.txs[tranId := row]);
      if status == PENDING_REVIEW then Ok(t)
      else if CanGrant(t, tranId, read) then Ok(Grant(t, tranId, read, now))
      else Err(RolledBack)
  }

  function SetStatus(s: Store, tranId: string, status: PaymentStatus): Store
    requires tranId in s.txs
  {
    s.(txs := s.txs[tranId := s.txs[tranId].(status := status)])
  }

  /** failPayment and cancelPayment: they only move a PENDING row. */
  function SetIfPending(s: Store, tranId: string, status: PaymentStatus): Store {
    if tranId in s.txs && s.txs[tranId].status == PENDING then SetStatus(s, tranId, status) else s
  }

  /** expireStaleTransactions. */
  function ExpireStale(s: Store, cutoff: int): Store {
    s.(txs := map t | t in s.txs ::
      if s.txs[t].status == PENDING && s.txs[t].createdAt < cutoff then s.txs[t].(status := CANCELLED) else s.txs[t])
  }

  /** The checks between the gateway's answer and the commit. */
  function Judge(read: Transaction, verdict: Verdict): Option<Error> {
    if verdict.Invalid? then Some(GatewayInvalid)
    else if verdict.amount != read.amount || verdict.currency != read.currency then Some(Mismatch)
    else None
  }

  /* ---- the signature of a callback ---- */

  /** verify_sign as it arrives: missing, a text, or a JavaScript boolean. */
  datatype Sign = NoSign | TextSign(text: string) | FlagSign(flag: bool)

  function LowerDigit(c: char): char { if 'A' <= c <= 'F' then (c as int + 32) as char else c }

  function LowerHex(digest: string): string {
    seq(|digest|, i requires 0 <= i < |digest| => LowerDigit(digest[i]))
  }

  /**
   verifyCallbackSignature; computed is the digest over the listed parameters and the store password. A boolean has no
   toLowerCase, so it throws, and the catch block answers false.
   */
  predicate SignatureValid(sign: Sign, key: string, computed: string) {
    if sign == NoSign || sign == TextSign("") || sign == FlagSign(false) || key == "" then false
    else
      match sign
      case TextSign(text) => LowerHex(computed) == LowerHex(text)
      case _ => false
  }

  /** What the reconciliation job passes as its payload. */
  const JOB_SIGN := FlagSign(true)
  const JOB_KEY := "internal"

  /** Some digest makes a signature valid if and only if it is a nonempty text and names its parameters. */
  lemma SignatureCanBeValidIff(sign: Sign, key: string)
    ensures (exists computed :: SignatureValid(sign, key, computed)) <==> sign.TextSign? && sign.text != "" && key != ""
  {
    if sign.TextSign? && sign.text != "" && key != "" {
      assert SignatureValid(sign, key, sign.text);
    }
  }

  predicate SameHexDigit(c: char, d: char) {
    c == d || ('A' <= c <= 'F' && d as int == c as int + 32) || ('A' <= d <= 'F' && c as int == d as int + 32)
  }

  /** A text signature is the computed digest, digit by digit, in either letter case. */
  lemma SignatureComparesHex(text: string, key: string, computed: string)
    ensures SignatureValid(TextSign(text), key, computed) <==>
      && text != "" && key != "" && |text| == |computed|
      && forall i :: 0 <= i < |text| ==> SameHexDigit(computed[i], text[i])
  {
    hide LowerDigit, SameHexDigit;
    var a, b := LowerHex(computed), LowerHex(text);
    forall i | 0 <= i < |a| && i < |b| ensures a[i] == b[i] <==> SameHexDigit(computed[i], text[i]) {
      HexDigitsAgree(computed[i], text[i]);
    }
    assert a == b <==> |a| == |b| && forall i :: 0 <= i < |a| ==> a[i] == b[i];
  }

  lemma HexDigitsAgree(c: char, d: char)
    ensures LowerDigit(c) == LowerDigit(d) <==> SameHexDigit(c, d)
  {
  }

  /* ---- calls in flight ---- */

  /**
   Where a call stands between two database operations. Listed: the job has the row in its batch; Checked: the row
   has been read and the signature accepted; Judged: the gateway has confirmed; Failing and Cancelling: the status
   write, which does not look at the row again, is still to come.
   */
  datatype Phase =
    | Listed(key: string)
    | Checked(read: Transaction)
    | Judged(read: Transaction, riskLevel: int)
    | Failing(error: Error)
    | Cancelling

  datatype Call = Call(tranId: string, byJob: bool, valId: string, phase: Phase)

  datatype Step =
    | Initiate(tranId: string, tx: Transaction)
    | SaveSession(tranId: string, key: string)
    | Validate(call: nat, tranId: string, valId: string, signatureOk: bool)
    | Answer(call: nat, verdict: Verdict)
    | WriteStatus(call: nat)
    | Commit(call: nat, at: int)
    | Drop(call: nat)
    | FailPayment(tranId: string)
    | CancelPayment(tranId: string)
    | Expire(cutoff: int)
    | List(call: nat, tranId: string, cutoff: int)
    | Reconcile(call: nat, computed: string)

  /** overwrites counts, per transaction, the unconditional status writes that landed on a VALIDATED row. */
  datatype State = State(store: Store, calls: map<nat, Call>, overwrites: map<string, nat>)

  function Overwrites(s: State, tranId: string): nat {
    if tranId in s.overwrites then s.overwrites[tranId] else 0
  }

  /** validatePayment up to the gateway query: what the call does next, if it goes on. */
  function ReadRow(tx: Transaction, signatureOk: bool, isLive: bool): Option<Phase> {
    if tx.status == VALIDATED then None
    else if !signatureOk && isLive then Some(Failing(BadSignature))
    else Some(Checked(tx))
  }

  /** A FAILED or CANCELLED written without looking at the row. */
  function Overwrite(s: State, tranId: string, status: PaymentStatus): State
    requires tranId in s.store.txs
  {
    State(SetStatus(s.store, tranId, status), s.calls,
          if s.store.txs[tranId].status == VALIDATED
          then s.overwrites[tranId := Overwrites(s, tranId) + 1]
          else s.overwrites)
  }

  function Proceed(s: State, id: nat, call: Call, next: Option<Phase>): State {
    s.(calls := if next.Some? then s.calls[id := call.(phase := next.value)] else s.calls - {id})
  }

  /** validatePayment called by a gateway callback. */
  function BeginCall(s: State, isLive: bool, id: nat, tranId: string, valId: string, signatureOk: bool): (t: State)
    ensures t.store == s.store && t.overwrites == s.overwrites
  {
    if id in s.calls || tranId !in s.store.txs then s
    else Proceed(s, id, Call(tranId, false, valId, Cancelling), ReadRow(s.store.txs[tranId], signatureOk, isLive))
  }

  function AnswerCall(s: State, id: nat, verdict: Verdict): (t: State)
    ensures t.store == s.store && t.overwrites == s.overwrites
  {
    if id !in s.calls || !s.calls[id].phase.Checked? then s
    else
      var read, error := s.calls[id].phase.read, Judge(s.calls[id].phase.read, verdict);
      Proceed(s, id, s.calls[id],
        Some(if error.Some? then Failing(error.value) else Judged(read, verdict.riskLevel)))
  }

  function WriteCall(s: State, id: nat): (t: State)
    ensures t.store.invoices == s.store.invoices && t.store.db == s.store.db
  {
    if id !in s.calls || s.calls[id].tranId !in s.store.txs then s
    else
      var call := s.calls[id];
      if call.phase.Failing? then
        // The job's catch block answers the gateway's refusal with a second write.
        Proceed(Overwrite(s, call.tranId, FAILED), id, call,
          if call.byJob && call.phase.error == GatewayInvalid then Some(Cancelling) else None)
      else if call.phase.Cancelling? then
        Proceed(Overwrite(s, call.tranId, CANCELLED), id, call, None)
      else s
  }

  function CommitCall(s: State, id: nat, now: int): State {
    if id !in s.calls || !s.calls[id].phase.Judged? || s.calls[id].tranId !in s.store.txs then s
    else
      var call := s.calls[id];
      var result := CommitTx(s.store, call.tranId, call.phase.read, call.valId, call.phase.riskLevel, now);
      Proceed(s.(store := if result.Ok? then result.value else s.store), id, call, None)
  }

  /** The job takes a stale PENDING row into its batch. */
  function ListRow(s: State, id: nat, tranId: string, cutoff: int): (t: State)
    ensures t.store == s.store && t.overwrites == s.overwrites
  {
    var txs := s.store.txs;
    if id in s.calls || tranId !in txs || txs[tranId].status != PENDING || txs[tranId].createdAt >= cutoff then s
    else
      var key := txs[tranId].sessionKey;
      s.(calls := s.calls[id := Call(tranId, true, if key.Some? then key.value else "",
                                     if key.Some? then Listed(key.value) else Cancelling)])
  }

  /** The job calls validatePayment with its own payload. */
  function ReconcileRow(s: State, isLive: bool, id: nat, computed: string): (t: State)
    ensures t.store == s.store && t.overwrites == s.overwrites
  {
    if id !in s.calls || !s.calls[id].phase.Listed? || s.calls[id].tranId !in s.store.txs then s
    else
      Proceed(s, id, s.calls[id],
        ReadRow(s.store.txs[s.calls[id].tranId], SignatureValid(JOB_SIGN, JOB_KEY, computed), isLive))
  }

  function Apply(s: State, isLive: bool, step: Step): State {
    var txs := s.store.txs;
    match step
    case Initiate(tranId, tx) =>
      if tranId in txs || !IsTranId(tranId) || tx.status != PENDING then s
      else s.(store := s.store.(txs := txs[tranId := tx]))
    case SaveSession(tranId, key) =>
      if tranId !in txs then s
      else s.(store := s.store.(txs := txs[tranId := txs[tranId].(sessionKey := Some(key))]))
    case Validate(id, tranId, valId, signatureOk) => BeginCall(s, isLive, id, tranId, valId, signatureOk)
    case Answer(id, verdict) => AnswerCall(s, id, verdict)
    case WriteStatus(id) => WriteCall(s, id)
    case Commit(id, now) => CommitCall(s, id, now)
    case Drop(id) => s.(calls := s.calls - {id})
    case FailPayment(tranId) => s.(store := SetIfPending(s.store, tranId, FAILED))
    case CancelPayment(tranId) => s.(store := SetIfPending(s.store, tranId, CANCELLED))
    case Expire(cutoff) => s.(store := ExpireStale(s.store, cutoff))
    case List(id, tranId, cutoff) => ListRow(s, id, tranId, cutoff)
    case Reconcile(id, computed) => ReconcileRow(s, isLive, id, computed)
  }

  type Run = Trace<Step>

  function After(run: Run, isLive: bool, s0: State): State {
    if run.Start? then s0 else Apply(After(run.before, isLive, s0), isLive, run.event)
  }

  /** No payment yet: any plans, users and subscriptions. */
  predicate Initial(s: State) {
    s.store.txs == map[] && s.store.invoices == map[] && s.calls == map[] && s.overwrites == map[]
  }

  function NumberOf(s: State, tranId: string): string
    requires tranId in s.store.txs
  {
    InvoiceNumber(s.store.txs[tranId].category, tranId)
  }

  /** The number of invoices of a payment, under either form of number. */
  function InvoicesOf(s: State, tranId: string): nat {
    (if InvoiceNumber(EMPLOYER_PLAN, tranId) in s.store.invoices then 1 else 0)
    + (if InvoiceNumber(SEEKER_PREMIUM, tranId) in s.store.invoices then 1 else 0)
  }

  /* ---- what every step keeps ---- */

  /** What a call remembers of its row is still true of the columns that never change. */
  predicate SameOrder(read: Transaction, tx: Transaction) {
    && read.userId == tx.userId && read.companyId == tx.companyId && read.category == tx.category
    && read.planId == tx.planId && read.amount == tx.amount && read.currency == tx.currency
  }

  predicate CallInv(s: State, call: Call) {
    && call.tranId in s.store.txs
    && (call.phase.Checked? || call.phase.Judged? ==> SameOrder(call.phase.read, s.store.txs[call.tranId]))
  }

  /** The account of one payment. */
  predicate RowInv(s: State, tranId: string)
    requires tranId in s.store.txs
  {
    var tx, number := s.store.txs[tranId], NumberOf(s, tranId);
    && IsTranId(tranId)
    && (number in s.store.invoices <==> tx.status == VALIDATED || Overwrites(s, tranId) > 0)
    && Overwrites(s, tranId) <= (if tx.status == VALIDATED then 0 else 1)
    && (number in s.store.invoices ==>
          s.store.invoices[number].amount == tx.amount && s.store.invoices[number].currency == tx.currency)
  }

  /** Every invoice is some payment's. */
  ghost predicate Owned(s: State) {
    forall n :: n in s.store.invoices ==> exists t :: t in s.store.txs && n == NumberOf(s, t)
  }

  ghost predicate Inv(s: State) {
    && (forall t :: t in s.store.txs ==> RowInv(s, t))
    && (forall id :: id in s.calls ==> CallInv(s, s.calls[id]))
    && Owned(s)
    && (forall t :: t in s.overwrites ==> t in s.store.txs)
  }

  lemma OwnedKept(s: State, t: State)
    requires Owned(s)
    requires forall u :: u in s.store.txs ==> u in t.store.txs && NumberOf(t, u) == NumberOf(s, u)
    requires forall n | n in t.store.invoices && n !in s.store.invoices
      :: exists u :: u in t.store.txs && n == NumberOf(t, u)
    ensures Owned(t)
  {
    hide InvoiceNumber;
    forall n | n in t.store.invoices ensures exists u :: u in t.store.txs && n == NumberOf(t, u) {
      if n in s.store.invoices {
        var u :| u in s.store.txs && n == NumberOf(s, u);
        assert n == NumberOf(t, u);
      }
    }
  }

  lemma InvOfCall(s: State, id: nat)
    requires Inv(s) && id in s.calls
    ensures CallInv(s, s.calls[id])
  {
  }

  lemma NumbersDiffer(s: State, u: string, v: string)
    requires Inv(s) && u in s.store.txs && v in s.store.txs && u != v
    ensures NumberOf(s, u) != NumberOf(s, v)
  {
    assert RowInv(s, u) && RowInv(s, v);
    hide InvoiceNumber;
    if NumberOf(s, u) == NumberOf(s, v) {
      InvoiceNumberInjective(s.store.txs[u].category, u, s.store.txs[v].category, v);
    }
  }

  /** A row moves between states other than VALIDATED, or keeps its status; nothing else of the account changes. */
  lemma RowMoves(s: State, tranId: string, row: Transaction)
    requires Inv(s) && tranId in s.store.txs
    requires SameOrder(s.store.txs[tranId], row)
    requires s.store.txs[tranId].status == VALIDATED <==> row.status == VALIDATED
    ensures Inv(s.(store := s.store.(txs := s.store.txs[tranId := row])))
  {
    var t := s.(store := s.store.(txs := s.store.txs[tranId := row]));
    hide InvoiceNumber, IsTranId;
    forall u | u in t.store.txs ensures RowInv(t, u) && NumberOf(t, u) == NumberOf(s, u) {
      assert RowInv(s, u);
    }
    OwnedKept(s, t);
  }

  lemma OverwriteRow(s: State, tranId: string, status: PaymentStatus, u: string)
    requires tranId in s.store.txs && s.store.txs[tranId].status == VALIDATED && status != VALIDATED
    requires u in s.store.txs && RowInv(s, u) && RowInv(s, tranId)
    ensures RowInv(Overwrite(s, tranId, status), u) && NumberOf(Overwrite(s, tranId, status), u) == NumberOf(s, u)
  {
    hide InvoiceNumber, IsTranId;
  }

  lemma OverwriteKeepsInv(s: State, tranId: string, status: PaymentStatus)
    requires Inv(s) && tranId in s.store.txs && status != VALIDATED
    ensures Inv(Overwrite(s, tranId, status))
  {
    var t := Overwrite(s, tranId, status);
    if s.store.txs[tranId].status != VALIDATED {
      RowMoves(s, tranId, s.store.txs[tranId].(status := status));
    } else {
      hide InvoiceNumber, IsTranId, RowInv;
      forall u | u in t.store.txs ensures RowInv(t, u) && NumberOf(t, u) == NumberOf(s, u) {
        assert RowInv(s, u);
        OverwriteRow(s, tranId, status, u);
      }
      OwnedKept(s, t);
      hide Owned, NumberOf;
    }
  }

  lemma InitiateKeepsInv(s: State, tranId: string, tx: Transaction)
    requires Inv(s) && tranId !in s.store.txs && IsTranId(tranId) && tx.status == PENDING
    ensures Inv(s.(store := s.store.(txs := s.store.txs[tranId := tx])))
  {
    var t := s.(store := s.store.(txs := s.store.txs[tranId := tx]));
    forall u | u in t.store.txs ensures RowInv(t, u) {
      if u in s.store.txs {
        assert RowInv(s, u);
        assert NumberOf(t, u) == NumberOf(s, u);
      } else if NumberOf(t, u) in t.store.invoices {
        var v :| v in s.store.txs && NumberOf(t, u) == NumberOf(s, v);
        assert RowInv(s, v);
        InvoiceNumberInjective(t.store.txs[u].category, u, s.store.txs[v].category, v);
      }
    }
    hide InvoiceNumber, IsTranId;
    forall n | n in t.store.invoices ensures exists u :: u in t.store.txs && n == NumberOf(t, u) {
      var u :| u in s.store.txs && n == NumberOf(s, u);
      assert n == NumberOf(t, u);
    }
  }

  lemma GrantWrites(s: Store, tranId: string, tx: Transaction, now: int)
    requires CanGrant(s, tranId, tx)
    ensures Grant(s, tranId, tx, now).txs == s.txs
    ensures Grant(s, tranId, tx, now).invoices
         == s.invoices[InvoiceNumber(tx.category, tranId) := Invoice(OwnerOf(tx).value, tx.amount, tx.currency, now)]
    ensures InvoiceNumber(tx.category, tranId) !in s.invoices
  {
    hide GrantTo, TermOf, PlanOf, InvoiceNumber;
  }

  /** The state after the commit that grants. */
  function Validated(s: State, tranId: string, read: Transaction, row: Transaction, now: int): State
    requires CanGrant(s.store.(txs := s.store.txs[tranId := row]), tranId, read)
  {
    s.(store := Grant(s.store.(txs := s.store.txs[tranId := row]), tranId, read, now))
  }

  lemma ValidatedWrites(s: State, tranId: string, read: Transaction, row: Transaction, now: int)
    requires tranId in s.store.txs && SameOrder(read, s.store.txs[tranId])
    requires CanGrant(s.store.(txs := s.store.txs[tranId := row]), tranId, read)
    ensures var t, number := Validated(s, tranId, read, row, now), NumberOf(s, tranId);
      && t.calls == s.calls && t.overwrites == s.overwrites
      && t.store.txs == s.store.txs[tranId := row]
      && t.store.invoices == s.store.invoices[number := Invoice(OwnerOf(read).value, read.amount, read.currency, now)]
      && number !in s.store.invoices
  {
    GrantWrites(s.store.(txs := s.store.txs[tranId := row]), tranId, read, now);
    hide Grant, CanGrant, InvoiceNumber;
  }

  lemma ValidatedRow(s: State, tranId: string, read: Transaction, row: Transaction, now: int, u: string)
    requires Inv(s) && tranId in s.store.txs && u in s.store.txs
    requires SameOrder(read, s.store.txs[tranId]) && SameOrder(s.store.txs[tranId], row)
    requires s.store.txs[tranId].status != VALIDATED && row.status == VALIDATED
    requires CanGrant(s.store.(txs := s.store.txs[tranId := row]), tranId, read)
    ensures var t := Validated(s, tranId, read, row, now);
      u in t.store.txs && RowInv(t, u) && NumberOf(t, u) == NumberOf(s, u)
  {
    ValidatedWrites(s, tranId, read, row, now);
    assert RowInv(s, tranId) && RowInv(s, u);
    if u != tranId {
      NumbersDiffer(s, u, tranId);
    }
    hide Validated, CanGrant, InvoiceNumber, IsTranId, Inv;
  }

  /** The commit that grants: the row becomes VALIDATED and the invoice is new. */
  lemma GrantKeepsInv(s: State, tranId: string, read: Transaction, row: Transaction, now: int)
    requires Inv(s) && tranId in s.store.txs
    requires SameOrder(read, s.store.txs[tranId]) && SameOrder(s.store.txs[tranId], row)
    requires s.store.txs[tranId].status != VALIDATED && row.status == VALIDATED
    requires CanGrant(s.store.(txs := s.store.txs[tranId := row]), tranId, read)
    ensures Inv(Validated(s, tranId, read, row, now))
  {
    hide Validated, CanGrant, InvoiceNumber, RowInv, NumberOf, Owned, CallInv;
    var t := Validated(s, tranId, read, row, now);
    ValidatedWrites(s, tranId, read, row, now);
    forall u | u in t.store.txs ensures RowInv(t, u) && NumberOf(t, u) == NumberOf(s, u) {
      ValidatedRow(s, tranId, read, row, now, u);
    }
    assert NumberOf(t, tranId) == NumberOf(s, tranId);
    OwnedKept(s, t);
    forall id | id in t.calls ensures CallInv(t, t.calls[id]) {
      InvOfCall(s, id);
      CallKept(s, t, t.calls[id], tranId, row);
    }
  }

  lemma CallKept(s: State, t: State, call: Call, tranId: string, row: Transaction)
    requires CallInv(s, call) && tranId in s.store.txs
    requires t.store.txs == s.store.txs[tranId := row] && SameOrder(s.store.txs[tranId], row)
    ensures CallInv(t, call)
  {
  }

  lemma CommitKeepsInv(s: State, tranId: string, read: Transaction, valId: string, riskLevel: int, now: int)
    requires Inv(s) && tranId in s.store.txs && SameOrder(read, s.store.txs[tranId])
    ensures var r := CommitTx(s.store, tranId, read, valId, riskLevel, now);
      r.Ok? ==> Inv(s.(store := r.value))
  {
    var r := CommitTx(s.store, tranId, read, valId, riskLevel, now);
    if r.Ok? && s.store.txs[tranId].status != VALIDATED {
      var status := if riskLevel == 1 then PENDING_REVIEW else VALIDATED;
      var row := s.store.txs[tranId].(status := status, valId := Some(valId), riskLevel := riskLevel);
      if riskLevel == 1 {
        RowMoves(s, tranId, row);
      } else {
        GrantKeepsInv(s, tranId, read, row, now);
      }
    }
    hide Grant, CanGrant, Inv;
  }

  lemma ExpireKeepsInv(s: State, cutoff: int)
    requires Inv(s)
    ensures Inv(s.(store := ExpireStale(s.store, cutoff)))
  {
    var t := s.(store := ExpireStale(s.store, cutoff));
    hide InvoiceNumber, IsTranId;
    forall u | u in t.store.txs ensures RowInv(t, u) && NumberOf(t, u) == NumberOf(s, u) {
      assert RowInv(s, u);
    }
    OwnedKept(s, t);
    forall id | id in t.calls ensures CallInv(t, t.calls[id]) {
      assert CallInv(s, s.calls[id]);
    }
  }

  /** Changing calls alone. */
  lemma ProceedKeepsInv(s: State, id: nat, call: Call, next: Option<Phase>)
    requires Inv(s)
    requires next.Some? ==> CallInv(s, call.(phase := next.value))
    ensures Inv(Proceed(s, id, call, next))
  {
    var t := Proceed(s, id, call, next);
    forall u | u in t.store.txs ensures RowInv(t, u) {
      assert RowInv(s, u);
    }
    forall n | n in t.store.invoices ensures exists u :: u in t.store.txs && n == NumberOf(t, u) {
      var u :| u in s.store.txs && n == NumberOf(s, u);
      assert n == NumberOf(t, u);
    }
  }

  lemma StepKeepsInv(s: State, isLive: bool, step: Step)
    requires Inv(s)
    ensures Inv(Apply(s, isLive, step))
  {
    hide Inv, RowInv, CommitTx, ExpireStale, InvoiceNumber, IsTranId;
    match step
    case Initiate(tranId, tx) =>
      if tranId !in s.store.txs && IsTranId(tranId) && tx.status == PENDING {
        InitiateKeepsInv(s, tranId, tx);
      }
    case SaveSession(tranId, key) =>
      if tranId in s.store.txs {
        RowMoves(s, tranId, s.store.txs[tranId].(sessionKey := Some(key)));
      }
    case Validate(id, tranId, valId, signatureOk) =>
      if id !in s.calls && tranId in s.store.txs {
        ProceedKeepsInv(s, id, Call(tranId, false, valId, Cancelling),
          ReadRow(s.store.txs[tranId], signatureOk, isLive));
      }
    case Answer(id, verdict) =>
      if id in s.calls && s.calls[id].phase.Checked? {
        var read, error := s.calls[id].phase.read, Judge(s.calls[id].phase.read, verdict);
        InvOfCall(s, id);
        ProceedKeepsInv(s, id, s.calls[id],
          Some(if error.Some? then Failing(error.value) else Judged(read, verdict.riskLevel)));
      }
    case WriteStatus(id) =>
      if id in s.calls {
        var call := s.calls[id];
        InvOfCall(s, id);
        if call.phase.Failing? {
          OverwriteKeepsInv(s, call.tranId, FAILED);
          ProceedKeepsInv(Overwrite(s, call.tranId, FAILED), id, call,
            if call.byJob && call.phase.error == GatewayInvalid then Some(Cancelling) else None);
        } else if call.phase.Cancelling? {
          OverwriteKeepsInv(s, call.tranId, CANCELLED);
          ProceedKeepsInv(Overwrite(s, call.tranId, CANCELLED), id, call, None);
        }
      }
    case Commit(id, now) =>
      if id in s.calls && s.calls[id].phase.Judged? {
        var call := s.calls[id];
        InvOfCall(s, id);
        CommitKeepsInv(s, call.tranId, call.phase.read, call.valId, call.phase.riskLevel, now);
        var result := CommitTx(s.store, call.tranId, call.phase.read, call.valId, call.phase.riskLevel, now);
        ProceedKeepsInv(s.(store := if result.Ok? then result.value else s.store), id, call, None);
      }
    case Drop(id) =>
      if id in s.calls {
        ProceedKeepsInv(s, id, s.calls[id], None);
      } else {
        assert s.calls - {id} == s.calls;
      }
    case FailPayment(tranId) =>
      if tranId in s.store.txs && s.store.txs[tranId].status == PENDING {
        RowMoves(s, tranId, s.store.txs[tranId].(status := FAILED));
      }
    case CancelPayment(tranId) =>
      if tranId in s.store.txs && s.store.txs[tranId].status == PENDING {
        RowMoves(s, tranId, s.store.txs[tranId].(status := CANCELLED));
      }
    case Expire(cutoff) => ExpireKeepsInv(s, cutoff);
    case List(id, tranId, cutoff) =>
      if id !in s.calls && tranId in s.store.txs {
        var key := s.store.txs[tranId].sessionKey;
        var phase := if key.Some? then Listed(key.value) else Cancelling;
        ProceedKeepsInv(s, id, Call(tranId, true, if key.Some? then key.value else "", phase), Some(phase));
      }
    case Reconcile(id, computed) =>
      if id in s.calls && s.calls[id].phase.Listed? {
        InvOfCall(s, id);
        ProceedKeepsInv(s, id, s.calls[id],
          ReadRow(s.store.txs[s.calls[id].tranId], SignatureValid(JOB_SIGN, JOB_KEY, computed), isLive));
      }
  }

  lemma {:induction false} ReachableInv(run: Run, isLive: bool, s0: State)
    requires Initial(s0)
    ensures Inv(After(run, isLive, s0))
  {
    if run.Then? {
      ReachableInv(run.before, isLive, s0);
      StepKeepsInv(After(run.before, isLive, s0), isLive, run.event);
    }
  }

  /* ---- the main results ---- */

  lemma CountIsPresence(s: State, tranId: string)
    requires Inv(s) && tranId in s.store.txs
    ensures InvoicesOf(s, tranId) == if NumberOf(s, tranId) in s.store.invoices then 1 else 0
  {
    assert RowInv(s, tranId);
    var other := if s.store.txs[tranId].category == EMPLOYER_PLAN then SEEKER_PREMIUM else EMPLOYER_PLAN;
    hide InvoiceNumber;
    if InvoiceNumber(other, tranId) in s.store.invoices {
      var t :| t in s.store.txs && InvoiceNumber(other, tranId) == NumberOf(s, t);
      assert RowInv(s, t);
      InvoiceNumberInjective(other, tranId, s.store.txs[t].category, t);
    }
  }

  /**
   Over every interleaving of calls, callbacks, sweeps and job runs, a payment has one invoice if its row is VALIDATED
   plus one for every unconditional status write that hit it while VALIDATED.
   */
  lemma {:induction false} InvoicesAccountForValidations(run: Run, isLive: bool, s0: State, tranId: string)
    requires Initial(s0) && tranId in After(run, isLive, s0).store.txs
    ensures var s := After(run, isLive, s0);
      InvoicesOf(s, tranId) == (if s.store.txs[tranId].status == VALIDATED then 1 else 0) + Overwrites(s, tranId)
  {
    ReachableInv(run, isLive, s0);
    CountIsPresence(After(run, isLive, s0), tranId);
    assert RowInv(After(run, isLive, s0), tranId);
    hide InvoiceNumber, Inv;
  }

  /** It never has two invoices, so it is overwritten at most once; the one it has carries its amount and currency. */
  lemma {:induction false} OneInvoiceOfItsAmount(run: Run, isLive: bool, s0: State, tranId: string)
    requires Initial(s0) && tranId in After(run, isLive, s0).store.txs
    ensures var s := After(run, isLive, s0);
      && InvoicesOf(s, tranId) <= 1
      && (InvoicesOf(s, tranId) == 1 ==>
            NumberOf(s, tranId) in s.store.invoices
            && s.store.invoices[NumberOf(s, tranId)].amount == s.store.txs[tranId].amount
            && s.store.invoices[NumberOf(s, tranId)].currency == s.store.txs[tranId].currency)
  {
    ReachableInv(run, isLive, s0);
    CountIsPresence(After(run, isLive, s0), tranId);
    assert RowInv(After(run, isLive, s0), tranId);
    hide InvoiceNumber, Inv;
  }

  /* ---- the gateway's word ---- */

  /** With this step the gateway confirms, at low risk, the row's own amount and currency to a call on the payment. */
  predicate Confirms(s: State, step: Step, tranId: string) {
    && step.Answer? && step.call in s.calls && s.calls[step.call].tranId == tranId && s.calls[step.call].phase.Checked?
    && tranId in s.store.txs
    && step.verdict.Valid? && step.verdict.riskLevel != 1
    && step.verdict.amount == s.store.txs[tranId].amount && step.verdict.currency == s.store.txs[tranId].currency
  }

  predicate WasConfirmed(run: Run, isLive: bool, s0: State, tranId: string) {
    run.Then? &&
    (Confirms(After(run.before, isLive, s0), run.event, tranId) || WasConfirmed(run.before, isLive, s0, tranId))
  }

  predicate AboutToGrant(call: Call, tranId: string) {
    call.tranId == tranId && call.phase.Judged? && call.phase.riskLevel != 1
  }

  /** A call gets ready to grant only by such a step, and a row becomes VALIDATED only by such a call. */
  lemma OnlyConfirmedGrant(s: State, isLive: bool, step: Step, tranId: string)
    requires Inv(s)
    ensures var t := Apply(s, isLive, step);
      && (forall id :: id in t.calls && AboutToGrant(t.calls[id], tranId) ==>
            Confirms(s, step, tranId) || (id in s.calls && AboutToGrant(s.calls[id], tranId)))
      && (IsValidated(t, tranId) ==>
            IsValidated(s, tranId) || exists id :: id in s.calls && AboutToGrant(s.calls[id], tranId))
  {
    hide CommitTx, IsTranId, SignatureValid, RowInv, Owned;
    if step.Commit? {
      GrantingCommit(s, step.call, step.at, tranId);
    } else if step.Answer? && step.call in s.calls {
      assert CallInv(s, s.calls[step.call]);
    }
  }

  lemma GrantingCommit(s: State, id: nat, now: int, tranId: string)
    ensures IsValidated(CommitCall(s, id, now), tranId) ==>
      IsValidated(s, tranId) || (id in s.calls && AboutToGrant(s.calls[id], tranId))
  {
    if id in s.calls && s.calls[id].phase.Judged? && s.calls[id].tranId in s.store.txs {
      var call := s.calls[id];
      CommitValidates(s.store, call.tranId, call.phase.read, call.valId, call.phase.riskLevel, now, tranId);
    }
    hide CommitTx;
  }

  lemma CommitValidates(s: Store, tranId: string, read: Transaction, valId: string, riskLevel: int, now: int,
                        other: string)
    requires tranId in s.txs
    ensures var r := CommitTx(s, tranId, read, valId, riskLevel, now);
      r.Ok? && other in r.value.txs && r.value.txs[other].status == VALIDATED ==>
        other in s.txs && (s.txs[other].status == VALIDATED || (other == tranId && riskLevel != 1))
  {
    hide GrantTo, TermOf, PlanOf, InvoiceNumber, ValIdTaken;
  }

  lemma {:induction false} GrantsWereConfirmed(run: Run, isLive: bool, s0: State, tranId: string)
    requires Initial(s0)
    ensures var s := After(run, isLive, s0);
      (exists id :: id in s.calls && AboutToGrant(s.calls[id], tranId)) || IsValidated(s, tranId) ==>
        WasConfirmed(run, isLive, s0, tranId)
  {
    hide Apply, Confirms, AboutToGrant;
    if run.Then? {
      GrantsWereConfirmed(run.before, isLive, s0, tranId);
      ReachableInv(run.before, isLive, s0);
      OnlyConfirmedGrant(After(run.before, isLive, s0), isLive, run.event, tranId);
    }
  }

  /** In every interleaving a payment is VALIDATED only if the gateway has confirmed its own amount and currency. */
  lemma {:induction false} ValidatedWasConfirmed(run: Run, isLive: bool, s0: State, tranId: string)
    requires Initial(s0) && IsValidated(After(run, isLive, s0), tranId)
    ensures WasConfirmed(run, isLive, s0, tranId)
  {
    GrantsWereConfirmed(run, isLive, s0, tranId);
    hide After, Initial;
  }

  predicate IsPrefix(p: Run, run: Run) {
    p == run || (run.Then? && IsPrefix(p, run.before))
  }

  lemma WriteOnRow(s: State, id: nat, tranId: string)
    requires tranId in s.store.txs
    ensures var t := WriteCall(s, id);
      && tranId in t.store.txs
      && SameOrder(s.store.txs[tranId], t.store.txs[tranId])
      && Overwrites(s, tranId) <= Overwrites(t, tranId)
      && (s.store.txs[tranId].status == VALIDATED && t.store.txs[tranId].status != VALIDATED ==>
            Overwrites(t, tranId) == Overwrites(s, tranId) + 1)
  {
  }

  /**
   Rows stay, with their owner, category, plan, amount and currency, and VALIDATED is left only by an unconditional
   write, which is counted.
   */
  lemma StepOnRow(s: State, isLive: bool, step: Step, tranId: string)
    requires tranId in s.store.txs
    ensures var t := Apply(s, isLive, step);
      && tranId in t.store.txs
      && SameOrder(s.store.txs[tranId], t.store.txs[tranId])
      && Overwrites(s, tranId) <= Overwrites(t, tranId)
      && (s.store.txs[tranId].status == VALIDATED && t.store.txs[tranId].status != VALIDATED ==>
            Overwrites(t, tranId) == Overwrites(s, tranId) + 1)
  {
    hide CommitTx, BeginCall, AnswerCall, ListRow, ReconcileRow, WriteCall, IsTranId;
    if step.WriteStatus? {
      WriteOnRow(s, step.call, tranId);
    } else if step.Commit? && step.call in s.calls && s.calls[step.call].phase.Judged? {
      var call := s.calls[step.call];
      if call.tranId in s.store.txs {
        CommitFrame(s.store, call.tranId, call.phase.read, call.valId, call.phase.riskLevel, step.at, tranId);
      }
    }
  }

  lemma CommitFrame(s: Store, tranId: string, read: Transaction, valId: string, riskLevel: int, now: int, other: string)
    requires tranId in s.txs && other in s.txs
    ensures var r := CommitTx(s, tranId, read, valId, riskLevel, now);
      r.Ok? ==>
        && other in r.value.txs
        && SameOrder(s.txs[other], r.value.txs[other])
        && (other != tranId || s.txs[other].status == VALIDATED ==> r.value.txs[other] == s.txs[other])
  {
    hide GrantTo, TermOf, PlanOf, InvoiceNumber, ValIdTaken;
  }

  lemma {:induction false} RowPersists(p: Run, run: Run, isLive: bool, s0: State, tranId: string)
    requires IsPrefix(p, run) && tranId in After(p, isLive, s0).store.txs
    ensures tranId in After(run, isLive, s0).store.txs
    ensures Overwrites(After(p, isLive, s0), tranId) <= Overwrites(After(run, isLive, s0), tranId)
    ensures After(p, isLive, s0).store.txs[tranId].status == VALIDATED
            && Overwrites(After(run, isLive, s0), tranId) == Overwrites(After(p, isLive, s0), tranId) ==>
              After(run, isLive, s0).store.txs[tranId].status == VALIDATED
  {
    if p != run {
      RowPersists(p, run.before, isLive, s0, tranId);
      StepOnRow(After(run.before, isLive, s0), isLive, run.event, tranId);
      hide Apply;
    }
  }

  /** A paid row that was once overwritten is never VALIDATED again, whatever happens later, and keeps its invoice. */
  lemma {:induction false} OverwrittenForGood(p: Run, run: Run, isLive: bool, s0: State, tranId: string)
    requires Initial(s0) && IsPrefix(p, run) && tranId in After(p, isLive, s0).store.txs
    requires Overwrites(After(p, isLive, s0), tranId) > 0
    ensures tranId in After(run, isLive, s0).store.txs
    ensures After(run, isLive, s0).store.txs[tranId].status != VALIDATED
    ensures InvoicesOf(After(run, isLive, s0), tranId) == 1
  {
    RowPersists(p, run, isLive, s0, tranId);
    InvoicesAccountForValidations(run, isLive, s0, tranId);
    OneInvoiceOfItsAmount(run, isLive, s0, tranId);
    hide After, InvoicesOf, Initial;
  }

  /* ---- calls that do not overlap ---- */

  predicate AtMostOneCall(s: State, tranId: string) {
    forall i, j :: i in s.calls && j in s.calls && s.calls[i].tranId == tranId == s.calls[j].tranId ==> i == j
  }

  /** Two calls on the payment are never in flight together. */
  predicate SerialOn(run: Run, isLive: bool, s0: State, tranId: string) {
    AtMostOneCall(After(run, isLive, s0), tranId) && (run.Then? ==> SerialOn(run.before, isLive, s0, tranId))
  }

  /** A call in flight sees a row that is not VALIDATED, so nothing has been overwritten. */
  predicate SerialInv(s: State, tranId: string) {
    && Overwrites(s, tranId) == 0
    && (forall id :: id in s.calls && s.calls[id].tranId == tranId ==>
          tranId in s.store.txs && s.store.txs[tranId].status != VALIDATED)
  }

  lemma CommitOther(s: Store, tranId: string, read: Transaction, valId: string, riskLevel: int, now: int)
    requires tranId in s.txs
    ensures var r := CommitTx(s, tranId, read, valId, riskLevel, now);
      r.Ok? ==> r.value.txs.Keys == s.txs.Keys && forall t :: t in s.txs && t != tranId ==> r.value.txs[t] == s.txs[t]
  {
    hide GrantTo, TermOf, PlanOf, InvoiceNumber, ValIdTaken;
  }

  lemma SerialCommit(s: State, id: nat, now: int, tranId: string)
    requires AtMostOneCall(s, tranId) && SerialInv(s, tranId)
    ensures SerialInv(CommitCall(s, id, now), tranId)
  {
    if id in s.calls && s.calls[id].phase.Judged? && s.calls[id].tranId in s.store.txs {
      var call := s.calls[id];
      CommitOther(s.store, call.tranId, call.phase.read, call.valId, call.phase.riskLevel, now);
    }
    hide CommitTx;
  }

  lemma SerialWrite(s: State, id: nat, tranId: string)
    requires SerialInv(s, tranId)
    ensures SerialInv(WriteCall(s, id), tranId)
  {
  }

  lemma SerialStep(s: State, isLive: bool, step: Step, tranId: string)
    requires AtMostOneCall(s, tranId) && SerialInv(s, tranId)
    ensures SerialInv(Apply(s, isLive, step), tranId)
  {
    if step.Commit? {
      SerialCommit(s, step.call, step.at, tranId);
    } else if step.WriteStatus? {
      SerialWrite(s, step.call, tranId);
    }
    hide CommitCall, WriteCall, Judge, IsTranId;
  }

  lemma {:induction false} SerialRun(run: Run, isLive: bool, s0: State, tranId: string)
    requires Initial(s0) && SerialOn(run, isLive, s0, tranId)
    ensures SerialInv(After(run, isLive, s0), tranId)
  {
    if run.Then? {
      SerialRun(run.before, isLive, s0, tranId);
      SerialStep(After(run.before, isLive, s0), isLive, run.event, tranId);
      hide Apply;
    }
  }

  /**
   When the calls on a payment do not overlap, it is invoiced exactly once, namely when its row is VALIDATED, and
   VALIDATED is final; conditional callbacks and stale sweeps may run at any moment in between.
   */
  lemma {:induction false} ExactlyOnceWithoutOverlap(p: Run, run: Run, isLive: bool, s0: State, tranId: string)
    requires Initial(s0) && SerialOn(run, isLive, s0, tranId)
    requires IsPrefix(p, run) && tranId in After(p, isLive, s0).store.txs
    ensures tranId in After(run, isLive, s0).store.txs
    ensures InvoicesOf(After(run, isLive, s0), tranId)
         == if After(run, isLive, s0).store.txs[tranId].status == VALIDATED then 1 else 0
    ensures After(p, isLive, s0).store.txs[tranId].status == VALIDATED ==>
              After(run, isLive, s0).store.txs[tranId].status == VALIDATED
  {
    SerialRun(run, isLive, s0, tranId);
    RowPersists(p, run, isLive, s0, tranId);
    InvoicesAccountForValidations(run, isLive, s0, tranId);
  }

  predicate IsHarmless(phase: Phase) { phase.Listed? || phase.Judged? }

  /** No call in flight on the payment can still write a status: each is yet to read the row, or about to commit. */
  predicate Settled(s: State, tranId: string) {
    forall id :: id in s.calls && s.calls[id].tranId == tranId ==> IsHarmless(s.calls[id].phase)
  }

  predicate IsValidated(s: State, tranId: string) {
    tranId in s.store.txs && s.store.txs[tranId].status == VALIDATED
  }

  lemma SettledCommit(s: State, id: nat, now: int, tranId: string)
    requires IsValidated(s, tranId) && Settled(s, tranId)
    ensures IsValidated(CommitCall(s, id, now), tranId) && Settled(CommitCall(s, id, now), tranId)
  {
    if id in s.calls && s.calls[id].phase.Judged? && s.calls[id].tranId in s.store.txs {
      var call := s.calls[id];
      CommitFrame(s.store, call.tranId, call.phase.read, call.valId, call.phase.riskLevel, now, tranId);
    }
    hide CommitTx;
  }

  lemma SettledStep(s: State, isLive: bool, step: Step, tranId: string)
    requires IsValidated(s, tranId) && Settled(s, tranId)
    ensures IsValidated(Apply(s, isLive, step), tranId) && Settled(Apply(s, isLive, step), tranId)
  {
    hide CommitCall, Judge, IsTranId, SignatureValid;
    if step.Commit? {
      SettledCommit(s, step.call, step.at, tranId);
    }
  }

  lemma {:induction false} SettledRun(run: Run, isLive: bool, s: State, tranId: string)
    requires IsValidated(s, tranId) && Settled(s, tranId)
    ensures IsValidated(After(run, isLive, s), tranId) && Settled(After(run, isLive, s), tranId)
  {
    hide Apply, IsValidated, Settled;
    if run.Then? {
      SettledRun(run.before, isLive, s, tranId);
      SettledStep(After(run.before, isLive, s), isLive, run.event, tranId);
    }
  }

  /** A call that has read the row, or that is about to write a status, has a run that undoes VALIDATED. */
  lemma UnsettledOverwrites(s: State, isLive: bool, id: nat, tranId: string) returns (run: Run)
    requires IsValidated(s, tranId) && id in s.calls && s.calls[id].tranId == tranId
    requires !IsHarmless(s.calls[id].phase)
    ensures !IsValidated(After(run, isLive, s), tranId)
  {
    hide CommitCall, SignatureValid;
    run := Start;
    if s.calls[id].phase.Checked? {
      run := Then(run, Answer(id, Invalid));
      assert After(run, isLive, s) == AnswerCall(s, id, Invalid);
    }
    var t := After(run, isLive, s);
    run := Then(run, WriteStatus(id));
    assert After(run, isLive, s) == WriteCall(t, id);
  }

  /**
   When VALIDATED is final: from any state with a VALIDATED row, every continuation keeps it if and only if no call in
   flight on the payment has read the row without a verdict or is about to write FAILED or CANCELLED.
   */
  lemma {:induction false} ValidatedIsFinalIff(s: State, isLive: bool, tranId: string)
    requires IsValidated(s, tranId)
    ensures (forall run: Run :: IsValidated(After(run, isLive, s), tranId)) <==> Settled(s, tranId)
  {
    hide After, IsValidated;
    if Settled(s, tranId) {
      forall run: Run ensures IsValidated(After(run, isLive, s), tranId) {
        SettledRun(run, isLive, s, tranId);
      }
    } else {
      var id :| id in s.calls && s.calls[id].tranId == tranId && !IsHarmless(s.calls[id].phase);
      var run := UnsettledOverwrites(s, isLive, id, tranId);
    }
  }

  /**
   With overlap it can go wrong on any payment that could be granted: a call that reads the row before another one
   commits, and is refused by the gateway, leaves a paid and invoiced payment FAILED.
   */
  lemma OverlapOverwrites(s: State, isLive: bool, i: nat, j: nat, tranId: string, v: string, w: string, now: int)
    requires i != j && i !in s.calls && j !in s.calls
    requires tranId in s.store.txs && s.store.txs[tranId].status == PENDING
    requires CanGrant(s.store, tranId, s.store.txs[tranId]) && !ValIdTaken(s.store.txs, tranId, v)
    ensures var tx := s.store.txs[tranId];
      var read := Apply(Apply(s, isLive, Validate(i, tranId, v, true)), isLive, Validate(j, tranId, w, true));
      var judged := Apply(Apply(read, isLive, Answer(i, Valid(tx.amount, tx.currency, 0))), isLive, Answer(j, Invalid));
      var paid := Apply(judged, isLive, Commit(i, now));
      var end := Apply(paid, isLive, WriteStatus(j));
      && tranId in paid.store.txs && paid.store.txs[tranId].status == VALIDATED
      && tranId in end.store.txs && end.store.txs[tranId].status == FAILED
      && NumberOf(end, tranId) in end.store.invoices
      && Overwrites(end, tranId) == Overwrites(s, tranId) + 1
  {
    var tx := s.store.txs[tranId];
    hide CommitTx, CanGrant, InvoiceNumber, ValIdTaken, IsTranId, BeginCall, AnswerCall, ListRow, ReconcileRow, Judge;
    CommitGrants(s.store, tranId, v, now);
    var first := Call(tranId, false, v, Checked(tx));
    var second := Call(tranId, false, w, Checked(tx));
    BothRead(s, isLive, i, j, tranId, v, w);
    BothJudged(s, isLive, i, j, first, second, tx);
    hide Apply;
    var calls := s.calls[i := first.(phase := Judged(tx, 0))][j := second.(phase := Failing(GatewayInvalid))];
    var judged := s.(calls := calls);
    PaidThenFailed(judged, isLive, i, j, now);
  }

  lemma PaidThenFailed(s: State, isLive: bool, i: nat, j: nat, now: int)
    requires i != j && i in s.calls && j in s.calls && s.calls[i].tranId == s.calls[j].tranId
    requires s.calls[i].tranId in s.store.txs
    requires s.calls[i].phase == Judged(s.store.txs[s.calls[i].tranId], 0)
    requires s.calls[j].phase == Failing(GatewayInvalid) && !s.calls[j].byJob
    requires var tranId := s.calls[i].tranId; var tx := s.store.txs[tranId];
      var r := CommitTx(s.store, tranId, tx, s.calls[i].valId, 0, now);
      && r.Ok? && tranId in r.value.txs && r.value.txs[tranId].status == VALIDATED
      && r.value.txs[tranId].category == tx.category && InvoiceNumber(tx.category, tranId) in r.value.invoices
    ensures var tranId := s.calls[i].tranId;
      var paid := Apply(s, isLive, Commit(i, now));
      var end := Apply(paid, isLive, WriteStatus(j));
      && tranId in paid.store.txs && paid.store.txs[tranId].status == VALIDATED
      && tranId in end.store.txs && end.store.txs[tranId].status == FAILED
      && NumberOf(end, tranId) in end.store.invoices
      && Overwrites(end, tranId) == Overwrites(s, tranId) + 1
  {
    hide CommitTx, InvoiceNumber, IsTranId, BeginCall, AnswerCall, ListRow, ReconcileRow;
  }

  lemma BothRead(s: State, isLive: bool, i: nat, j: nat, tranId: string, v: string, w: string)
    requires i != j && i !in s.calls && j !in s.calls
    requires tranId in s.store.txs && s.store.txs[tranId].status == PENDING
    ensures var tx := s.store.txs[tranId];
      Apply(Apply(s, isLive, Validate(i, tranId, v, true)), isLive, Validate(j, tranId, w, true))
      == s.(calls := s.calls[i := Call(tranId, false, v, Checked(tx))][j := Call(tranId, false, w, Checked(tx))])
  {
    hide IsTranId;
  }

  lemma BothJudged(s: State, isLive: bool, i: nat, j: nat, first: Call, second: Call, tx: Transaction)
    requires i != j && first.phase == Checked(tx) == second.phase
    ensures var read := s.(calls := s.calls[i := first][j := second]);
      Apply(Apply(read, isLive, Answer(i, Valid(tx.amount, tx.currency, 0))), isLive, Answer(j, Invalid))
      == s.(calls := s.calls[i := first.(phase := Judged(tx, 0))][j := second.(phase := Failing(GatewayInvalid))])
  {
    var read := s.(calls := s.calls[i := first][j := second]);
    var one := Apply(read, isLive, Answer(i, Valid(tx.amount, tx.currency, 0)));
    assert one.calls == s.calls[i := first.(phase := Judged(tx, 0))][j := second];
    var two := Apply(one, isLive, Answer(j, Invalid));
    assert two.calls == s.calls[i := first.(phase := Judged(tx, 0))][j := second.(phase := Failing(GatewayInvalid))];
  }

  /** A commit with nothing in its way grants. */
  lemma CommitGrants(s: Store, tranId: string, valId: string, now: int)
    requires tranId in s.txs && s.txs[tranId].status == PENDING
    requires CanGrant(s, tranId, s.txs[tranId]) && !ValIdTaken(s.txs, tranId, valId)
    ensures var r := CommitTx(s, tranId, s.txs[tranId], valId, 0, now);
      && r.Ok? && tranId in r.value.txs && r.value.txs[tranId].status == VALIDATED
      && r.value.txs[tranId].category == s.txs[tranId].category
      && InvoiceNumber(s.txs[tranId].category, tranId) in r.value.invoices
  {
    var tx := s.txs[tranId];
    var granted := s.(txs := s.txs[tranId := tx.(status := VALIDATED, valId := Some(valId), riskLevel := 0)]);
    assert CanGrant(granted, tranId, tx);
    GrantWrites(granted, tranId, tx, now);
    hide Grant, CanGrant, InvoiceNumber, ValIdTaken;
  }

  /* ---- what a grant writes, column by column ---- */

  /** The plan ids of earlier versions stand for the names in the table; any other id is the name itself. */
  lemma PlanNames()
    ensures EmployerPlanName("emp_starter") == "Starter" && EmployerPlanName("emp_business") == "Business"
    ensures EmployerPlanName("emp_growth") == EmployerPlanName("emp_pro") == "Growth"
    ensures EmployerPlanName("emp_enterprise") == EmployerPlanName("emp_ultimate") == "Enterprise"
    ensures SeekerPlanName("cand_starter") == "Starter" && SeekerPlanName("cand_pro") == "Pro"
    ensures SeekerPlanName("cand_elite") == SeekerPlanName("cand_job_seeker_max") == "Premium"
    ensures forall id: string :: !("emp_" <= id) ==> EmployerPlanName(id) == id
    ensures forall id: string :: !("cand_" <= id) ==> SeekerPlanName(id) == id
  {
  }

  /** The same plan, ACTIVE and not over: its end date is where the new term begins. */
  predicate Running(sub: Option<Subscription>, planId: string, now: int) {
    && sub.Some? && sub.value.status == ACTIVE && sub.value.planId == planId
    && sub.value.endDate.Some? && now < sub.value.endDate.value
  }

  /** The row after a payment of some days: they follow the running term, which keeps its start, or begin now. */
  predicate Extended(was: Option<Subscription>, sub: Subscription, planId: string, days: int, now: int) {
    var running := Running(was, planId, now);
    && sub.planId == planId && sub.status == ACTIVE
    && sub.startDate == (if running then was.value.startDate else now)
    && sub.endDate == Some((if running then was.value.endDate.value else now) + days * MS_PER_DAY)
    && !sub.cancelAtPeriodEnd && sub.reminderSentAt == None
  }

  lemma GrantedIsExtended(was: Option<Subscription>, planId: string, term: Term, now: int)
    ensures Extended(was, Granted(was, planId, term, now), planId,
              TermDays(term, if Running(was, planId, now) then was.value.endDate.value else now), now)
  {
    ExtendAddsTerm(term, if Running(was, planId, now) then was.value.endDate.value else now);
    hide Extend, TermDays;
  }

  /** Everything a commit that validates an employer's payment writes. */
  lemma CompanyGrantInColumns(s: Store, tranId: string, read: Transaction, valId: string, riskLevel: int, now: int)
    requires tranId in s.txs && s.txs[tranId].status != VALIDATED && read.category == EMPLOYER_PLAN
    ensures var r := CommitTx(s, tranId, read, valId, riskLevel, now);
      r.Ok? && r.value.txs[tranId].status == VALIDATED ==>
        var t, key := r.value, PlanKey(EmployerPlanName(read.planId), true);
        && riskLevel != 1 && read.companyId.Some? && key in s.plans && read.userId in s.db.users
        && var company := read.companyId.value;
           var was := if company in s.db.companySubs then Some(s.db.companySubs[company]) else None;
           && (var tx := s.txs[tranId];
               t.txs == s.txs[tranId := tx.(status := VALIDATED, valId := Some(valId), riskLevel := riskLevel)])
           && t.invoices == s.invoices["INV-" + tranId := Invoice(company, read.amount, read.currency, now)]
           && company in t.db.companySubs
           && t.db.companySubs == s.db.companySubs[company := t.db.companySubs[company]]
           && Extended(was, t.db.companySubs[company], s.plans[key].id, 30, now)
           && t.db.userSubs == s.db.userSubs
           && t.db.users == s.db.users[read.userId := s.db.users[read.userId].(isPremium := true)]
  {
    var key := PlanKey(EmployerPlanName(read.planId), true);
    if read.companyId.Some? && key in s.plans {
      GrantedIsExtended(Lookup(s.db.companySubs, read.companyId.value), s.plans[key].id, ThirtyDays, now);
    }
    hide EmployerPlanName, SeekerPlanName, Granted, Extended, ValIdTaken;
  }

  /** The months of a seeker's plan: its whole months if the number is positive, otherwise one. */
  function MonthsOf(plan: Plan): nat {
    match plan.durationMonths
    case Some(d) => if d > 0.0 then d.Floor else 1
    case None => 1
  }

  /** Everything a commit that validates a job seeker's payment writes. */
  lemma SeekerGrantInColumns(s: Store, tranId: string, read: Transaction, valId: string, riskLevel: int, now: int)
    requires tranId in s.txs && s.txs[tranId].status != VALIDATED && read.category == SEEKER_PREMIUM
    ensures var r := CommitTx(s, tranId, read, valId, riskLevel, now);
      r.Ok? && r.value.txs[tranId].status == VALIDATED ==>
        var t, key, user := r.value, PlanKey(SeekerPlanName(read.planId), false), read.userId;
        && riskLevel != 1 && key in s.plans && user in s.db.users
        && var was := if user in s.db.userSubs then Some(s.db.userSubs[user]) else None;
           var plan := s.plans[key];
           var start := if Running(was, plan.id, now) then was.value.endDate.value else now;
           && (var tx := s.txs[tranId];
               t.txs == s.txs[tranId := tx.(status := VALIDATED, valId := Some(valId), riskLevel := riskLevel)])
           && t.invoices == s.invoices["INV-SEEKER-" + tranId := Invoice(user, read.amount, read.currency, now)]
           && user in t.db.userSubs
           && t.db.userSubs == s.db.userSubs[user := t.db.userSubs[user]]
           && Extended(was, t.db.userSubs[user], plan.id, DaysInMonths(MonthIndex(start), MonthsOf(plan)), now)
           && t.db.companySubs == s.db.companySubs
           && t.db.users == s.db.users[user := s.db.users[user].(isPremium := true)]
  {
    var key := PlanKey(SeekerPlanName(read.planId), false);
    if key in s.plans {
      var plan := s.plans[key];
      assert DurationMonths(plan.durationMonths) == MonthsOf(plan);
      GrantedIsExtended(Lookup(s.db.userSubs, read.userId), plan.id, Months(MonthsOf(plan)), now);
    }
    hide EmployerPlanName, SeekerPlanName, Granted, Extended, ValIdTaken, DaysInMonths, MonthIndex, DurationMonths,
         MonthsOf;
  }

  /* ---- benefits ---- */

  /** One payment is granted: row, invoice, subscription and premium flag change together, and nothing else does. */
  ghost predicate Granting(s: Store, t: Store, tranId: string, now: int) {
    && tranId in s.txs && tranId in t.txs
    && var tx := s.txs[tranId];
       && CanGrant(s, tranId, tx)
       && tx.status != VALIDATED && t.txs[tranId].status == VALIDATED
       && var owner, plan := OwnerOf(tx).value, s.plans[PlanOf(tx)];
          && t.invoices == s.invoices[InvoiceNumber(tx.category, tranId) := Invoice(owner, tx.amount, tx.currency, now)]
          && t.db == GrantTo(s.db, tx.category, owner, tx.userId, plan.id, TermOf(tx.category, plan), now)
  }

  lemma SameOrderSameGrant(s: Store, tranId: string, read: Transaction, tx: Transaction)
    requires SameOrder(read, tx)
    ensures OwnerOf(read) == OwnerOf(tx) && PlanOf(read) == PlanOf(tx)
    ensures CanGrant(s, tranId, read) <==> CanGrant(s, tranId, tx)
  {
    hide InvoiceNumber, EmployerPlanName, SeekerPlanName;
  }

  lemma CommitBenefits(s: Store, tranId: string, read: Transaction, valId: string, riskLevel: int, now: int)
    requires tranId in s.txs && SameOrder(read, s.txs[tranId])
    ensures var r := CommitTx(s, tranId, read, valId, riskLevel, now);
      r.Ok? ==> (r.value.invoices == s.invoices && r.value.db == s.db) || Granting(s, r.value, tranId, now)
  {
    if s.txs[tranId].status != VALIDATED && riskLevel != 1 {
      var row := s.txs[tranId].(status := VALIDATED, valId := Some(valId), riskLevel := riskLevel);
      var t := s.(txs := s.txs[tranId := row]);
      SameOrderSameGrant(t, tranId, read, s.txs[tranId]);
      if CanGrant(t, tranId, read) {
        GrantWrites(t, tranId, read, now);
      }
    }
    hide GrantTo, TermOf, PlanOf, InvoiceNumber, ValIdTaken;
  }

  lemma BenefitsOfCommit(s: State, id: nat, now: int)
    requires Inv(s)
    ensures var t := CommitCall(s, id, now);
      || (t.store.invoices == s.store.invoices && t.store.db == s.store.db)
      || (id in s.calls && Granting(s.store, t.store, s.calls[id].tranId, now))
  {
    hide CommitTx, Granting, Inv;
    if id in s.calls && s.calls[id].phase.Judged? {
      InvOfCall(s, id);
      var call := s.calls[id];
      CommitBenefits(s.store, call.tranId, call.phase.read, call.valId, call.phase.riskLevel, now);
    }
  }

  /**
   In every reachable state each step either leaves all benefits and invoices alone, or grants exactly one payment.
   */
  lemma {:induction false} BenefitsComeWithInvoices(run: Run, isLive: bool, s0: State, step: Step)
    requires Initial(s0)
    ensures var s := After(run, isLive, s0);
      var t := Apply(s, isLive, step);
      || (t.store.invoices == s.store.invoices && t.store.db == s.store.db)
      || (step.Commit? && step.call in s.calls && Granting(s.store, t.store, s.calls[step.call].tranId, step.at))
  {
    hide CommitCall, IsTranId, BeginCall, AnswerCall, ListRow, ReconcileRow, WriteCall, Granting, After, Inv;
    ReachableInv(run, isLive, s0);
    if step.Commit? {
      BenefitsOfCommit(After(run, isLive, s0), step.call, step.at);
    }
  }

  /* ---- the reconciliation job in live mode ---- */

  predicate JobStuck(s: State) {
    forall id :: id in s.calls && s.calls[id].byJob ==> !s.calls[id].phase.Checked? && !s.calls[id].phase.Judged?
  }

  lemma JobStuckStep(s: State, step: Step)
    requires JobStuck(s)
    ensures JobStuck(Apply(s, true, step))
  {
    hide CommitTx, ExpireStale, SetIfPending, IsTranId, Judge, SetStatus;
  }

  /**
   With live signatures no call of the job ever gets past the signature check, so reconciliation never asks the
   gateway and never validates a payment, contrary to the job's own description.
   */
  lemma {:induction false} LiveJobNeverValidates(run: Run, s0: State)
    requires Initial(s0)
    ensures JobStuck(After(run, true, s0))
  {
    if run.Then? {
      LiveJobNeverValidates(run.before, s0);
      JobStuckStep(After(run.before, true, s0), run.event);
      hide JobStuck, Apply;
    }
  }

  /* ---- one call at a time ---- */

  /** validatePayment with nothing in between. */
  function ValidateAlone(s: Store, isLive: bool, tranId: string, valId: string, signatureOk: bool, verdict: Verdict,
                         now: int)
    : (Store, Option<Error>)
  {
    if tranId !in s.txs then (s, Some(NotFound))
    else
      var tx := s.txs[tranId];
      if tx.status == VALIDATED then (s, None)
      else if !signatureOk && isLive then (SetStatus(s, tranId, FAILED), Some(BadSignature))
      else if Judge(tx, verdict).Some? then (SetStatus(s, tranId, FAILED), Judge(tx, verdict))
      else
        match CommitTx(s, tranId, tx, valId, verdict.riskLevel, now)
        case Ok(t) => (t, None)
        case Err(e) => (s, Some(e))
  }

  /** The steps of one call, taken together, are that function: the protocol refines it when nothing interleaves. */
  lemma AloneIsOneCall(s: State, isLive: bool, id: nat, tranId: string, valId: string, signatureOk: bool,
                       verdict: Verdict, now: int)
    requires id !in s.calls
    ensures var begun := BeginCall(s, isLive, id, tranId, valId, signatureOk);
      var end := CommitCall(WriteCall(AnswerCall(begun, id, verdict), id), id, now);
      && end.store == ValidateAlone(s.store, isLive, tranId, valId, signatureOk, verdict, now).0
      && end.calls == s.calls
      && end.overwrites == s.overwrites
  {
    hide CommitTx, SetStatus;
    assert s.calls - {id} == s.calls;
    if tranId in s.store.txs && s.store.txs[tranId].status != VALIDATED {
      var call, tx := Call(tranId, false, valId, Cancelling), s.store.txs[tranId];
      assert forall phase :: s.calls[id := call.(phase := phase)] - {id} == s.calls;
      if !signatureOk && isLive {
        FailAlone(s.(calls := s.calls[id := call.(phase := Failing(BadSignature))]), id, now, verdict);
      } else {
        var checked := s.(calls := s.calls[id := call.(phase := Checked(tx))]);
        AnswerAlone(checked, id, verdict);
        if Judge(tx, verdict).Some? {
          FailAlone(AnswerCall(checked, id, verdict), id, now, verdict);
        }
      }
    }
  }

  /** The gateway's answer to a call moves that call to its commit or to its status write. */
  lemma AnswerAlone(s: State, id: nat, verdict: Verdict)
    requires id in s.calls && s.calls[id].phase.Checked?
    ensures var call := s.calls[id];
      var error := Judge(call.phase.read, verdict);
      && AnswerCall(s, id, verdict) == s.(calls := s.calls[id := call.(phase :=
            if error.Some? then Failing(error.value) else Judged(call.phase.read, verdict.riskLevel))])
      && (error.None? ==> WriteCall(AnswerCall(s, id, verdict), id) == AnswerCall(s, id, verdict))
  {
  }

  lemma FailAlone(s: State, id: nat, now: int, verdict: Verdict)
    requires id in s.calls && s.calls[id].phase.Failing? && !s.calls[id].byJob
    requires s.calls[id].tranId in s.store.txs && s.store.txs[s.calls[id].tranId].status != VALIDATED
    ensures AnswerCall(s, id, verdict) == s
    ensures CommitCall(WriteCall(s, id), id, now)
         == State(SetStatus(s.store, s.calls[id].tranId, FAILED), s.calls - {id}, s.overwrites)
  {
    hide SetStatus;
  }

  /**
   What a call does to an open row, in the gateway's own terms: each refusal writes FAILED and nothing else, and the row
   is validated only if the gateway has confirmed just its amount and currency, at low risk.
   */
  lemma OutcomeOfCall(s: Store, isLive: bool, tranId: string, valId: string, signatureOk: bool, verdict: Verdict,
                      now: int)
    requires tranId in s.txs && s.txs[tranId].status != VALIDATED
    ensures var tx := s.txs[tranId];
      var (t, error) := ValidateAlone(s, isLive, tranId, valId, signatureOk, verdict, now);
      var signed := signatureOk || !isLive;
      var confirmed := verdict.Valid? && verdict.amount == tx.amount && verdict.currency == tx.currency;
      && (error == Some(BadSignature) <==> !signed)
      && (error == Some(GatewayInvalid) <==> signed && verdict == Invalid)
      && (error == Some(Mismatch) <==> signed && verdict.Valid? && !confirmed)
      && (!signed || !confirmed ==> t == s.(txs := s.txs[tranId := tx.(status := FAILED)]))
      && (error == Some(RolledBack) ==> t == s)
      && tranId in t.txs
      && (t.txs[tranId].status == VALIDATED ==> signed && confirmed && verdict.riskLevel != 1)
      && (error.None? && t.txs[tranId].status != VALIDATED ==>
            && signed && confirmed && verdict.riskLevel == 1
            && t == s.(txs := s.txs[tranId := tx.(status := PENDING_REVIEW, valId := Some(valId), riskLevel := 1)]))
  {
    hide GrantTo, TermOf, PlanOf, InvoiceNumber, ValIdTaken;
  }

  /** The status the job leaves on an unpaid row of its batch that it does not fulfil. */
  lemma OutcomeOfJob(s: Store, isLive: bool, row: StaleRow, computed: string, verdict: Verdict, now: int)
    requires row.tranId in s.txs && s.txs[row.tranId].status != VALIDATED
    ensures var tx := s.txs[row.tranId];
      var t := ReconcileOne(s, isLive, row, computed, verdict, now);
      var confirmed := verdict.Valid? && verdict.amount == tx.amount && verdict.currency == tx.currency;
      && (row.sessionKey.None? || (!isLive && verdict == Invalid) ==>
            t == s.(txs := s.txs[row.tranId := tx.(status := CANCELLED)]))
      && (row.sessionKey.Some? && (isLive || (verdict.Valid? && !confirmed)) ==>
            t == s.(txs := s.txs[row.tranId := tx.(status := FAILED)]))
  {
    hide CommitTx;
  }

  /** A stale row of the job's batch, as read: its tranId and sessionKey. */
  datatype StaleRow = StaleRow(tranId: string, sessionKey: Option<string>)

  /** What the job does to one row of its batch. */
  function ReconcileOne(s: Store, isLive: bool, row: StaleRow, computed: string, verdict: Verdict, now: int): Store {
    if row.tranId !in s.txs then s
    else if row.sessionKey.None? then SetStatus(s, row.tranId, CANCELLED)
    else
      var signatureOk := SignatureValid(JOB_SIGN, JOB_KEY, computed);
      var (t, error) := ValidateAlone(s, isLive, row.tranId, row.sessionKey.value, signatureOk, verdict, now);
      if error == Some(GatewayInvalid) && row.tranId in t.txs then SetStatus(t, row.tranId, CANCELLED) else t
  }

  function ReconcileAll(s: Store, isLive: bool, batch: seq<StaleRow>, computed: string, verdicts: string -> Verdict,
                        now: int)
    : Store
  {
    if batch == [] then s
    else
      var front, row := batch[..|batch| - 1], batch[|batch| - 1];
      var t := ReconcileAll(s, isLive, front, computed, verdicts, now);
      ReconcileOne(t, isLive, row, computed, verdicts(row.tranId), now)
  }

  /**
   When the job fulfils a payment: an unpaid row of the batch ends VALIDATED exactly outside live mode, with a session
   key, confirmed by the gateway at low risk, and with everything a grant needs.
   */
  lemma JobFulfilsIff(s: Store, isLive: bool, row: StaleRow, computed: string, verdict: Verdict, now: int)
    requires row.tranId in s.txs && s.txs[row.tranId].status != VALIDATED
    ensures var tx := s.txs[row.tranId];
      var t := ReconcileOne(s, isLive, row, computed, verdict, now);
      row.tranId in t.txs &&
      (t.txs[row.tranId].status == VALIDATED <==>
        (!isLive && row.sessionKey.Some?
         && verdict.Valid? && verdict.amount == tx.amount && verdict.currency == tx.currency && verdict.riskLevel != 1
         && !ValIdTaken(s.txs, row.tranId, row.sessionKey.value) && CanGrant(s, row.tranId, tx)))
  {
    hide GrantTo, TermOf, PlanOf, InvoiceNumber, ValIdTaken;
  }

  /** One row of a live batch: it ends FAILED or CANCELLED, unless it was paid in the meantime. */
  lemma LiveRow(s: Store, row: StaleRow, computed: string, verdict: Verdict, now: int)
    requires row.tranId in s.txs && s.txs[row.tranId].status != VALIDATED
    ensures var t := ReconcileOne(s, true, row, computed, verdict, now);
      && t.invoices == s.invoices && t.db == s.db && t.txs.Keys == s.txs.Keys
      && (t.txs[row.tranId].status == FAILED || t.txs[row.tranId].status == CANCELLED)
      && (forall u :: u in s.txs && u != row.tranId ==> t.txs[u] == s.txs[u])
  {
    hide CommitTx, Judge;
  }

  /** A whole live batch pays nobody: benefits and invoices are unchanged, and its rows end FAILED or CANCELLED. */
  lemma {:induction false} LiveBatch(s: Store, batch: seq<StaleRow>, computed: string, verdicts: string -> Verdict,
                                     now: int)
    requires forall row :: row in batch ==> row.tranId in s.txs && s.txs[row.tranId].status != VALIDATED
    ensures var t := ReconcileAll(s, true, batch, computed, verdicts, now);
      && t.invoices == s.invoices && t.db == s.db && t.txs.Keys == s.txs.Keys
      && (forall u :: u in s.txs && s.txs[u].status != VALIDATED ==> t.txs[u].status != VALIDATED)
      && (forall row :: row in batch ==> t.txs[row.tranId].status == FAILED || t.txs[row.tranId].status == CANCELLED)
  {
    if batch != [] {
      var front, row := batch[..|batch| - 1], batch[|batch| - 1];
      assert batch == front + [row];
      LiveBatch(s, front, computed, verdicts, now);
      LiveRow(ReconcileAll(s, true, front, computed, verdicts, now), row, computed, verdicts(row.tranId), now);
      hide ReconcileOne;
    }
  }
}
