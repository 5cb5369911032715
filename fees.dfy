/**
 * The fee ledger: the `Fee` document (models/Fee.ts) and
 * `POST`/`PUT /api/fees` (app/api/fees/route.ts).
 *
 * A fee is created PENDING with nothing paid; each payment adds its amount
 * to `paidAmount`, appends one entry to `paymentHistory`, and moves the
 * status to PAID or PARTIAL. Amounts are JavaScript numbers, modelled as
 * `real`; a body field is absent (`None`) or a value.
 */
module Fees {
  import opened Common

  datatype FeeStatus = PENDING | PARTIAL | PAID

  /** One entry of `paymentHistory` (`paymentMethod` is its `method`); `date` is the opaque time of the payment. */
  datatype Payment = Payment(amount: real, paymentMethod: string, date: nat, reference: Option<string>)

  datatype Fee = Fee(
    id: Id,
    studentId: Id,
    classId: Id,
    amount: real,
    paidAmount: real,
    status: FeeStatus,
    dueDate: Option<nat>,
    paymentHistory: seq<Payment>)

  /** JavaScript truthiness of an optional number: absent and 0 are falsy. */
  predicate Truthy(x: Option<real>)
  {
    x.Some? && x.value != 0.0
  }

  /** Sum of the recorded payments, folded from the left. */
  function Paid(history: seq<Payment>): real
  {
    if history == [] then 0.0 else Paid(history[..|history| - 1]) + history[|history| - 1].amount
  }

  /** The status a fee should show for what has been paid against it. */
  predicate StatusFits(f: Fee)
  {
    match f.status
    case PAID => f.paidAmount >= f.amount
    case PARTIAL => 0.0 < f.paidAmount < f.amount
    case PENDING => f.paidAmount == 0.0
  }

  /**
   * A fee whose books balance: a positive amount, a paid total equal to the
   * history, only positive payments, and the status that fits.
   */
  ghost predicate Consistent(f: Fee)
  {
    && f.amount > 0.0
    && f.paidAmount == Paid(f.paymentHistory)
    && (forall i :: 0 <= i < |f.paymentHistory| ==> f.paymentHistory[i].amount > 0.0)
    && StatusFits(f)
  }

  /** The document `Fee.create` stores for a POST. */
  function NewFee(id: Id, studentId: Id, classId: Id, amount: real, dueDate: Option<nat>): (f: Fee)
    ensures f.status == PENDING && f.paidAmount == 0.0 && f.paymentHistory == []
    ensures f.id == id && f.studentId == studentId && f.classId == classId
    ensures f.amount == amount && f.dueDate == dueDate
  {
    Fee(id, studentId, classId, amount, 0.0, PENDING, dueDate, [])
  }

  /** A fee created for a positive amount is consistent; one for a negative amount is not. */
  lemma NewFeeConsistent(id: Id, studentId: Id, classId: Id, amount: real, dueDate: Option<nat>)
    ensures Consistent(NewFee(id, studentId, classId, amount, dueDate)) <==> amount > 0.0
  {
  }

  /** The status assignment after `paidAmount` has been increased. */
  function NextStatus(current: FeeStatus, paidAmount: real, amount: real): (s: FeeStatus)
    ensures paidAmount >= amount ==> s == PAID
    ensures paidAmount < amount && paidAmount > 0.0 ==> s == PARTIAL
    ensures paidAmount < amount && paidAmount <= 0.0 ==> s == current
  {
    if paidAmount >= amount then PAID
    else if paidAmount > 0.0 then PARTIAL
    else current
  }

  /** The effect of one payment on a fee. */
  function ApplyPayment(f: Fee, p: Payment): (g: Fee)
    ensures g.paidAmount == f.paidAmount + p.amount
    ensures |g.paymentHistory| == |f.paymentHistory| + 1
    ensures g.paymentHistory[..|f.paymentHistory|] == f.paymentHistory
    ensures g.paymentHistory[|f.paymentHistory|] == p
    ensures g.status == PAID <==> g.paidAmount >= f.amount || (g.paidAmount <= 0.0 && f.status == PAID)
    ensures g.paidAmount < f.amount && g.paidAmount > 0.0 ==> g.status == PARTIAL
    ensures g.paidAmount < f.amount && g.paidAmount <= 0.0 ==> g.status == f.status
    ensures g.(paidAmount := f.paidAmount, paymentHistory := f.paymentHistory, status := f.status) == f
  {
    var paid := f.paidAmount + p.amount;
    f.(paidAmount := paid, paymentHistory := f.paymentHistory + [p], status := NextStatus(f.status, paid, f.amount))
  }

  /** The paid total always equals the sum of the history, whatever the payment. */
  lemma PaymentKeepsTotal(f: Fee, p: Payment)
    requires f.paidAmount == Paid(f.paymentHistory)
    ensures ApplyPayment(f, p).paidAmount == Paid(ApplyPayment(f, p).paymentHistory)
  {
    var g := ApplyPayment(f, p);
    assert g.paymentHistory[..|g.paymentHistory| - 1] == f.paymentHistory;
  }

  /** A positive payment keeps a consistent fee consistent. */
  lemma PaymentKeepsConsistent(f: Fee, p: Payment)
    requires Consistent(f)
    requires p.amount > 0.0
    ensures Consistent(ApplyPayment(f, p))
  {
    var g := ApplyPayment(f, p);
    PaymentKeepsTotal(f, p);
    assert g.paidAmount > 0.0;
    assert StatusFits(g) by {
      if g.paidAmount >= f.amount {
        assert g.status == PAID;
      } else {
        assert g.status == PARTIAL;
      }
    }
    forall i | 0 <= i < |g.paymentHistory|
      ensures g.paymentHistory[i].amount > 0.0
    {
      if i < |f.paymentHistory| {
        assert g.paymentHistory[i] == g.paymentHistory[..|f.paymentHistory|][i];
      }
    }
  }

  /**
   * The route accepts any non-zero amount, so a negative one can leave a fee
   * marked PAID with nothing paid: 100 due, 100 paid, then -100.
   */
  lemma NegativePaymentKeepsPaid()
    ensures var f := Fee("f", "s", "c", 100.0, 100.0, PAID, None, [Payment(100.0, "CASH", 0, None)]);
            && Consistent(f)
            && var g := ApplyPayment(f, Payment(-100.0, "CASH", 1, None));
               g.status == PAID && g.paidAmount == 0.0 && !Consistent(g)
  {
    var f := Fee("f", "s", "c", 100.0, 100.0, PAID, None, [Payment(100.0, "CASH", 0, None)]);
    assert Paid(f.paymentHistory) == 100.0 by {
      assert f.paymentHistory[..0] == [];
    }
  }

  /** What `verifyStudent`/`verifyParent` return: a 403 response object or the token. */
  datatype Check = Denied | Granted(token: Token)

  function Verify(caller: Option<Token>, role: Role): (c: Check)
    ensures c.Granted? <==> HasRole(caller, role)
  {
    if HasRole(caller, role) then Granted(caller.value) else Denied
  }

  /** Both a response object and a token are objects, and every object is truthy. */
  predicate IsTruthy(c: Check)
  {
    match c
    case Denied => true
    case Granted(_) => true
  }

  /** The PUT guard as written: refuse when `studentCheck && parentCheck` is truthy. */
  predicate PutRefusedAsWritten(caller: Option<Token>)
  {
    IsTruthy(Verify(caller, STUDENT)) && IsTruthy(Verify(caller, PARENT))
  }

  /** As written, PUT answers 403 to every caller, students and parents included. */
  lemma PutRefusesEveryoneAsWritten(caller: Option<Token>)
    ensures PutRefusedAsWritten(caller)
  {
  }

  /** The evident intent: refuse only when both checks returned their 403 response. */
  predicate PutRefused(caller: Option<Token>)
  {
    Verify(caller, STUDENT).Denied? && Verify(caller, PARENT).Denied?
  }

  /** With the corrected guard, exactly students and parents may pay. */
  lemma PutAdmitsStudentsAndParents(caller: Option<Token>)
    ensures !PutRefused(caller) <==> HasRole(caller, STUDENT) || HasRole(caller, PARENT)
  {
  }

  datatype FeeBody = FeeBody(studentId: Option<string>, classId: Option<string>, amount: Option<real>, dueDate: Option<nat>)

  datatype PayBody = PayBody(feeId: Option<string>, amount: Option<real>, paymentMethod: Option<string>, reference: Option<string>)

  datatype FeeOutcome =
    | Forbidden        // 403
    | BadRequest       // 400
    | NotFound         // 404 "Fee not found"
    | ServerError      // 500: the `_id` is taken
    | Saved(fee: Fee)  // 201 for a POST, 200 for a PUT
  {
    function Status(isCreate: bool): int
    {
      match this
      case Forbidden => 403
      case BadRequest => 400
      case NotFound => 404
      case ServerError => 500
      case Saved(_) => if isCreate then 201 else 200
    }
  }

  /** The fees collection, keyed by `_id`. */
  class FeeLedger {
    var fees: map<Id, Fee>

    /** Every fee is stored under its own id and its paid total matches its history. */
    ghost predicate Valid()
      reads this
    {
      forall id :: id in fees ==> fees[id].id == id && fees[id].paidAmount == Paid(fees[id].paymentHistory)
    }

    constructor ()
      ensures Valid() && fees == map[]
    {
      fees := map[];
    }

    /** POST (admins only): a new PENDING fee with nothing paid. `newId` is the `_id` the store assigns. */
    method Create(caller: Option<Token>, body: FeeBody, newId: Id) returns (r: FeeOutcome)
      requires Valid()
      modifies this
      ensures Valid()
      ensures !HasRole(caller, ADMIN) ==> r == Forbidden
      ensures HasRole(caller, ADMIN) && (!Present(body.studentId) || !Present(body.classId) || !Truthy(body.amount)) ==>
        r == BadRequest
      ensures HasRole(caller, ADMIN) && Present(body.studentId) && Present(body.classId) && Truthy(body.amount) ==>
        if newId in old(fees) then r == ServerError
        else r == Saved(NewFee(newId, body.studentId.value, body.classId.value, body.amount.value, body.dueDate))
      ensures r.Saved? ==> fees == old(fees)[newId := r.fee]
      ensures !r.Saved? ==> fees == old(fees)
    {
      if !HasRole(caller, ADMIN) {
        return Forbidden;
      }
      if !Present(body.studentId) || !Present(body.classId) || !Truthy(body.amount) {
        return BadRequest;
      }
      if newId in fees {
        return ServerError;
      }
      var fee := NewFee(newId, body.studentId.value, body.classId.value, body.amount.value, body.dueDate);
      fees := fees[newId := fee];
      r := Saved(fee);
    }

    /**
     * PUT with the corrected guard: a student or parent records a payment
     * made at time `now`. The loaded fee is updated field by field, then saved.
     */
    method Pay(caller: Option<Token>, body: PayBody, now: nat) returns (r: FeeOutcome)
      requires Valid()
      modifies this
      ensures Valid()
      ensures PutRefused(caller) ==> r == Forbidden
      ensures !PutRefused(caller) && (!Present(body.feeId) || !Truthy(body.amount) || !Present(body.paymentMethod)) ==>
        r == BadRequest
      ensures !PutRefused(caller) && Present(body.feeId) && Truthy(body.amount) && Present(body.paymentMethod) ==>
        if body.feeId.value !in old(fees) then r == NotFound
        else r == Saved(ApplyPayment(old(fees)[body.feeId.value],
                                     Payment(body.amount.value, body.paymentMethod.value, now, body.reference)))
      ensures r.Saved? ==> fees == old(fees)[body.feeId.value := r.fee]
      ensures !r.Saved? ==> fees == old(fees)
    {
      if PutRefused(caller) {
        return Forbidden;
      }
      if !Present(body.feeId) || !Truthy(body.amount) || !Present(body.paymentMethod) {
        return BadRequest;
      }
      var id := body.feeId.value;
      if id !in fees {
        return NotFound;
      }
      var fee := fees[id];
      var p := Payment(body.amount.value, body.paymentMethod.value, now, body.reference);
      PaymentKeepsTotal(fee, p);
      fee := fee.(paidAmount := fee.paidAmount + p.amount);
      fee := fee.(paymentHistory := fee.paymentHistory + [p]);
      if fee.paidAmount >= fee.amount {
        fee := fee.(status := PAID);
      } else if fee.paidAmount > 0.0 {
        fee := fee.(status := PARTIAL);
      }
      fees := fees[id := fee];
      r := Saved(fee);
    }
  }
}
