/**
 * The field rules a transfer request must pass before anything is written:
 * payee_id required, numeric and an existing user id; scheduling_date
 * required, a date, today or later; amount required, numeric, at least 1.
 */
module TransactionValidator {
  import opened Wrappers

  /** A request field as the rules see it: absent (or null), present but not of the required kind, or present with a value. */
  datatype Field<+T> = Missing | Malformed | Present(value: T)

  /** The three validated fields, in the order the rules list them. */
  datatype FieldName = PayeeId | SchedulingDate | Amount

  /** The request data: payee_id, scheduling_date as a day number, amount, and the optional description. */
  datatype TransferInput = TransferInput(
    payeeId: Field<int>,
    schedulingDate: Field<int>,
    amount: Field<int>,
    description: Option<string>)

  /** The smallest amount the amount rule admits. */
  const MinAmount := 1

  /** payee_id: required, numeric, and the id of an existing user. */
  predicate PayeeRule(payeeId: Field<int>, userIds: set<int>)
  {
    payeeId.Present? && payeeId.value in userIds
  }

  /** scheduling_date: required, a date, and not before today. */
  predicate DateRule(date: Field<int>, today: int)
  {
    date.Present? && date.value >= today
  }

  /** amount: required, numeric, and at least the minimum. */
  predicate AmountRule(amount: Field<int>)
  {
    amount.Present? && amount.value >= MinAmount
  }

  /** The rule of field `f` holds for `data`. */
  predicate Holds(f: FieldName, data: TransferInput, userIds: set<int>, today: int)
  {
    match f
    case PayeeId => PayeeRule(data.payeeId, userIds)
    case SchedulingDate => DateRule(data.schedulingDate, today)
    case Amount => AmountRule(data.amount)
  }

  /** The position of a field in the rule table. */
  function Rank(f: FieldName): nat
  {
    match f
    case PayeeId => 0
    case SchedulingDate => 1
    case Amount => 2
  }

  /** The fields whose rule fails, each once, in rule-table order. */
  function Failures(data: TransferInput, userIds: set<int>, today: int): (r: seq<FieldName>)
    ensures forall f :: f in r <==> !Holds(f, data, userIds, today)
    ensures forall i, j :: 0 <= i < j < |r| ==> Rank(r[i]) < Rank(r[j])
  {
    (if Holds(PayeeId, data, userIds, today) then [] else [PayeeId])
    + (if Holds(SchedulingDate, data, userIds, today) then [] else [SchedulingDate])
    + (if Holds(Amount, data, userIds, today) then [] else [Amount])
  }

  /** Validation passes exactly when all three rules hold; otherwise it fails naming every failing field. */
  function Validate(data: TransferInput, userIds: set<int>, today: int): (r: Outcome<seq<FieldName>>)
    ensures r.Pass? <==> PayeeRule(data.payeeId, userIds) && DateRule(data.schedulingDate, today) && AmountRule(data.amount)
    ensures r.Fail? ==> r.error != [] && forall f :: f in r.error <==> !Holds(f, data, userIds, today)
  {
    var failed := Failures(data, userIds, today);
    assert Holds(PayeeId, data, userIds, today) && Holds(SchedulingDate, data, userIds, today) && Holds(Amount, data, userIds, today)
      ==> failed == [];
    if failed == [] then Pass else Fail(failed)
  }

  /** Only the three rule fields are examined: the description, and anything else, cannot change the verdict. */
  lemma ValidateExaminesRuleFieldsOnly(d1: TransferInput, d2: TransferInput, userIds: set<int>, today: int)
    requires d1.payeeId == d2.payeeId && d1.schedulingDate == d2.schedulingDate && d1.amount == d2.amount
    ensures Validate(d1, userIds, today) == Validate(d2, userIds, today)
  {
    assert d1.(description := d2.description) == d2;
  }

  /** A missing, non-numeric or unknown payee id is reported on payee_id. */
  lemma BadPayeeRejected(data: TransferInput, userIds: set<int>, today: int)
    requires data.payeeId.Missing? || data.payeeId.Malformed? || (data.payeeId.Present? && data.payeeId.value !in userIds)
    ensures Validate(data, userIds, today).Fail? && PayeeId in Validate(data, userIds, today).error
  {
  }

  /** A date before today is reported on scheduling_date; today and later dates pass the date rule. */
  lemma DateBoundary(data: TransferInput, userIds: set<int>, today: int)
    requires data.schedulingDate.Present?
    ensures data.schedulingDate.value < today ==> SchedulingDate in Validate(data, userIds, today).error
    ensures data.schedulingDate.value >= today ==> Holds(SchedulingDate, data, userIds, today)
  {
  }

  /** An amount below 1 (zero included) is reported on amount; an amount of exactly 1 passes the amount rule. */
  lemma AmountBoundary(data: TransferInput, userIds: set<int>, today: int)
    requires data.amount.Present?
    ensures data.amount.value < 1 ==> Amount in Validate(data, userIds, today).error
    ensures data.amount.value == 1 ==> Holds(Amount, data, userIds, today)
  {
  }
}
