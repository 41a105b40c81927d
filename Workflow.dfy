/**
 * The two-phase transfer flow on values.  `LedgerState` is everything the
 * flow reads and writes: account names, wallet balances, transaction rows,
 * extract rows and the dispatched processing jobs.  Admission (`StoreStep`)
 * either commits a scheduled transaction together with its reservation and
 * one job, or changes nothing.  The processing step settles (authorizer
 * approved) or releases (denied or unreachable) the reservation.
 * `Consistent` is the ledger invariant every step keeps.
 */
module Workflow {
  import opened Wrappers
  import opened Wallets
  import opened Transactions
  import opened TransactionValidator

  /** The direction of an extract entry, seen from the wallet it belongs to. */
  datatype ExtractType = Incoming | Outgoing

  /**
   * A statement line: the account it belongs to, the amount moved, its
   * direction, the account's available balance right after the move, and the
   * counterparty's name, which the description shows after a fixed prefix.
   */
  datatype Extract = Extract(owner: Owner, value: int, kind: ExtractType, currentValue: int, counterparty: string)

  /** Why admission refused a request: the failing fields, or the abort of the balance gate. */
  datatype StoreError = ValidationFailed(fields: seq<FieldName>) | Aborted(abort: Abort)

  /** What the external authorizer answered: an explicit approval, a denial, or no usable answer. */
  datatype AuthorizerOutcome = Approved | Denied | Unreachable

  /** Whether the notifier call after settlement went through. */
  datatype NotifierOutcome = Delivered | NotifierFailed

  datatype LedgerState = LedgerState(
    names: map<Owner, string>,
    balances: map<Owner, Balance>,
    transactions: seq<Transaction>,
    extracts: seq<Extract>,
    jobs: seq<nat>)

  /** The ids of the users among the owners: what the payee rule checks payee_id against. */
  function UserIds(owners: set<Owner>): (ids: set<int>)
    ensures forall id :: id in ids <==> Owner(UserAccount, id) in owners
  {
    set o | o in owners && o.kind == UserAccount :: o.id
  }

  /** An omitted (or null) scheduling date becomes the current day; everything else is kept. */
  function WithDefaultDate(input: TransferInput, today: int): (data: TransferInput)
    ensures data.payeeId == input.payeeId && data.amount == input.amount && data.description == input.description
    ensures input.schedulingDate.Missing? ==> DateRule(data.schedulingDate, today)
    ensures !input.schedulingDate.Missing? ==> data.schedulingDate == input.schedulingDate
  {
    if input.schedulingDate.Missing? then input.(schedulingDate := Present(today)) else input
  }

  /**
   * The unsaved transaction built from validated data for the caller.  The
   * payee is a user (payee_id refers to users), and the intermediation amount
   * is not mass-assignable and so stays zero.  The status is not
   * mass-assignable either; a new row is taken to start as scheduled, which
   * is what the scheduled-transfer scenario observes.
   */
  function Make(payer: Owner, data: TransferInput): Transaction
    requires data.payeeId.Present? && data.schedulingDate.Present? && data.amount.Present?
  {
    Transaction(payer, Owner(UserAccount, data.payeeId.value), data.amount.value, 0,
                data.schedulingDate.value, data.description, Scheduled)
  }

  /** The verdict of admission: default the date, validate, build the row, check the payer's balance. */
  function Admission(s: LedgerState, payer: Owner, input: TransferInput, today: int): (r: Result<Transaction, StoreError>)
    requires payer in s.balances
    ensures r.Success? <==>
              PayeeRule(input.payeeId, UserIds(s.balances.Keys))
              && (input.schedulingDate.Missing? || DateRule(input.schedulingDate, today))
              && AmountRule(input.amount)
              && input.amount.value <= s.balances[payer].available
    ensures r.Success? ==>
              && r.value.payer == payer
              && r.value.payee == Owner(UserAccount, input.payeeId.value)
              && r.value.amount == input.amount.value
              && r.value.intermediation == 0
              && r.value.status == Scheduled
              && r.value.schedulingDate == (if input.schedulingDate.Missing? then today else input.schedulingDate.value)
              && r.value.description == input.description
    ensures r.Failure? ==>
              (r.error.ValidationFailed? <==> Validate(WithDefaultDate(input, today), UserIds(s.balances.Keys), today).Fail?)
    ensures r.Failure? && r.error.ValidationFailed? ==>
              forall f :: f in r.error.fields <==> !Holds(f, WithDefaultDate(input, today), UserIds(s.balances.Keys), today)
    ensures r.Failure? && r.error.Aborted? ==> r.error.abort == InsufficientBalance
  {
    var data := WithDefaultDate(input, today);
    var verdict := Validate(data, UserIds(s.balances.Keys), today);
    if verdict.Fail? then Failure(ValidationFailed(verdict.error))
    else
      var t := Make(payer, data);
      var check := CheckBalance(t, s.balances);
      if check.Fail? then Failure(Aborted(check.error)) else Success(t)
  }

  /** Save the row, reserve its amount on the payer's wallet, dispatch one job for it. */
  function Commit(s: LedgerState, t: Transaction): LedgerState
    requires t.payer in s.balances
  {
    s.(balances := ReserveIn(s.balances, t.payer, t.amount),
       transactions := s.transactions + [t],
       jobs := s.jobs + [|s.transactions|])
  }

  /** Admission as one atomic unit: the full commit on success, the unchanged state on any failure. */
  function StoreStep(s: LedgerState, payer: Owner, input: TransferInput, today: int): (out: (Result<Transaction, StoreError>, LedgerState))
    requires payer in s.balances
    ensures out.0 == Admission(s, payer, input, today)
    ensures out.0.Failure? ==> out.1 == s
    ensures out.0.Success? ==>
              var a := out.0.value.amount;
              && out.1.names == s.names
              && out.1.extracts == s.extracts
              && out.1.transactions == s.transactions + [out.0.value]
              && out.1.jobs == s.jobs + [|s.transactions|]
              && out.1.balances.Keys == s.balances.Keys
              && out.1.balances[payer] == Balance(s.balances[payer].available - a, s.balances[payer].blocked + a)
              && forall o :: o in s.balances && o != payer ==> out.1.balances[o] == s.balances[o]
  {
    var r := Admission(s, payer, input, today);
    if r.Failure? then (r, s) else (r, Commit(s, r.value))
  }

  /** The processing step can look up both parties of transaction `id`. */
  predicate Ready(s: LedgerState, id: nat)
  {
    id < |s.transactions|
    && s.transactions[id].payer in s.balances && s.transactions[id].payee in s.balances
    && s.transactions[id].payer in s.names && s.transactions[id].payee in s.names
  }

  /** The two statement lines of a settled transfer, read from the balances after the settlement. */
  function SettlementExtracts(t: Transaction, after: map<Owner, Balance>, names: map<Owner, string>): seq<Extract>
    requires t.payer in after && t.payee in after && t.payer in names && t.payee in names
  {
    [Extract(t.payer, t.amount, Outgoing, after[t.payer].available, names[t.payee]),
     Extract(t.payee, t.amount, Incoming, after[t.payee].available, names[t.payer])]
  }

  /** Approved path: settle, write the two extracts, mark the transaction finalized. */
  function SettleStep(s: LedgerState, id: nat): LedgerState
    requires Ready(s, id)
  {
    var t := s.transactions[id];
    var balances := SettleIn(s.balances, t.payer, t.payee, t.amount);
    s.(balances := balances,
       transactions := s.transactions[id := t.(status := Finalized)],
       extracts := s.extracts + SettlementExtracts(t, balances, s.names))
  }

  /** Denied or failed authorization: give the reservation back, mark the transaction unauthorized. */
  function ReleaseStep(s: LedgerState, id: nat): LedgerState
    requires Ready(s, id)
  {
    var t := s.transactions[id];
    s.(balances := ReleaseIn(s.balances, t.payer, t.amount),
       transactions := s.transactions[id := t.(status := Unauthorized)])
  }

  /** The processing job: only an explicit approval settles; the notifier's outcome changes nothing. */
  function ProcessStep(s: LedgerState, id: nat, decision: AuthorizerOutcome, notifier: NotifierOutcome): (r: LedgerState)
    requires Ready(s, id)
    ensures r.transactions == s.transactions[id := s.transactions[id].(status := if decision == Approved then Finalized else Unauthorized)]
    ensures |r.extracts| == |s.extracts| + (if decision == Approved then 2 else 0)
    ensures r.jobs == s.jobs && r.names == s.names
  {
    if decision == Approved then SettleStep(s, id) else ReleaseStep(s, id)
  }

  /** A saved transaction refers to known accounts and moves at least the minimum amount. */
  predicate Recorded(t: Transaction, owners: set<Owner>)
  {
    t.payer in owners && t.payee in owners && t.amount >= MinAmount
  }

  /**
   * The ledger invariant: every account has a name and a wallet; no available
   * balance is negative; each blocked balance is exactly what that account's
   * scheduled transactions reserve; every finalized transaction has its two
   * extract lines and nothing else has any; job k was dispatched for
   * transaction k, one job per saved transaction.
   */
  ghost predicate Consistent(s: LedgerState)
  {
    && s.names.Keys == s.balances.Keys
    && (forall o :: o in s.balances ==> s.balances[o].available >= 0)
    && (forall o :: o in s.balances ==> s.balances[o].blocked == Reserved(s.transactions, o))
    && (forall i :: 0 <= i < |s.transactions| ==> Recorded(s.transactions[i], s.balances.Keys))
    && |s.extracts| == 2 * FinalizedCount(s.transactions)
    && |s.jobs| == |s.transactions|
    && (forall i :: 0 <= i < |s.jobs| ==> s.jobs[i] == i)
  }

  /** Every amount of a consistent ledger is positive. */
  lemma ConsistentAmountsPositive(s: LedgerState)
    requires Consistent(s)
    ensures PositiveAmounts(s.transactions)
  {
    forall k | 0 <= k < |s.transactions| ensures s.transactions[k].amount > 0 {
      assert Recorded(s.transactions[k], s.balances.Keys);
    }
  }

  /** Both balances of every wallet are non-negative in a consistent ledger. */
  lemma ConsistentNonNegative(s: LedgerState)
    requires Consistent(s)
    ensures forall o :: o in s.balances ==> s.balances[o].available >= 0 && s.balances[o].blocked >= 0
  {
    ConsistentAmountsPositive(s);
    forall o | o in s.balances
      ensures s.balances[o].blocked >= 0
    {
      ReservedNonNegative(s.transactions, o);
    }
  }

  /** A scheduled transaction of a consistent ledger is covered by its payer's blocked balance. */
  lemma ScheduledIsCovered(s: LedgerState, id: nat)
    requires Consistent(s) && id < |s.transactions| && s.transactions[id].status == Scheduled
    ensures Ready(s, id)
    ensures s.balances[s.transactions[id].payer].blocked >= s.transactions[id].amount
  {
    assert Recorded(s.transactions[id], s.balances.Keys);
    ConsistentAmountsPositive(s);
    ReservedCovers(s.transactions, id);
  }

  /** Committing an affordable scheduled transaction between known accounts keeps the ledger consistent. */
  lemma CommitKeepsConsistent(s: LedgerState, t: Transaction)
    requires Consistent(s) && Recorded(t, s.balances.Keys) && t.status == Scheduled
    requires t.amount <= s.balances[t.payer].available
    ensures Consistent(Commit(s, t))
  {
    var r := Commit(s, t);
    forall o | o in r.balances
      ensures r.balances[o].available >= 0 && r.balances[o].blocked == Reserved(r.transactions, o)
    {
      ReservedAppend(s.transactions, t, o);
    }
    FinalizedCountAppend(s.transactions, t);
    assert forall i :: 0 <= i < |r.transactions| ==> Recorded(r.transactions[i], r.balances.Keys) by {
      forall i | 0 <= i < |r.transactions| ensures Recorded(r.transactions[i], r.balances.Keys) {
        if i < |s.transactions| {
          assert r.transactions[i] == s.transactions[i];
        }
      }
    }
  }

  /** Admission keeps the ledger consistent, whether it commits or not. */
  lemma StoreKeepsConsistent(s: LedgerState, payer: Owner, input: TransferInput, today: int)
    requires Consistent(s) && payer in s.balances
    ensures Consistent(StoreStep(s, payer, input, today).1)
  {
    var r := Admission(s, payer, input, today);
    if r.Success? {
      assert Recorded(r.value, s.balances.Keys);
      CommitKeepsConsistent(s, r.value);
    }
  }

  /** Settling a scheduled transaction keeps the ledger consistent. */
  lemma SettleKeepsConsistent(s: LedgerState, id: nat)
    requires Consistent(s) && id < |s.transactions| && s.transactions[id].status == Scheduled
    ensures Ready(s, id) && Consistent(SettleStep(s, id))
  {
    ScheduledIsCovered(s, id);
    var t := s.transactions[id];
    var t' := t.(status := Finalized);
    var r := SettleStep(s, id);
    forall o | o in r.balances
      ensures r.balances[o].available >= 0 && r.balances[o].blocked == Reserved(r.transactions, o)
    {
      ReservedUpdate(s.transactions, id, t', o);
    }
    FinalizedCountUpdate(s.transactions, id, t');
    assert forall i :: 0 <= i < |r.transactions| ==> Recorded(r.transactions[i], r.balances.Keys) by {
      forall i | 0 <= i < |r.transactions| ensures Recorded(r.transactions[i], r.balances.Keys) {
        assert Recorded(s.transactions[i], s.balances.Keys);
      }
    }
  }

  /** Releasing a scheduled transaction keeps the ledger consistent. */
  lemma ReleaseKeepsConsistent(s: LedgerState, id: nat)
    requires Consistent(s) && id < |s.transactions| && s.transactions[id].status == Scheduled
    ensures Ready(s, id) && Consistent(ReleaseStep(s, id))
  {
    ScheduledIsCovered(s, id);
    var t := s.transactions[id];
    var t' := t.(status := Unauthorized);
    var r := ReleaseStep(s, id);
    forall o | o in r.balances
      ensures r.balances[o].available >= 0 && r.balances[o].blocked == Reserved(r.transactions, o)
    {
      ReservedUpdate(s.transactions, id, t', o);
    }
    FinalizedCountUpdate(s.transactions, id, t');
    assert forall i :: 0 <= i < |r.transactions| ==> Recorded(r.transactions[i], r.balances.Keys) by {
      forall i | 0 <= i < |r.transactions| ensures Recorded(r.transactions[i], r.balances.Keys) {
        assert Recorded(s.transactions[i], s.balances.Keys);
      }
    }
  }

  /** Processing a scheduled transaction keeps the ledger consistent, whatever the authorizer answered. */
  lemma ProcessKeepsConsistent(s: LedgerState, id: nat, decision: AuthorizerOutcome, notifier: NotifierOutcome)
    requires Consistent(s) && id < |s.transactions| && s.transactions[id].status == Scheduled
    ensures Ready(s, id) && Consistent(ProcessStep(s, id, decision, notifier))
  {
    if decision == Approved {
      SettleKeepsConsistent(s, id);
    } else {
      ReleaseKeepsConsistent(s, id);
    }
  }

  /**
   * What approval does: the payer's blocked balance goes down and the payee's
   * available balance goes up by the amount (for a transfer to oneself both
   * happen on the same wallet), no other wallet changes, the transaction is
   * finalized, and two extract lines are appended, the payer's outgoing one
   * and the payee's incoming one, each with the balance after the move and the
   * counterparty's name.
   */
  lemma SettleEffect(s: LedgerState, id: nat)
    requires Ready(s, id)
    ensures var r := SettleStep(s, id);
            var t := s.transactions[id];
            && r.names == s.names && r.jobs == s.jobs
            && r.transactions == s.transactions[id := t.(status := Finalized)]
            && r.balances.Keys == s.balances.Keys
            && r.balances[t.payer].blocked == s.balances[t.payer].blocked - t.amount
            && r.balances[t.payee].available == s.balances[t.payee].available + t.amount
            && (t.payer != t.payee ==>
                  r.balances[t.payer].available == s.balances[t.payer].available
                  && r.balances[t.payee].blocked == s.balances[t.payee].blocked)
            && (forall o :: o in s.balances && o != t.payer && o != t.payee ==> r.balances[o] == s.balances[o])
            && |r.extracts| == |s.extracts| + 2
            && r.extracts[..|s.extracts|] == s.extracts
            && r.extracts[|s.extracts|] == Extract(t.payer, t.amount, Outgoing, r.balances[t.payer].available, s.names[t.payee])
            && r.extracts[|s.extracts| + 1] == Extract(t.payee, t.amount, Incoming, r.balances[t.payee].available, s.names[t.payer])
  {
  }

  /**
   * What denial does: the payer's reservation moves back from blocked to
   * available, no other wallet changes, the transaction becomes unauthorized,
   * and no extract line is written.
   */
  lemma ReleaseEffect(s: LedgerState, id: nat)
    requires Ready(s, id)
    ensures var r := ReleaseStep(s, id);
            var t := s.transactions[id];
            && r.names == s.names && r.jobs == s.jobs && r.extracts == s.extracts
            && r.transactions == s.transactions[id := t.(status := Unauthorized)]
            && r.balances.Keys == s.balances.Keys
            && r.balances[t.payer] == Balance(s.balances[t.payer].available + t.amount, s.balances[t.payer].blocked - t.amount)
            && (forall o :: o in s.balances && o != t.payer ==> r.balances[o] == s.balances[o])
  {
  }

  /** Admission moves no money between wallets: the total over all wallets is unchanged. */
  lemma StoreConservesFunds(s: LedgerState, payer: Owner, input: TransferInput, today: int)
    requires payer in s.balances
    ensures TotalFunds(StoreStep(s, payer, input, today).1.balances) == TotalFunds(s.balances)
  {
    var out := StoreStep(s, payer, input, today);
    if out.0.Success? {
      ReserveConservesFunds(s.balances, payer, out.0.value.amount);
    }
  }

  /** The processing step, approved or not, keeps the total over all wallets. */
  lemma ProcessConservesFunds(s: LedgerState, id: nat, decision: AuthorizerOutcome, notifier: NotifierOutcome)
    requires Ready(s, id)
    ensures TotalFunds(ProcessStep(s, id, decision, notifier).balances) == TotalFunds(s.balances)
  {
    var t := s.transactions[id];
    if decision == Approved {
      SettleConservesFunds(s.balances, t.payer, t.payee, t.amount);
    } else {
      ReleaseConservesFunds(s.balances, t.payer, t.amount);
    }
  }

  /**
   * The notifier's outcome does not change the status, the balances or the
   * extracts.  This records a modelling decision rather than a property of
   * the job: `ProcessStep` takes the notifier's outcome and ignores it, as
   * the notifier-failure scenario observes.
   */
  lemma NotifierHasNoEffect(s: LedgerState, id: nat, decision: AuthorizerOutcome, n1: NotifierOutcome, n2: NotifierOutcome)
    requires Ready(s, id)
    ensures ProcessStep(s, id, decision, n1) == ProcessStep(s, id, decision, n2)
  {
  }

  /**
   * An unreachable or failing authorizer has exactly the effect of a denial.
   * This too records a modelling decision: `ProcessStep` settles only on an
   * explicit approval, as the authorizer-failure scenario observes.
   */
  lemma UnreachableAuthorizerIsDenial(s: LedgerState, id: nat, notifier: NotifierOutcome)
    requires Ready(s, id)
    ensures ProcessStep(s, id, Unreachable, notifier) == ProcessStep(s, id, Denied, notifier)
    ensures ProcessStep(s, id, Denied, notifier) == ReleaseStep(s, id)
  {
  }

  /**
   * Reversal after admission: the payer gets back exactly its balances from
   * before the admission, no other wallet has changed, the transaction stays
   * recorded as unauthorized and no extract is written.
   */
  lemma ReleaseAfterStoreRestores(s: LedgerState, payer: Owner, input: TransferInput, today: int)
    requires payer in s.balances && s.names.Keys == s.balances.Keys
    requires StoreStep(s, payer, input, today).0.Success?
    ensures var out := StoreStep(s, payer, input, today);
            && Ready(out.1, |s.transactions|)
            && ReleaseStep(out.1, |s.transactions|).balances == s.balances
            && ReleaseStep(out.1, |s.transactions|).transactions == s.transactions + [out.0.value.(status := Unauthorized)]
            && ReleaseStep(out.1, |s.transactions|).extracts == s.extracts
  {
    var out := StoreStep(s, payer, input, today);
    var t := out.0.value;
    assert out.1.transactions[|s.transactions|] == t;
    ReleaseUndoesReserve(s.balances, payer, t.amount);
    assert (s.transactions + [t])[|s.transactions| := t.(status := Unauthorized)] == s.transactions + [t.(status := Unauthorized)];
  }

  /**
   * Admission followed by approval: the payer's available balance is down by
   * the amount and its blocked balance is back where it was, the payee's
   * available balance is up by the amount, no other wallet has changed and no
   * money was created or lost.
   */
  lemma SettleAfterStoreNet(s: LedgerState, payer: Owner, input: TransferInput, today: int)
    requires payer in s.balances && s.names.Keys == s.balances.Keys
    requires StoreStep(s, payer, input, today).0.Success?
    ensures var out := StoreStep(s, payer, input, today);
            var t := out.0.value;
            var n := |s.transactions|;
            && Ready(out.1, n)
            && var r := SettleStep(out.1, n);
            && t.payee in s.balances
            && r.transactions == s.transactions + [t.(status := Finalized)]
            && (payer != t.payee ==>
                  && r.balances[payer] == Balance(s.balances[payer].available - t.amount, s.balances[payer].blocked)
                  && r.balances[t.payee] == Balance(s.balances[t.payee].available + t.amount, s.balances[t.payee].blocked))
            && (payer == t.payee ==> r.balances == s.balances)
            && (forall o :: o in s.balances && o != payer && o != t.payee ==> r.balances[o] == s.balances[o])
            && TotalFunds(r.balances) == TotalFunds(s.balances)
  {
    var out := StoreStep(s, payer, input, today);
    var t := out.0.value;
    var n := |s.transactions|;
    assert out.1.transactions[n] == t;
    var r := SettleStep(out.1, n);
    assert (s.transactions + [t])[n := t.(status := Finalized)] == s.transactions + [t.(status := Finalized)];
    if payer == t.payee {
      assert r.balances.Keys == s.balances.Keys;
      assert forall o | o in s.balances :: r.balances[o] == s.balances[o];
    }
    ReserveConservesFunds(s.balances, payer, t.amount);
    SettleConservesFunds(out.1.balances, payer, t.payee, t.amount);
  }
}
