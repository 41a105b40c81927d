/**
 * Wallets: every account (a user or a store) owns exactly one wallet with two
 * balances, `available` (spendable) and `blocked` (reserved for transfers in
 * flight).  The module gives the value view of balances, the mutable `Wallet`
 * row, the three ledger moves (reserve, settle, release) on a map of balances,
 * and the total amount of money held by a map of balances.
 */
module Wallets {

  /** The two kinds of account that own a wallet (the wallet's personable type). */
  datatype Kind = UserAccount | StoreAccount

  /** The owner of a wallet: its kind and its id within that kind. */
  datatype Owner = Owner(kind: Kind, id: int)

  /** The two balances of a wallet, as values. */
  datatype Balance = Balance(available: int, blocked: int)

  /** The money a wallet holds, spendable or not. */
  function Total(b: Balance): int
  {
    b.available + b.blocked
  }

  /** A wallet row: its two balances are updated in place. */
  class Wallet {
    var available: int
    var blocked: int

    /** A wallet as created for a new account: seeded available balance, nothing blocked. */
    constructor (initial: int)
      ensures available == initial && blocked == 0
    {
      available := initial;
      blocked := 0;
    }

    method DecreaseAvailableBalance(amount: int)
      modifies this
      ensures available == old(available) - amount && blocked == old(blocked)
    {
      available := available - amount;
    }

    method IncrementBlockedBalance(amount: int)
      modifies this
      ensures blocked == old(blocked) + amount && available == old(available)
    {
      blocked := blocked + amount;
    }

    method DecreaseBlockedBalance(amount: int)
      modifies this
      ensures blocked == old(blocked) - amount && available == old(available)
    {
      blocked := blocked - amount;
    }

    method IncrementAvailableBalance(amount: int)
      modifies this
      ensures available == old(available) + amount && blocked == old(blocked)
    {
      available := available + amount;
    }
  }

  /** Reservation: `amount` moves from the owner's available to its blocked balance. */
  function ReserveIn(m: map<Owner, Balance>, o: Owner, amount: int): map<Owner, Balance>
    requires o in m
  {
    m[o := Balance(m[o].available - amount, m[o].blocked + amount)]
  }

  /** Settlement: `amount` leaves the payer's blocked balance and enters the payee's available balance. */
  function SettleIn(m: map<Owner, Balance>, payer: Owner, payee: Owner, amount: int): map<Owner, Balance>
    requires payer in m && payee in m
  {
    var afterPayer := m[payer := m[payer].(blocked := m[payer].blocked - amount)];
    afterPayer[payee := afterPayer[payee].(available := afterPayer[payee].available + amount)]
  }

  /** Reversal: `amount` goes back from the payer's blocked balance to its available balance. */
  function ReleaseIn(m: map<Owner, Balance>, o: Owner, amount: int): map<Owner, Balance>
    requires o in m
  {
    m[o := Balance(m[o].available + amount, m[o].blocked - amount)]
  }

  /** Releasing what was just reserved gives back the balances as they were. */
  lemma ReleaseUndoesReserve(m: map<Owner, Balance>, o: Owner, amount: int)
    requires o in m
    ensures o in ReserveIn(m, o, amount)
    ensures ReleaseIn(ReserveIn(m, o, amount), o, amount) == m
  {
    var back := ReleaseIn(ReserveIn(m, o, amount), o, amount);
    assert back.Keys == m.Keys;
    assert forall p | p in m :: back[p] == m[p];
  }

  /** The money held by the wallets of `keys`. */
  ghost function TotalOver(keys: set<Owner>, m: map<Owner, Balance>): int
    requires keys <= m.Keys
    decreases keys
  {
    if keys == {} then 0
    else
      var o :| o in keys;
      Total(m[o]) + TotalOver(keys - {o}, m)
  }

  /** The money held by all wallets of `m`. */
  ghost function TotalFunds(m: map<Owner, Balance>): int
  {
    TotalOver(m.Keys, m)
  }

  /** Any wallet of `keys` can be split off the total, whichever one the definition picked. */
  lemma {:induction false} TotalOverRemove(keys: set<Owner>, m: map<Owner, Balance>, o: Owner)
    requires keys <= m.Keys && o in keys
    ensures TotalOver(keys, m) == Total(m[o]) + TotalOver(keys - {o}, m)
    decreases keys
  {
    var p :| p in keys && TotalOver(keys, m) == Total(m[p]) + TotalOver(keys - {p}, m);
    if p != o {
      TotalOverRemove(keys - {p}, m, o);
      TotalOverRemove(keys - {o}, m, p);
      assert keys - {p} - {o} == keys - {o} - {p};
    }
  }

  /** Two maps that agree on `keys` hold the same money on `keys`. */
  lemma {:induction false} TotalOverAgree(keys: set<Owner>, m1: map<Owner, Balance>, m2: map<Owner, Balance>)
    requires keys <= m1.Keys && keys <= m2.Keys
    requires forall o :: o in keys ==> m1[o] == m2[o]
    ensures TotalOver(keys, m1) == TotalOver(keys, m2)
    decreases keys
  {
    if keys != {} {
      var o :| o in keys;
      TotalOverRemove(keys, m1, o);
      TotalOverRemove(keys, m2, o);
      TotalOverAgree(keys - {o}, m1, m2);
    }
  }

  /** Replacing one wallet's balances changes the total by exactly the difference. */
  lemma TotalFundsUpdate(m: map<Owner, Balance>, o: Owner, b: Balance)
    requires o in m
    ensures TotalFunds(m[o := b]) == TotalFunds(m) - Total(m[o]) + Total(b)
  {
    var m' := m[o := b];
    assert m'.Keys == m.Keys;
    TotalOverRemove(m.Keys, m', o);
    TotalOverRemove(m.Keys, m, o);
    TotalOverAgree(m.Keys - {o}, m', m);
  }

  /** A reservation keeps the money of every wallet, and so of all of them. */
  lemma ReserveConservesFunds(m: map<Owner, Balance>, o: Owner, amount: int)
    requires o in m
    ensures TotalFunds(ReserveIn(m, o, amount)) == TotalFunds(m)
  {
    TotalFundsUpdate(m, o, Balance(m[o].available - amount, m[o].blocked + amount));
  }

  /** A settlement moves money between two wallets: the total over all wallets is unchanged. */
  lemma SettleConservesFunds(m: map<Owner, Balance>, payer: Owner, payee: Owner, amount: int)
    requires payer in m && payee in m
    ensures TotalFunds(SettleIn(m, payer, payee, amount)) == TotalFunds(m)
  {
    var afterPayer := m[payer := m[payer].(blocked := m[payer].blocked - amount)];
    TotalFundsUpdate(m, payer, afterPayer[payer]);
    TotalFundsUpdate(afterPayer, payee, afterPayer[payee].(available := afterPayer[payee].available + amount));
  }

  /** A reversal keeps the money of every wallet, and so of all of them. */
  lemma ReleaseConservesFunds(m: map<Owner, Balance>, o: Owner, amount: int)
    requires o in m
    ensures TotalFunds(ReleaseIn(m, o, amount)) == TotalFunds(m)
  {
    TotalFundsUpdate(m, o, Balance(m[o].available + amount, m[o].blocked - amount));
  }
}
