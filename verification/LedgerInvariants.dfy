/**
  Conservation of the supply, exactness of the 64-bit balance arithmetic, and what
  the nonces and the transaction counter count.
 */
module LedgerInvariants {
  import opened Bytes
  import opened Types
  import opened Ledger

  // ---- sums over accounts ----

  function BalanceIn(a: Account): nat { a.balance }
  function NonceIn(a: Account): nat { a.nonce }

  ghost function Sum(m: Accounts, w: Account -> nat): nat
    decreases |m|
  {
    if m == map[] then 0
    else
      var k :| k in m;
      assert |m - {k}| < |m| by { assert (m - {k}).Keys == m.Keys - {k}; }
      w(m[k]) + Sum(m - {k}, w)
  }

  lemma {:induction false} SumRemove(m: Accounts, w: Account -> nat, k: string)
    requires k in m
    ensures Sum(m, w) == w(m[k]) + Sum(m - {k}, w)
    decreases |m|
  {
    var l :| l in m && Sum(m, w) == w(m[l]) + Sum(m - {l}, w);
    if l == k {
    } else {
      assert (m - {l}).Keys == m.Keys - {l} && (m - {k}).Keys == m.Keys - {k};
      SumRemove(m - {l}, w, k);
      SumRemove(m - {k}, w, l);
      assert m - {l} - {k} == m - {k} - {l};
    }
  }

  lemma SumUpdate(m: Accounts, w: Account -> nat, k: string, a: Account)
    ensures Sum(m[k := a], w) == Sum(m, w) + w(a) - (if k in m then w(m[k]) else 0)
    ensures k in m ==> w(m[k]) <= Sum(m, w)
  {
    SumRemove(m[k := a], w, k);
    if k in m {
      SumRemove(m, w, k);
      assert m[k := a] - {k} == m - {k};
    } else {
      assert m[k := a] - {k} == m;
    }
  }

  ghost function Total(s: State): nat {
    Sum(s.accounts, BalanceIn)
  }

  // ---- one transaction, one block ----

  /** A transaction is executed, and counted, iff its sender's balance covers amount plus fee as a word. */
  lemma ExecutesIff(s: State, tx: Transaction)
    ensures AfterTx(s, tx).totalTxs != s.totalTxs <==> Balance(s, tx.from) >= (tx.amount + tx.fee) % TWO_64
    ensures AfterTx(s, tx).totalTxs == s.totalTxs ==> AfterTx(s, tx) == s
  {
    hide Debit, Credit;
  }

  /**
    The two accounts an executed transaction touches: the sender's is debited and its nonce counted
    first, so that a transfer to oneself is credited to what is left; unknown accounts start empty.
   */
  lemma ExecutedAccounts(s: State, tx: Transaction)
    requires Balance(s, tx.from) >= (tx.amount + tx.fee) % TWO_64
    ensures var from, to := HexEncode(tx.from), HexEncode(tx.to);
      var payer := if from in s.accounts then s.accounts[from] else Account(tx.from, 0, 0);
      var left := payer.balance - (tx.amount + tx.fee) % TWO_64;
      0 <= left &&
      var paid := s.accounts[from := Account(payer.address, left, (payer.nonce + 1) % TWO_64)];
      var payee := if to in paid then paid[to] else Account(tx.to, 0, 0);
      AfterTx(s, tx) ==
      State(paid[to := Account(payee.address, (payee.balance + tx.amount) % TWO_64, payee.nonce)],
            s.totalSupply, (s.totalTxs + 1) % TWO_64)
  {
    hide HexEncode;
  }

  /** Transactions are executed first to last. */
  lemma {:induction false} FirstTxFirst(s: State, tx: Transaction, rest: seq<Transaction>)
    ensures AfterTxs(s, []) == s && AfterTxs(s, [tx] + rest) == AfterTxs(AfterTx(s, tx), rest)
    decreases |rest|
  {
    var txs := [tx] + rest;
    if rest == [] {
      assert txs[..0] == [] && AfterTxs(s, txs) == AfterTx(AfterTxs(s, []), tx);
    } else {
      var front := rest[..|rest| - 1];
      assert txs[..|txs| - 1] == [tx] + front;
      FirstTxFirst(s, tx, front);
    }
  }

  /** Before its transactions a block of height 0 mints 900 and 100 million, unless there is supply already. */
  lemma BlockMints(mint: Mint, s: State, block: Block)
    ensures AfterBlock(mint, s, block) ==
      if block.header.height != 0 || s.totalSupply != 0 then AfterTxs(s, block.transactions)
      else
        var minted := s.accounts[HexEncode(mint.treasury) := Account(mint.treasury, 900_000_000, 0)]
                                [HexEncode(mint.faucet) := Account(mint.faucet, 100_000_000, 0)];
        AfterTxs(State(minted, 1_000_000_000, s.totalTxs), block.transactions)
  {
    hide AfterTxs, HexEncode;
  }

  // ---- what one transaction does to the total ----

  predicate Fits(tx: Transaction) {
    tx.amount + tx.fee < TWO_64
  }

  /** The receiver's balance, debited first if it is the sender, plus the amount needs a 65th bit. */
  predicate CreditWraps(s: State, tx: Transaction) {
    var cost := (tx.amount + tx.fee) % TWO_64;
    Balance(s, tx.to) - (if tx.to == tx.from then cost else 0) + tx.amount >= TWO_64
  }

  /** Fees that execution takes out of circulation. */
  function BurnedByTx(s: State, tx: Transaction): nat {
    if Balance(s, tx.from) >= (tx.amount + tx.fee) % TWO_64 then tx.fee else 0
  }

  lemma BalanceAfterDebit(m: Accounts, tx: Transaction, a: Address)
    requires EntryOr(m, tx.from).balance >= Cost(tx)
    ensures EntryOr(Debit(m, tx), a).balance == EntryOr(m, a).balance - (if tx.from == a then Cost(tx) else 0)
  {
    if Key(a) == Key(tx.from) { HexInjective(a, tx.from); }
    hide HexEncode, Cost;
  }

  lemma CreditWrapsIff(s: State, tx: Transaction)
    requires Balance(s, tx.from) >= (tx.amount + tx.fee) % TWO_64
    ensures EntryOr(s.accounts, tx.from).balance >= Cost(tx)
    ensures CreditWraps(s, tx) <==> EntryOr(Debit(s.accounts, tx), tx.to).balance + tx.amount >= TWO_64
  {
    BalanceAfterDebit(s.accounts, tx, tx.to);
    hide EntryOr, Debit;
  }

  lemma DebitTotal(m: Accounts, tx: Transaction)
    requires EntryOr(m, tx.from).balance >= Cost(tx)
    ensures Sum(Debit(m, tx), BalanceIn) == Sum(m, BalanceIn) - Cost(tx)
  {
    var a := EntryOr(m, tx.from);
    SumUpdate(m, BalanceIn, Key(tx.from), a.(balance := a.balance - Cost(tx), nonce := WrapAdd(a.nonce, 1)));
  }

  lemma CreditTotal(m: Accounts, tx: Transaction)
    ensures var a := EntryOr(m, tx.to);
      Sum(Credit(m, tx), BalanceIn) == Sum(m, BalanceIn) - a.balance + WrapAdd(a.balance, tx.amount)
    ensures EntryOr(m, tx.to).balance <= Sum(m, BalanceIn)
  {
    var a := EntryOr(m, tx.to);
    SumUpdate(m, BalanceIn, Key(tx.to), a.(balance := WrapAdd(a.balance, tx.amount)));
  }

  lemma ExecutedTotal(s: State, tx: Transaction)
    requires Balance(s, tx.from) >= (tx.amount + tx.fee) % TWO_64
    ensures EntryOr(s.accounts, tx.from).balance >= Cost(tx)
    ensures var payee := EntryOr(Debit(s.accounts, tx), tx.to).balance;
      Total(AfterTx(s, tx)) == Total(s) - WrapAdd(tx.amount, tx.fee) - payee + WrapAdd(payee, tx.amount)
  {
    DebitTotal(s.accounts, tx);
    CreditTotal(Debit(s.accounts, tx), tx);
    hide Sum, Debit, Credit;
  }

  /** Execution keeps total plus burned fees, iff the debit and the credit wrap around together. */
  lemma TxConservesIff(s: State, tx: Transaction)
    ensures Total(AfterTx(s, tx)) + BurnedByTx(s, tx) == Total(s) <==>
            (Balance(s, tx.from) >= (tx.amount + tx.fee) % TWO_64 ==> (Fits(tx) <==> !CreditWraps(s, tx)))
  {
    if Balance(s, tx.from) >= (tx.amount + tx.fee) % TWO_64 {
      hide AfterTx, Debit, Total, EntryOr, Balance, CreditWraps;
      CreditWrapsIff(s, tx);
      ExecutedTotal(s, tx);
      WrapParity(Total(s), EntryOr(Debit(s.accounts, tx), tx.to).balance, tx.amount, tx.fee);
    }
  }

  /** A wrapped cost and a wrapped credit cancel, one alone does not. */
  lemma WrapParity(total: int, balance: u64, amount: u64, fee: u64)
    ensures total - WrapAdd(amount, fee) - balance + WrapAdd(balance, amount) + fee == total <==>
            (amount + fee < TWO_64 <==> balance + amount < TWO_64)
  {
  }

  /** Without the bound on amount plus fee conservation fails: here a total of zero turns positive. */
  lemma UnfitTxBreaksConservation(tx: Transaction)
    requires tx.amount == TWO_64 - 1 && tx.fee == 1
    ensures Total(AfterTx(Empty(), tx)) + BurnedByTx(Empty(), tx) != Total(Empty())
  {
    TxConservesIff(Empty(), tx);
    assert EntryOr(Debit(map[], tx), tx.to).balance == 0;
  }

  // ---- whole logs ----

  function BurnedByTxs(s: State, txs: seq<Transaction>): nat {
    if txs == [] then 0
    else BurnedByTxs(s, txs[..|txs| - 1]) + BurnedByTx(AfterTxs(s, txs[..|txs| - 1]), txs[|txs| - 1])
  }

  function Burned(mint: Mint, chain: seq<Block>): nat {
    if chain == [] then 0
    else
      var front, last := chain[..|chain| - 1], chain[|chain| - 1];
      Burned(mint, front) + BurnedByTxs(Opening(mint, Replay(mint, front), last), last.transactions)
  }

  /** All supply is in the accounts or burned, and there is either none yet or all of it. */
  ghost predicate Conserved(s: State, burned: nat) {
    Total(s) + burned == s.totalSupply && (s.totalSupply == 0 || s.totalSupply == TOTAL_SUPPLY)
  }

  /** Executing the transaction is exact: neither its cost nor the receiver's new balance wraps around. */
  predicate Exact(s: State, tx: Transaction) {
    Balance(s, tx.from) >= (tx.amount + tx.fee) % TWO_64 ==> Fits(tx) && !CreditWraps(s, tx)
  }

  predicate AllExact(s: State, txs: seq<Transaction>) {
    txs != [] ==>
      && AllExact(s, txs[..|txs| - 1])
      && Exact(AfterTxs(s, txs[..|txs| - 1]), txs[|txs| - 1])
  }

  predicate LogExact(mint: Mint, chain: seq<Block>) {
    chain != [] ==>
      var front, last := chain[..|chain| - 1], chain[|chain| - 1];
      LogExact(mint, front) && AllExact(Opening(mint, Replay(mint, front), last), last.transactions)
  }

  lemma TxIsExact(s: State, burned: nat, tx: Transaction)
    requires Conserved(s, burned) && Fits(tx)
    ensures Exact(s, tx) && Conserved(AfterTx(s, tx), burned + BurnedByTx(s, tx))
  {
    TxConservesIff(s, tx);
    if Balance(s, tx.from) >= (tx.amount + tx.fee) % TWO_64 {
      DebitTotal(s.accounts, tx);
      CreditTotal(Debit(s.accounts, tx), tx);
      CreditWrapsIff(s, tx);
      hide CreditWraps, Debit;
    }
  }

  lemma {:induction false} TxsAreExact(s: State, burned: nat, txs: seq<Transaction>)
    requires Conserved(s, burned) && forall tx | tx in txs :: Fits(tx)
    ensures AllExact(s, txs) && Conserved(AfterTxs(s, txs), burned + BurnedByTxs(s, txs))
  {
    if txs == [] {
    } else {
      var front := txs[..|txs| - 1];
      TxsAreExact(s, burned, front);
      TxIsExact(AfterTxs(s, front), burned + BurnedByTxs(s, front), txs[|txs| - 1]);
    }
  }

  /** The genesis mint creates exactly the declared supply, iff treasury and faucet are different accounts. */
  lemma GenesisConservesIff(mint: Mint, s: State, burned: nat)
    requires Conserved(s, burned) && s.totalSupply == 0
    ensures Conserved(AfterGenesis(mint, s), burned) <==> mint.treasury != mint.faucet
  {
    var t, f := Account(mint.treasury, TREASURY_SHARE, 0), Account(mint.faucet, FAUCET_SHARE, 0);
    SumUpdate(s.accounts, BalanceIn, Key(mint.treasury), t);
    SumUpdate(s.accounts, BalanceIn, Key(mint.faucet), f);
    SumUpdate(s.accounts[Key(mint.treasury) := t], BalanceIn, Key(mint.faucet), f);
    if Key(mint.treasury) == Key(mint.faucet) {
      HexInjective(mint.treasury, mint.faucet);
    }
  }

  /**
    Conservation over every log: all balances plus all burned fees are the supply, and
    no balance in any reachable state over- or underflows.
   */
  lemma {:induction false} LogConserves(mint: Mint, chain: seq<Block>)
    requires mint.treasury != mint.faucet
    requires forall i, j | 0 <= i < |chain| && 0 <= j < |chain[i].transactions| :: Fits(chain[i].transactions[j])
    ensures Conserved(Replay(mint, chain), Burned(mint, chain))
    ensures LogExact(mint, chain)
  {
    if chain == [] {
    } else {
      var front, last := chain[..|chain| - 1], chain[|chain| - 1];
      forall i, j | 0 <= i < |front| && 0 <= j < |front[i].transactions|
        ensures Fits(front[i].transactions[j])
      {
        assert front[i] == chain[i];
      }
      LogConserves(mint, front);
      var s := Replay(mint, front);
      if Mints(s, last) { GenesisConservesIff(mint, s, Burned(mint, front)); }
      TxsAreExact(Opening(mint, s, last), Burned(mint, front), last.transactions);
    }
  }

  // ---- counting executions ----

  /** Those whose sender's balance, at their turn, covers amount plus fee as a word. */
  function ExecutedTxs(s: State, txs: seq<Transaction>): seq<Transaction> {
    if txs == [] then []
    else
      var front, last := txs[..|txs| - 1], txs[|txs| - 1];
      var cost := (last.amount + last.fee) % TWO_64;
      ExecutedTxs(s, front) + (if Balance(AfterTxs(s, front), last.from) >= cost then [last] else [])
  }

  /** The transactions of a log that were executed, in order. */
  function Executed(mint: Mint, chain: seq<Block>): seq<Transaction> {
    if chain == [] then []
    else
      var front, last := chain[..|chain| - 1], chain[|chain| - 1];
      Executed(mint, front) + ExecutedTxs(Opening(mint, Replay(mint, front), last), last.transactions)
  }

  function SentBy(txs: seq<Transaction>, a: Address): nat {
    if txs == [] then 0
    else SentBy(txs[..|txs| - 1], a) + (if txs[|txs| - 1].from == a then 1 else 0)
  }

  lemma SentByNext(txs: seq<Transaction>, tx: Transaction, a: Address)
    ensures SentBy(txs + [tx], a) == SentBy(txs, a) + (if tx.from == a then 1 else 0)
  {
    assert (txs + [tx])[..|txs|] == txs;
  }

  /** Nonces and counter, as 64-bit words, count the executed transactions `done`. */
  ghost predicate Counts(s: State, done: seq<Transaction>) {
    && (forall a: Address :: Nonce(s, a) == SentBy(done, a) % TWO_64)
    && s.totalTxs == |done| % TWO_64
    && (|done| < TWO_64 ==> Sum(s.accounts, NonceIn) == s.totalTxs)
    && WellKeyed(s)
  }

  lemma NonceAfter(s: State, tx: Transaction, a: Address)
    requires Balance(s, tx.from) >= (tx.amount + tx.fee) % TWO_64
    ensures Nonce(AfterTx(s, tx), a) == if a == tx.from then WrapAdd(Nonce(s, a), 1) else Nonce(s, a)
  {
    if Key(a) == Key(tx.from) { HexInjective(a, tx.from); }
    if Key(a) == Key(tx.to) { HexInjective(a, tx.to); }
    if Key(tx.from) == Key(tx.to) { HexInjective(tx.from, tx.to); }
  }

  lemma NonceSumAfter(s: State, tx: Transaction)
    requires Balance(s, tx.from) >= (tx.amount + tx.fee) % TWO_64 && Sum(s.accounts, NonceIn) < TWO_64 - 1
    ensures Sum(AfterTx(s, tx).accounts, NonceIn) == Sum(s.accounts, NonceIn) + 1
  {
    hide HexEncode, Sum;
    var m := s.accounts;
    var payer := EntryOr(m, tx.from);
    SumUpdate(m, NonceIn, Key(tx.from), payer.(balance := payer.balance - Cost(tx), nonce := WrapAdd(payer.nonce, 1)));
    var payee := EntryOr(Debit(m, tx), tx.to);
    SumUpdate(Debit(m, tx), NonceIn, Key(tx.to), payee.(balance := WrapAdd(payee.balance, tx.amount)));
  }

  /** Counting up a word is counting, modulo the word. */
  lemma CountUp(n: nat)
    ensures WrapAdd(n % TWO_64, 1) == (n + 1) % TWO_64
  {
  }

  lemma NoncesCount(s: State, done: seq<Transaction>, tx: Transaction, a: Address)
    requires Balance(s, tx.from) >= (tx.amount + tx.fee) % TWO_64 && Nonce(s, a) == SentBy(done, a) % TWO_64
    ensures Nonce(AfterTx(s, tx), a) == SentBy(done + [tx], a) % TWO_64
  {
    NonceAfter(s, tx, a);
    SentByNext(done, tx, a);
    CountUp(SentBy(done, a));
  }

  ghost predicate WellKeyed(s: State) {
    forall k | k in s.accounts :: Key(s.accounts[k].address) == k
  }

  lemma TxKeepsKeys(s: State, tx: Transaction)
    requires WellKeyed(s)
    ensures WellKeyed(AfterTx(s, tx))
  {
    hide Key;
  }

  lemma CounterCounts(s: State, done: seq<Transaction>, tx: Transaction)
    requires Balance(s, tx.from) >= (tx.amount + tx.fee) % TWO_64 && s.totalTxs == |done| % TWO_64
    requires |done| < TWO_64 ==> Sum(s.accounts, NonceIn) == s.totalTxs
    ensures var t := AfterTx(s, tx);
      && t.totalTxs == |done + [tx]| % TWO_64
      && (|done + [tx]| < TWO_64 ==> Sum(t.accounts, NonceIn) == t.totalTxs)
  {
    CountUp(|done|);
    assert AfterTx(s, tx).totalTxs == WrapAdd(s.totalTxs, 1);
    hide AfterTx, Sum;
    if |done + [tx]| < TWO_64 { NonceSumAfter(s, tx); }
  }

  lemma TxCounts(s: State, done: seq<Transaction>, tx: Transaction)
    requires Counts(s, done)
    ensures Counts(AfterTx(s, tx), done + (if Balance(s, tx.from) >= (tx.amount + tx.fee) % TWO_64 then [tx] else []))
  {
    TxKeepsKeys(s, tx);
    if Balance(s, tx.from) >= (tx.amount + tx.fee) % TWO_64 {
      var t := AfterTx(s, tx);
      hide AfterTx, Sum, SentBy, WrapAdd, WellKeyed, Nonce, Balance;
      CounterCounts(s, done, tx);
      forall a: Address
        ensures Nonce(t, a) == SentBy(done + [tx], a) % TWO_64
      {
        NoncesCount(s, done, tx, a);
      }
    } else {
      assert done + [] == done;
    }
  }

  lemma {:induction false} TxsCount(s: State, done: seq<Transaction>, txs: seq<Transaction>)
    requires Counts(s, done)
    ensures Counts(AfterTxs(s, txs), done + ExecutedTxs(s, txs))
  {
    hide Counts, Balance, AfterTx;
    if txs == [] {
      assert done + [] == done;
    } else {
      var front, last := txs[..|txs| - 1], txs[|txs| - 1];
      TxsCount(s, done, front);
      TxCounts(AfterTxs(s, front), done + ExecutedTxs(s, front), last);
      var cost := (last.amount + last.fee) % TWO_64;
      var more := if Balance(AfterTxs(s, front), last.from) >= cost then [last] else [];
      assert done + ExecutedTxs(s, front) + more == done + (ExecutedTxs(s, front) + more);
    }
  }

  /** The mint leaves every nonce at zero. */
  lemma GenesisCounts(mint: Mint)
    ensures Counts(AfterGenesis(mint, Empty()), [])
  {
    var t, f := Account(mint.treasury, TREASURY_SHARE, 0), Account(mint.faucet, FAUCET_SHARE, 0);
    SumUpdate(map[], NonceIn, Key(mint.treasury), t);
    SumUpdate(map[Key(mint.treasury) := t], NonceIn, Key(mint.faucet), f);
  }

  lemma SupplyStays(s: State, txs: seq<Transaction>)
    ensures AfterTxs(s, txs).totalSupply == s.totalSupply
  {
  }

  /**
    On a log that starts with a height-0 block: each nonce counts its address's executed
    transactions, the counter counts all of them, and the nonces add up to the counter.
   */
  lemma {:induction false} LogCounts(mint: Mint, chain: seq<Block>)
    requires chain != [] && chain[0].header.height == 0
    ensures Counts(Replay(mint, chain), Executed(mint, chain))
    ensures Replay(mint, chain).totalSupply == TOTAL_SUPPLY
  {
    var front, last := chain[..|chain| - 1], chain[|chain| - 1];
    var s := Replay(mint, front);
    if front == [] {
      GenesisCounts(mint);
    } else {
      assert front[0] == chain[0];
      LogCounts(mint, front);
    }
    SupplyStays(Opening(mint, s, last), last.transactions);
    TxsCount(Opening(mint, s, last), Executed(mint, front), last.transactions);
  }

  // ---- what a block leaves alone ----

  predicate Names(txs: seq<Transaction>, k: string) {
    exists i | 0 <= i < |txs| :: Key(txs[i].from) == k || Key(txs[i].to) == k
  }

  lemma {:induction false} TxsLeaveOthersAlone(s: State, txs: seq<Transaction>, k: string)
    ensures k in s.accounts ==> k in AfterTxs(s, txs).accounts
    ensures !Names(txs, k) ==>
      (k in AfterTxs(s, txs).accounts <==> k in s.accounts)
      && (k in s.accounts ==> AfterTxs(s, txs).accounts[k] == s.accounts[k])
  {
    if txs == [] {
    } else {
      var front := txs[..|txs| - 1];
      TxsLeaveOthersAlone(s, front, k);
      if !Names(txs, k) {
        forall i | 0 <= i < |front| ensures Key(front[i].from) != k && Key(front[i].to) != k {
          assert front[i] == txs[i];
        }
        var last := txs[|txs| - 1];
        assert Key(last.from) != k && Key(last.to) != k;
      }
    }
  }

  /** A block removes no account, and changes none it does not name, the two mint accounts of block 0 excepted. */
  lemma BlockLeavesOthersAlone(mint: Mint, s: State, block: Block, k: string)
    ensures k in s.accounts ==> k in AfterBlock(mint, s, block).accounts
    ensures
      var minted := Mints(s, block) && (k == Key(mint.treasury) || k == Key(mint.faucet));
      var after := AfterBlock(mint, s, block).accounts;
      !minted && !Names(block.transactions, k) ==>
        (k in after <==> k in s.accounts) && (k in s.accounts ==> after[k] == s.accounts[k])
  {
    TxsLeaveOthersAlone(Opening(mint, s, block), block.transactions, k);
  }
}
