/**
  What a balance is: the mint's share plus everything received minus everything
  spent in the transactions the log executed.
 */
module BalanceHistory {
  import opened Bytes
  import opened Types
  import opened Ledger
  import opened LedgerInvariants

  function MintedTo(mint: Mint, a: Address): nat {
    if a == mint.faucet then FAUCET_SHARE else if a == mint.treasury then TREASURY_SHARE else 0
  }

  function ReceivedBy(txs: seq<Transaction>, a: Address): nat {
    if txs == [] then 0
    else ReceivedBy(txs[..|txs| - 1], a) + (if txs[|txs| - 1].to == a then txs[|txs| - 1].amount else 0)
  }

  function SpentBy(txs: seq<Transaction>, a: Address): nat {
    if txs == [] then 0
    else SpentBy(txs[..|txs| - 1], a)
         + (if txs[|txs| - 1].from == a then txs[|txs| - 1].amount + txs[|txs| - 1].fee else 0)
  }

  function Net(txs: seq<Transaction>, a: Address): int {
    ReceivedBy(txs, a) - SpentBy(txs, a)
  }

  lemma {:induction false} NetConcat(s: seq<Transaction>, t: seq<Transaction>, a: Address)
    ensures Net(s + t, a) == Net(s, a) + Net(t, a)
    decreases |t|
  {
    if t == [] {
      assert s + t == s;
    } else {
      assert (s + t)[..|s + t| - 1] == s + t[..|t| - 1];
      NetConcat(s, t[..|t| - 1], a);
    }
  }

  lemma NetOfFew(tx: Transaction, a: Address)
    ensures Net([], a) == 0
    ensures Net([tx], a) == (if tx.to == a then tx.amount else 0) - (if tx.from == a then tx.amount + tx.fee else 0)
  {
    var one := [tx];
    assert one[..|one| - 1] == [];
  }

  lemma BalanceAfterCredit(m: Accounts, tx: Transaction, a: Address)
    ensures EntryOr(Credit(m, tx), a).balance ==
            if tx.to == a then WrapAdd(EntryOr(m, a).balance, tx.amount) else EntryOr(m, a).balance
  {
    if Key(a) == Key(tx.to) { HexInjective(a, tx.to); }
    hide HexEncode, WrapAdd;
  }

  /** Debit and credit of one account, as the words they are and as the integers they stand for. */
  lemma WordArithmetic(before: u64, amount: u64, fee: u64, sends: bool, receives: bool)
    requires sends ==> before >= WrapAdd(amount, fee)
    ensures var debited := before - (if sends then WrapAdd(amount, fee) else 0);
      var after := if receives then WrapAdd(debited, amount) else debited;
      var expected := before + (if receives then amount else 0) - (if sends then amount + fee else 0);
      && after == expected % TWO_64
      && (amount + fee < TWO_64 && (receives ==> debited + amount < TWO_64) ==> after == expected)
  {
  }

  /** A balance that follows `expected` modulo the word, and follows it exactly when `exact`. */
  ghost predicate Follows(balance: u64, expected: int, exact: bool) {
    balance == expected % TWO_64 && (exact ==> balance == expected)
  }

  /** One executed transaction moves its amount from sender to receiver, costs the sender the fee, and moves no more. */
  lemma BalanceAfterTx(s: State, tx: Transaction, a: Address)
    requires Balance(s, tx.from) >= (tx.amount + tx.fee) % TWO_64
    ensures Follows(Balance(AfterTx(s, tx), a), Balance(s, a) + Net([tx], a), Exact(s, tx))
  {
    hide Net, EntryOr, Debit, Credit, WrapAdd, CreditWraps;
    CreditWrapsIff(s, tx);
    NetOfFew(tx, a);
    BalanceAfterDebit(s.accounts, tx, a);
    BalanceAfterCredit(Debit(s.accounts, tx), tx, a);
    WordArithmetic(Balance(s, a), tx.amount, tx.fee, tx.from == a, tx.to == a);
  }

  lemma FollowsOn(before: u64, expected: int, exact: bool, after: u64, change: int, still: bool)
    requires Follows(before, expected, exact) && Follows(after, before + change, still)
    ensures Follows(after, expected + change, exact && still)
  {
  }

  lemma {:induction false} BalanceAfterTxs(s: State, txs: seq<Transaction>, a: Address)
    ensures Follows(Balance(AfterTxs(s, txs), a), Balance(s, a) + Net(ExecutedTxs(s, txs), a), AllExact(s, txs))
  {
    hide Balance, AfterTx, Net, Exact, Follows;
    if txs == [] {
      FollowsItself(s, a);
    } else {
      var front, last := txs[..|txs| - 1], txs[|txs| - 1];
      BalanceAfterTxs(s, front, a);
      NextFollows(s, txs, a);
    }
  }

  lemma FollowsItself(s: State, a: Address)
    ensures Follows(Balance(s, a), Balance(s, a) + Net([], a), true)
  {
  }

  lemma NextFollows(s: State, txs: seq<Transaction>, a: Address)
    requires txs != []
    requires var front := txs[..|txs| - 1];
      Follows(Balance(AfterTxs(s, front), a), Balance(s, a) + Net(ExecutedTxs(s, front), a), AllExact(s, front))
    ensures Follows(Balance(AfterTxs(s, txs), a), Balance(s, a) + Net(ExecutedTxs(s, txs), a), AllExact(s, txs))
  {
    hide Balance, AfterTx, Net, Exact, Follows;
    var front, last := txs[..|txs| - 1], txs[|txs| - 1];
    var t, done := AfterTxs(s, front), ExecutedTxs(s, front);
    if Balance(t, last.from) >= (last.amount + last.fee) % TWO_64 {
      BalanceAfterTx(t, last, a);
      NetConcat(done, [last], a);
      FollowsOn(Balance(t, a), Balance(s, a) + Net(done, a), AllExact(s, front),
                Balance(AfterTx(t, last), a), Net([last], a), Exact(t, last));
    } else {
      SkippedIsExact(t, last);
      assert done + [] == done;
    }
  }

  lemma SkippedIsExact(s: State, tx: Transaction)
    requires Balance(s, tx.from) < (tx.amount + tx.fee) % TWO_64
    ensures AfterTx(s, tx) == s && Exact(s, tx)
  {
  }

  lemma BalanceAfterGenesis(mint: Mint, a: Address)
    ensures Balance(AfterGenesis(mint, Empty()), a) == MintedTo(mint, a)
  {
    if Key(a) == Key(mint.treasury) { HexInjective(a, mint.treasury); }
    if Key(a) == Key(mint.faucet) { HexInjective(a, mint.faucet); }
    hide HexEncode;
  }

  /**
    On a log that starts with a height-0 block every balance is the mint's share plus
    receipts minus payments, modulo the word; exactly so when nothing wraps around.
   */
  lemma {:induction false} BalanceIsHistory(mint: Mint, chain: seq<Block>, a: Address)
    requires chain != [] && chain[0].header.height == 0
    ensures Follows(Balance(Replay(mint, chain), a), MintedTo(mint, a) + Net(Executed(mint, chain), a),
                    LogExact(mint, chain))
  {
    hide Balance, Net, AfterTxs, ExecutedTxs, AllExact, MintedTo, Follows, AfterGenesis;
    var front, last := chain[..|chain| - 1], chain[|chain| - 1];
    var s, done := Replay(mint, front), Executed(mint, front);
    var opening := Opening(mint, s, last);
    var more := ExecutedTxs(opening, last.transactions);
    if front == [] {
      OpeningFollows(mint, a);
    } else {
      assert front[0] == chain[0];
      BalanceIsHistory(mint, front, a);
      LogCounts(mint, front);
    }
    BalanceAfterTxs(opening, last.transactions, a);
    NetConcat(done, more, a);
    FollowsOn(Balance(opening, a), MintedTo(mint, a) + Net(done, a), LogExact(mint, front),
              Balance(Replay(mint, chain), a), Net(more, a), AllExact(opening, last.transactions));
  }

  lemma OpeningFollows(mint: Mint, a: Address)
    ensures Follows(Balance(AfterGenesis(mint, Empty()), a), MintedTo(mint, a) + Net([], a), true)
  {
    BalanceAfterGenesis(mint, a);
    hide Balance, AfterGenesis;
  }

  /** With a mint of two accounts and costs that fit a word nothing wraps, and the history is exact. */
  lemma FittingLogIsExact(mint: Mint, chain: seq<Block>, a: Address)
    requires chain != [] && chain[0].header.height == 0 && mint.treasury != mint.faucet
    requires forall i, j | 0 <= i < |chain| && 0 <= j < |chain[i].transactions| :: Fits(chain[i].transactions[j])
    ensures Balance(Replay(mint, chain), a) ==
            MintedTo(mint, a) + ReceivedBy(Executed(mint, chain), a) - SpentBy(Executed(mint, chain), a)
  {
    hide Balance, Replay, Executed, MintedTo, ReceivedBy, SpentBy, Conserved, Burned, LogExact;
    LogConserves(mint, chain);
    BalanceIsHistory(mint, chain, a);
  }

  // ---- replayed transactions ----

  lemma ExecutedTwice(s: State, tx: Transaction)
    requires Balance(s, tx.from) >= (tx.amount + tx.fee) % TWO_64
    ensures ExecutedTxs(s, [tx, tx]) ==
            if Balance(AfterTx(s, tx), tx.from) >= (tx.amount + tx.fee) % TWO_64 then [tx, tx] else [tx]
  {
    hide Balance, AfterTx;
    var one, two := [tx], [tx, tx];
    assert two[..1] == one && one[..0] == [];
    assert AfterTxs(s, one) == AfterTx(s, tx) && ExecutedTxs(s, one) == [tx];
  }

  /**
    The nonce guards nothing during execution: whatever nonce it carries, the same
    transaction submitted again runs again exactly when what its sender has left covers it
    once more; when nothing wraps around, exactly when its balance covers both.
   */
  lemma ReplayRunsIff(s: State, tx: Transaction)
    requires Balance(s, tx.from) >= (tx.amount + tx.fee) % TWO_64
    ensures var cost := (tx.amount + tx.fee) % TWO_64;
      var left := Balance(s, tx.from) - cost + (if tx.to == tx.from then tx.amount else 0);
      ExecutedTxs(s, [tx, tx]) == [tx, tx] <==> left % TWO_64 >= cost
    ensures Exact(s, tx) ==>
      (ExecutedTxs(s, [tx, tx]) == [tx, tx] <==>
       Balance(s, tx.from) + (if tx.to == tx.from then tx.amount else 0) >= 2 * (tx.amount + tx.fee))
  {
    hide AfterTx, Balance, Net, ExecutedTxs, CreditWraps;
    ExecutedTwice(s, tx);
    SenderLeft(s, tx);
    BalanceAfterTx(s, tx, tx.from);
    NetOfFew(tx, tx.from);
  }

  lemma SenderLeft(s: State, tx: Transaction)
    requires Balance(s, tx.from) >= (tx.amount + tx.fee) % TWO_64
    ensures Balance(AfterTx(s, tx), tx.from) ==
            (Balance(s, tx.from) - (tx.amount + tx.fee) % TWO_64 + (if tx.to == tx.from then tx.amount else 0)) % TWO_64
  {
    assert EntryOr(s.accounts, tx.from).balance >= Cost(tx);
    BalanceAfterDebit(s.accounts, tx, tx.from);
    BalanceAfterCredit(Debit(s.accounts, tx), tx, tx.from);
    hide EntryOr, Debit, Credit;
  }
}
