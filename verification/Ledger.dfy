/**
  The world state: accounts under the hexadecimal form of their address, and what
  executing a block does to them. Balance arithmetic is that of 64-bit words: a sum
  that does not fit wraps around.
 */
module Ledger {
  import opened Bytes
  import opened Types

  const TOTAL_SUPPLY: u64 := 1_000_000_000
  const TREASURY_SHARE: u64 := 900_000_000
  const FAUCET_SHARE: u64 := 100_000_000

  datatype Account = Account(address: Address, balance: u64, nonce: u64)

  type Accounts = map<string, Account>

  /** The addresses of the two fixed keys that receive the initial supply. */
  datatype Mint = Mint(treasury: Address, faucet: Address)

  datatype State = State(accounts: Accounts, totalSupply: u64, totalTxs: u64)

  function Empty(): State {
    State(map[], 0, 0)
  }

  function Key(a: Address): string {
    HexEncode(a)
  }

  function WrapAdd(x: u64, y: u64): u64 {
    (x + y) % TWO_64
  }

  function EntryOr(accounts: Accounts, address: Address): Account {
    if Key(address) in accounts then accounts[Key(address)] else Account(address, 0, 0)
  }

  function Balance(s: State, a: Address): u64 {
    EntryOr(s.accounts, a).balance
  }

  function Nonce(s: State, a: Address): u64 {
    EntryOr(s.accounts, a).nonce
  }

  function AfterGenesis(mint: Mint, s: State): State {
    s.(accounts := s.accounts[Key(mint.treasury) := Account(mint.treasury, TREASURY_SHARE, 0)]
                             [Key(mint.faucet) := Account(mint.faucet, FAUCET_SHARE, 0)],
       totalSupply := TOTAL_SUPPLY)
  }

  function Cost(tx: Transaction): u64 {
    WrapAdd(tx.amount, tx.fee)
  }

  function Debit(accounts: Accounts, tx: Transaction): Accounts
    requires EntryOr(accounts, tx.from).balance >= Cost(tx)
  {
    var a := EntryOr(accounts, tx.from);
    accounts[Key(tx.from) := a.(balance := a.balance - Cost(tx), nonce := WrapAdd(a.nonce, 1))]
  }

  function Credit(accounts: Accounts, tx: Transaction): Accounts {
    var a := EntryOr(accounts, tx.to);
    accounts[Key(tx.to) := a.(balance := WrapAdd(a.balance, tx.amount))]
  }

  /** A transaction its sender cannot pay for is skipped. */
  function AfterTx(s: State, tx: Transaction): State {
    if Balance(s, tx.from) < Cost(tx) then s
    else s.(accounts := Credit(Debit(s.accounts, tx), tx), totalTxs := WrapAdd(s.totalTxs, 1))
  }

  function AfterTxs(s: State, txs: seq<Transaction>): State {
    if txs == [] then s
    else AfterTx(AfterTxs(s, txs[..|txs| - 1]), txs[|txs| - 1])
  }

  predicate Mints(s: State, block: Block) {
    block.header.height == 0 && s.totalSupply == 0
  }

  function Opening(mint: Mint, s: State, block: Block): State {
    if Mints(s, block) then AfterGenesis(mint, s) else s
  }

  function AfterBlock(mint: Mint, s: State, block: Block): State {
    AfterTxs(Opening(mint, s, block), block.transactions)
  }

  /** The state a log of blocks leads to from nothing. */
  function Replay(mint: Mint, chain: seq<Block>): State {
    if chain == [] then Empty()
    else AfterBlock(mint, Replay(mint, chain[..|chain| - 1]), chain[|chain| - 1])
  }

  class WorldState {
    const mint: Mint

    var accounts: Accounts
    var totalSupply: u64
    var totalTxs: u64
    var faucetLast: map<string, u64>

    function Abs(): State
      reads this
    {
      State(accounts, totalSupply, totalTxs)
    }

    constructor (mint: Mint)
      ensures Abs() == Empty() && this.mint == mint && faucetLast == map[]
    {
      this.mint := mint;
      accounts, totalSupply, totalTxs, faucetLast := map[], 0, 0, map[];
    }

    method ApplyGenesis()
      modifies this`accounts, this`totalSupply
      ensures Abs() == AfterGenesis(mint, old(Abs()))
    {
      accounts := accounts[HexEncode(mint.treasury) := Account(mint.treasury, 900_000_000, 0)];
      accounts := accounts[HexEncode(mint.faucet) := Account(mint.faucet, 100_000_000, 0)];
      totalSupply := TOTAL_SUPPLY;
    }

    method ApplyBlock(block: Block)
      modifies this`accounts, this`totalSupply, this`totalTxs
      ensures Abs() == AfterBlock(mint, old(Abs()), block)
    {
      hide AfterTx, AfterGenesis;
      if block.header.height == 0 && totalSupply == 0 {
        ApplyGenesis();
      }
      ghost var opening := Abs();
      assert opening == Opening(mint, old(Abs()), block);
      var i := 0;
      while i < |block.transactions|
        invariant 0 <= i <= |block.transactions|
        invariant Abs() == AfterTxs(opening, block.transactions[..i])
      {
        var tx := block.transactions[i];
        assert block.transactions[..i + 1][..i] == block.transactions[..i];
        ExecuteTx(tx);
        i := i + 1;
      }
      assert block.transactions[..i] == block.transactions;
    }

    /** One turn of the loop: check the balance, then debit, count the nonce, credit and count the transaction. */
    method ExecuteTx(tx: Transaction)
      modifies this`accounts, this`totalTxs
      ensures Abs() == AfterTx(old(Abs()), tx)
    {
      var fromKey, toKey := HexEncode(tx.from), HexEncode(tx.to);
      var fromBalance := BalanceOf(tx.from);
      var cost := (tx.amount + tx.fee) % TWO_64;
      if fromBalance >= cost {
        var payer := if fromKey in accounts then accounts[fromKey] else Account(tx.from, 0, 0);
        accounts := accounts[fromKey := payer.(balance := payer.balance - cost)];
        accounts := accounts[fromKey := accounts[fromKey].(nonce := (accounts[fromKey].nonce + 1) % TWO_64)];
        assert accounts == Debit(old(accounts), tx);
        var payee := if toKey in accounts then accounts[toKey] else Account(tx.to, 0, 0);
        accounts := accounts[toKey := payee.(balance := (payee.balance + tx.amount) % TWO_64)];
        totalTxs := (totalTxs + 1) % TWO_64;
      }
    }

    function BalanceOf(a: Address): (balance: u64)
      reads this
      ensures balance == Balance(Abs(), a)
    {
      if HexEncode(a) in accounts then accounts[HexEncode(a)].balance else 0
    }

    function NonceOf(a: Address): (nonce: u64)
      reads this
      ensures nonce == Nonce(Abs(), a)
    {
      if HexEncode(a) in accounts then accounts[HexEncode(a)].nonce else 0
    }
  }
}
