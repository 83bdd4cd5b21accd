/**
  The chain's data types, their byte encodings and the two cryptographic
  primitives they are built on. Blake3 and Ed25519 stay parameters, collected in
  `Crypto`; what a theorem needs of them is stated where it is used.
 */
module Types {
  import opened Wrappers
  import opened Bytes

  type Digest = Bytes32
  type Address = Bytes32

  datatype Transaction = Transaction(
    from: Address,
    to: Address,
    amount: u64,
    fee: u64,
    nonce: u64,
    timestamp: i64,
    data: bytes,
    signature: Option<bytes>)

  datatype BlockHeader = BlockHeader(
    height: u64,
    parentHash: Digest,
    txRoot: Digest,
    stateRoot: Digest,
    timestamp: i64,
    proposer: Address,
    round: u64)

  datatype Vote = Vote(blockHash: Digest, round: u64, voter: Address, signature: bytes)

  datatype QuorumCert = QuorumCert(blockHash: Digest, round: u64, votes: seq<Vote>)

  datatype Block = Block(header: BlockHeader, transactions: seq<Transaction>, qc: Option<QuorumCert>)

  datatype Validator = Validator(address: Address, stake: u64, index: nat)

  /** Blake3, and Ed25519 as key derivation, signing and acceptance of (address, message, signature). */
  datatype Crypto = Crypto(
    hash: bytes -> Digest,
    publicKey: bytes -> Address,
    sign: (bytes, bytes) -> bytes,
    accepts: (Address, bytes, bytes) -> bool)
  {
    /** Signatures made with a key are accepted under its own address. */
    ghost predicate Sound() {
      forall key: bytes, message: bytes ::
        accepts(publicKey(key), message, sign(key, message))
    }

    /** No two of these inputs share a digest. */
    ghost predicate CollisionFreeOn(inputs: set<bytes>) {
      forall x, y | x in inputs && y in inputs && hash(x) == hash(y) :: x == y
    }
  }

  lemma FewerInputs(c: Crypto, inputs: set<bytes>, fewer: set<bytes>)
    requires c.CollisionFreeOn(inputs) && fewer <= inputs
    ensures c.CollisionFreeOn(fewer)
  {
  }

  /** Two's complement view of a signed word. */
  function TwosComplement(t: i64): u64 {
    if t < 0 then t + TWO_64 else t
  }

  // ---- transactions ----

  function TxPreimage(tx: Transaction): (b: bytes)
    ensures |b| == 96 + |tx.data|
  {
    tx.from + (tx.to
    + (LittleEndian(8, tx.amount) + (LittleEndian(8, tx.fee) + (LittleEndian(8, tx.nonce)
    + (LittleEndian(8, TwosComplement(tx.timestamp)) + tx.data)))))
  }

  function TxSigningBytes(c: Crypto, tx: Transaction): Digest {
    c.hash(TxPreimage(tx))
  }

  function TxHash(c: Crypto, tx: Transaction): Digest {
    c.hash(TxSigningBytes(c, tx))
  }

  function SignTx(c: Crypto, tx: Transaction, key: bytes): Transaction {
    tx.(signature := Some(c.sign(key, TxSigningBytes(c, tx))))
  }

  predicate VerifyTx(c: Crypto, tx: Transaction) {
    tx.signature.Some? && c.accepts(tx.from, TxSigningBytes(c, tx), tx.signature.value)
  }

  // ---- votes ----

  function VotePreimage(blockHash: Digest, round: u64): (b: bytes)
    ensures |b| == 40
  {
    blockHash + LittleEndian(8, round)
  }

  function VoteSigningBytes(c: Crypto, blockHash: Digest, round: u64): Digest {
    c.hash(VotePreimage(blockHash, round))
  }

  function SignVote(c: Crypto, blockHash: Digest, round: u64, key: bytes): Vote {
    Vote(blockHash, round, c.publicKey(key), c.sign(key, VoteSigningBytes(c, blockHash, round)))
  }

  predicate VerifyVote(c: Crypto, v: Vote) {
    c.accepts(v.voter, VoteSigningBytes(c, v.blockHash, v.round), v.signature)
  }

  // ---- blocks ----

  /** The header as the serializer lays it out: every field at fixed width, words little-endian. */
  function HeaderBytes(h: BlockHeader): (b: bytes)
    ensures |b| == 152
  {
    LittleEndian(8, h.height) + (h.parentHash + (h.txRoot + (h.stateRoot
    + (LittleEndian(8, TwosComplement(h.timestamp)) + (h.proposer + LittleEndian(8, h.round))))))
  }

  /** A block's hash covers its header only; in particular not its quorum certificate. */
  function BlockHash(c: Crypto, b: Block): Digest {
    c.hash(HeaderBytes(b.header))
  }

  function Genesis(): Block {
    Block(BlockHeader(0, ZERO_32, ZERO_32, ZERO_32, 1_700_000_000_000, ZERO_32, 0), [], None)
  }
}
