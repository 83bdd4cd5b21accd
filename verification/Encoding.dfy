/**
  The three hashed encodings are uniquely decodable: each has a decoder that is
  its inverse on both sides, so equal encodings come from equal values and every
  byte string of the right length encodes one value.
 */
module Encoding {
  import opened Wrappers
  import opened Bytes
  import opened Types

  function FromTwosComplement(w: u64): i64 {
    if w < 0x8000_0000_0000_0000 then w else w - TWO_64
  }

  function WordAt(b: bytes, at: nat): u64
    requires at + 8 <= |b|
  {
    FromLittleEndianRoundTrip(b[at..at + 8]); Pow256Of8();
    FromLittleEndian(b[at..at + 8])
  }

  lemma WordAtEncoded(b: bytes, at: nat, w: u64)
    requires at + 8 <= |b| && b[at..at + 8] == LittleEndian(8, w)
    ensures WordAt(b, at) == w
  {
    Pow256Of8();
    LittleEndianRoundTrip(8, w);
  }

  /** Reads one field off an encoding of which the first `at` bytes are already read. */
  lemma Cut(b: bytes, at: nat, field: bytes, rest: bytes)
    requires at <= |b| && b[at..] == field + rest
    ensures at + |field| <= |b| && b[at..at + |field|] == field && b[at + |field|..] == rest
  {
    assert b[at..][..|field|] == field && b[at..][|field|..] == rest;
  }

  lemma Paste(b: bytes, at: nat, n: nat)
    requires at + n <= |b|
    ensures b[at..at + n] + b[at + n..] == b[at..]
  {
  }

  lemma EncodedWordAt(b: bytes, at: nat)
    requires at + 8 <= |b|
    ensures LittleEndian(8, WordAt(b, at)) == b[at..at + 8]
  {
    FromLittleEndianRoundTrip(b[at..at + 8]);
  }

  // ---- transactions ----

  /** The fields a signature covers. */
  function Unsigned(tx: Transaction): Transaction {
    tx.(signature := None)
  }

  function DecodeTx(b: bytes): Transaction
    requires |b| >= 96
  {
    Transaction(b[..32], b[32..64], WordAt(b, 64), WordAt(b, 72), WordAt(b, 80),
                FromTwosComplement(WordAt(b, 88)), b[96..], None)
  }

  lemma DecodeTxInverse(tx: Transaction)
    ensures DecodeTx(TxPreimage(tx)) == Unsigned(tx)
  {
    var b := TxPreimage(tx);
    var stamp := LittleEndian(8, TwosComplement(tx.timestamp)) + tx.data;
    var nonce := LittleEndian(8, tx.nonce) + stamp;
    var fee := LittleEndian(8, tx.fee) + nonce;
    var amount := LittleEndian(8, tx.amount) + fee;
    Cut(b, 0, tx.from, tx.to + amount);
    Cut(b, 32, tx.to, amount);
    Cut(b, 64, LittleEndian(8, tx.amount), fee);
    Cut(b, 72, LittleEndian(8, tx.fee), nonce);
    Cut(b, 80, LittleEndian(8, tx.nonce), stamp);
    Cut(b, 88, LittleEndian(8, TwosComplement(tx.timestamp)), tx.data);
    WordAtEncoded(b, 64, tx.amount);
    WordAtEncoded(b, 72, tx.fee);
    WordAtEncoded(b, 80, tx.nonce);
    WordAtEncoded(b, 88, TwosComplement(tx.timestamp));
  }

  lemma EncodeTxInverse(b: bytes)
    requires |b| >= 96
    ensures TxPreimage(DecodeTx(b)) == b
  {
    hide LittleEndian, WordAt;
    var tx := DecodeTx(b);
    EncodedWordAt(b, 64);
    EncodedWordAt(b, 72);
    EncodedWordAt(b, 80);
    EncodedWordAt(b, 88);
    var stamp := LittleEndian(8, TwosComplement(tx.timestamp)) + tx.data;
    assert stamp == b[88..] by { Paste(b, 88, 8); }
    var nonce := LittleEndian(8, tx.nonce) + stamp;
    assert nonce == b[80..] by { Paste(b, 80, 8); }
    var fee := LittleEndian(8, tx.fee) + nonce;
    assert fee == b[72..] by { Paste(b, 72, 8); }
    var amount := LittleEndian(8, tx.amount) + fee;
    assert amount == b[64..] by { Paste(b, 64, 8); }
    var to := tx.to + amount;
    assert to == b[32..] by { Paste(b, 32, 32); }
    assert TxPreimage(tx) == tx.from + to;
    Paste(b, 0, 32);
  }

  lemma TxPreimageInjective(a: Transaction, b: Transaction)
    ensures TxPreimage(a) == TxPreimage(b) <==> Unsigned(a) == Unsigned(b)
  {
    DecodeTxInverse(a);
    DecodeTxInverse(b);
    assert TxPreimage(a) == TxPreimage(Unsigned(a)) && TxPreimage(b) == TxPreimage(Unsigned(b));
  }

  /** Where each field lies: both addresses, four little-endian words, the timestamp in two's complement, the data. */
  lemma TxLayout(tx: Transaction)
    ensures var b := TxPreimage(tx);
      && b[..32] == tx.from && b[32..64] == tx.to
      && b[64..72] == LittleEndian(8, tx.amount) && b[72..80] == LittleEndian(8, tx.fee)
      && b[80..88] == LittleEndian(8, tx.nonce) && b[88..96] == LittleEndian(8, tx.timestamp % TWO_64)
      && b[96..] == tx.data
  {
    var b := TxPreimage(tx);
    var stamp := LittleEndian(8, TwosComplement(tx.timestamp)) + tx.data;
    var nonce := LittleEndian(8, tx.nonce) + stamp;
    var fee := LittleEndian(8, tx.fee) + nonce;
    var amount := LittleEndian(8, tx.amount) + fee;
    Cut(b, 0, tx.from, tx.to + amount);
    Cut(b, 32, tx.to, amount);
    Cut(b, 64, LittleEndian(8, tx.amount), fee);
    Cut(b, 72, LittleEndian(8, tx.fee), nonce);
    Cut(b, 80, LittleEndian(8, tx.nonce), stamp);
    Cut(b, 88, LittleEndian(8, TwosComplement(tx.timestamp)), tx.data);
    TwosComplementIs(tx.timestamp);
  }

  lemma TwosComplementIs(t: i64)
    ensures TwosComplement(t) == t % TWO_64
  {
  }

  /** A transaction is signed over the hash of that layout, is named by the hash of the hash, and must be signed. */
  lemma TxVerifiesIff(c: Crypto, tx: Transaction)
    ensures TxHash(c, tx) == c.hash(c.hash(TxPreimage(tx)))
    ensures VerifyTx(c, tx) <==>
            tx.signature.Some? && c.accepts(tx.from, c.hash(TxPreimage(tx)), tx.signature.value)
  {
  }

  /** Signing fills in a signature that verifies, and moves neither the signed bytes nor the hash. */
  lemma SignedTxVerifies(c: Crypto, tx: Transaction, key: bytes)
    requires c.Sound() && tx.from == c.publicKey(key)
    ensures VerifyTx(c, SignTx(c, tx, key))
    ensures Unsigned(SignTx(c, tx, key)) == Unsigned(tx) && TxHash(c, SignTx(c, tx, key)) == TxHash(c, tx)
  {
    TxPreimageInjective(tx, SignTx(c, tx, key));
    var signature := c.sign(key, TxSigningBytes(c, tx));
  }

  // ---- votes ----

  function DecodeVote(b: bytes): (Digest, u64)
    requires |b| == 40
  {
    (b[..32], WordAt(b, 32))
  }

  lemma DecodeVoteInverse(blockHash: Digest, round: u64)
    ensures DecodeVote(VotePreimage(blockHash, round)) == (blockHash, round)
  {
    var b := VotePreimage(blockHash, round);
    assert b[..32] == blockHash;
    WordAtEncoded(b, 32, round);
  }

  lemma EncodeVoteInverse(b: bytes)
    requires |b| == 40
    ensures VotePreimage(DecodeVote(b).0, DecodeVote(b).1) == b
  {
    EncodedWordAt(b, 32);
    assert b == b[..32] + b[32..40];
  }

  lemma VoteLayout(blockHash: Digest, round: u64)
    ensures VotePreimage(blockHash, round)[..32] == blockHash
    ensures VotePreimage(blockHash, round)[32..] == LittleEndian(8, round)
  {
  }

  /** A vote verifies iff the voter's key accepts its signature over the hash of that layout. */
  lemma VoteVerifiesIff(c: Crypto, v: Vote)
    ensures VerifyVote(c, v) <==> c.accepts(v.voter, c.hash(VotePreimage(v.blockHash, v.round)), v.signature)
  {
  }

  lemma VotePreimageInjective(h: Digest, r: u64, h': Digest, r': u64)
    ensures VotePreimage(h, r) == VotePreimage(h', r') <==> h == h' && r == r'
  {
    DecodeVoteInverse(h, r);
    DecodeVoteInverse(h', r');
  }

  /** A vote's signed bytes are never those of a transaction. */
  lemma VoteIsNoTransaction(blockHash: Digest, round: u64, tx: Transaction)
    ensures VotePreimage(blockHash, round) != TxPreimage(tx)
  {
    assert |VotePreimage(blockHash, round)| < |TxPreimage(tx)|;
  }

  // ---- headers ----

  function DecodeHeader(b: bytes): BlockHeader
    requires |b| == 152
  {
    BlockHeader(WordAt(b, 0), b[8..40], b[40..72], b[72..104],
                FromTwosComplement(WordAt(b, 104)), b[112..144], WordAt(b, 144))
  }

  lemma DecodeHeaderInverse(h: BlockHeader)
    ensures DecodeHeader(HeaderBytes(h)) == h
  {
    var b := HeaderBytes(h);
    var proposer := h.proposer + LittleEndian(8, h.round);
    var stamp := LittleEndian(8, TwosComplement(h.timestamp)) + proposer;
    var stateRoot := h.stateRoot + stamp;
    var txRoot := h.txRoot + stateRoot;
    Cut(b, 0, LittleEndian(8, h.height), h.parentHash + txRoot);
    Cut(b, 8, h.parentHash, txRoot);
    Cut(b, 40, h.txRoot, stateRoot);
    Cut(b, 72, h.stateRoot, stamp);
    Cut(b, 104, LittleEndian(8, TwosComplement(h.timestamp)), proposer);
    Cut(b, 112, h.proposer, LittleEndian(8, h.round));
    assert b[144..152] == b[144..];
    WordAtEncoded(b, 0, h.height);
    WordAtEncoded(b, 104, TwosComplement(h.timestamp));
    WordAtEncoded(b, 144, h.round);
  }

  lemma EncodeHeaderInverse(b: bytes)
    requires |b| == 152
    ensures HeaderBytes(DecodeHeader(b)) == b
  {
    var h := DecodeHeader(b);
    EncodedWordAt(b, 0);
    EncodedWordAt(b, 104);
    EncodedWordAt(b, 144);
    assert LittleEndian(8, h.round) == b[144..] by { assert b[144..152] == b[144..]; }
    var proposer := h.proposer + LittleEndian(8, h.round);
    assert proposer == b[112..] by { Paste(b, 112, 32); }
    var stamp := LittleEndian(8, TwosComplement(h.timestamp)) + proposer;
    assert stamp == b[104..] by { Paste(b, 104, 8); }
    var stateRoot := h.stateRoot + stamp;
    assert stateRoot == b[72..] by { Paste(b, 72, 32); }
    var txRoot := h.txRoot + stateRoot;
    assert txRoot == b[40..] by { Paste(b, 40, 32); }
    var parent := h.parentHash + txRoot;
    assert parent == b[8..] by { Paste(b, 8, 32); }
    assert HeaderBytes(h) == LittleEndian(8, h.height) + parent;
    Paste(b, 0, 8);
  }

  /** Where each field of a header lies. */
  lemma HeaderLayout(h: BlockHeader)
    ensures var b := HeaderBytes(h);
      && b[..8] == LittleEndian(8, h.height) && b[8..40] == h.parentHash
      && b[40..72] == h.txRoot && b[72..104] == h.stateRoot
      && b[104..112] == LittleEndian(8, h.timestamp % TWO_64)
      && b[112..144] == h.proposer && b[144..] == LittleEndian(8, h.round)
  {
    var b := HeaderBytes(h);
    var proposer := h.proposer + LittleEndian(8, h.round);
    var stamp := LittleEndian(8, TwosComplement(h.timestamp)) + proposer;
    var stateRoot := h.stateRoot + stamp;
    var txRoot := h.txRoot + stateRoot;
    Cut(b, 0, LittleEndian(8, h.height), h.parentHash + txRoot);
    Cut(b, 8, h.parentHash, txRoot);
    Cut(b, 40, h.txRoot, stateRoot);
    Cut(b, 72, h.stateRoot, stamp);
    Cut(b, 104, LittleEndian(8, TwosComplement(h.timestamp)), proposer);
    Cut(b, 112, h.proposer, LittleEndian(8, h.round));
    TwosComplementIs(h.timestamp);
  }

  /** A block is named by the hash of its header's bytes; genesis is a fixed header over nothing. */
  lemma BlockHashIs(c: Crypto, b: Block)
    ensures BlockHash(c, b) == c.hash(HeaderBytes(b.header))
    ensures var zero: Digest := Zeros(32);
      Genesis() == Block(BlockHeader(0, zero, zero, zero, 1_700_000_000_000, zero, 0), [], None)
  {
  }

  lemma HeaderBytesInjective(g: BlockHeader, h: BlockHeader)
    ensures HeaderBytes(g) == HeaderBytes(h) <==> g == h
  {
    DecodeHeaderInverse(g);
    DecodeHeaderInverse(h);
  }
}
