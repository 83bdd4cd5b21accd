# Vela Network: a Dafny model

Vela is a layer-1 chain: a three-phase HotStuff node, a ledger of
accounts, an ordered block store and a gossiping full node that ties chain, store and
ledger together. This project models those four parts and proves what they keep over
whole runs. Nothing here runs the program.

`dafny verify dfyconfig.toml` checks everything.

| module | what it holds |
|---|---|
| `Bytes`, `Types`, `Encoding` | machine words, hexadecimal keys, the chain's data types, the three hashed byte encodings and their decoders |
| `Merkle` | the level-by-level root loop, the recursive tree it computes, what a root determines |
| `Quorum` | fault bound, quorum size, leader rotation, quorum intersection |
| `HotStuff`, `HotStuffCases` | the node as a class, each method proved against a transition function, and what each transition does in every case |
| `HotStuffRuns`, `CommitBacking`, `HonestRounds`, `GoodRound` | one node over all runs: order, linked chain, what backs a commit, progress |
| `Agreement`, `Certifying` | several nodes, faulty validators and unforgeable signatures: certificate and lock agreement within a round; how certificates come about |
| `Lawful`, `Finality` | across rounds: what nodes keep whose callers abide by three rules, and from when on a committed block is final |
| `NetworkRound`, `Fork`, `ForkRuns` | whole rounds as network runs, exactly when a sibling can still be certified or committed, and concrete runs on both sides |
| `Ledger`, `LedgerInvariants`, `BalanceHistory` | execution with 64-bit wrap-around, conservation, what nonces, counters and balances mean |
| `Storage` | the ordered block store: saving, loading, sorting |
| `Node`, `Restart` | the full node: production, synchronisation, start-up; what a restarted node produces |
| `Gossip`, `Convergence` | many nodes over lossy gossip: when their chains agree, and when they can still be brought together |
| `Binding` | what a block hash pins down, joining `Encoding`, `Merkle` and `Agreement` |

## How the program is read

- Code that changes fields in place is a class (`HotStuffNode`, `WorldState`, `BlockDb`,
  `FullNode`) whose methods are tied by their contracts to a pure transition; the theorems
  are about runs of those transitions, in any order and with any arguments.
- Blake3 and Ed25519 are the fields of `Crypto`, left uninterpreted. A theorem that needs
  collision freedom asks for it only on the finite set of inputs it mentions
  (`CollisionFreeOn`), which a real hash function can satisfy. Unforgeability is a rule of
  the network model (`Agreement.CanAct`): nobody injects a vote that verifies as an honest
  validator's unless that validator signed those bytes.
- Balance, nonce and counter arithmetic wraps modulo 2^64, as in a release build. A height or
  round that is about to be incremented must fit a word (`MayPropose`, `MayProduce`).
  The comparison of a height with tip + 1 is made on unbounded integers.
- A caller abides by the rules (`Lawful.Abides`) when proposals a node takes up extend its tip, votes and
  replaced blocks are screened (`CommitBacking.Screened`), and the node's own proposals respect its lock.
  The code checks none of the three; only the theorems that mention `LawfulRun` use them.
- The order in which a hash map lists its votes is an explicit enumeration of its keys;
  every theorem holds for each such order.
- The clock is a parameter (`now`). Each handler is one atomic step.
- The two mint addresses, derived in the program from fixed key seeds, are the parameter `Mint`.

## Where the code and its documentation differ

The model follows the code; each point has a lemma.

- Every commit is said to follow votes of 2f+1 validators in each phase
  (`src/consensus/hotstuff.rs:10`). `handle_vote` checks a signature and nothing else, so an outsider's
  vote for another block can commit (`CommitBacking.StrangerCommits`). What does hold in every run
  is `CommitBacking.RunKeepsBacking`. Screening every call is exactly what keeps all quorums those of
  validators voting for the block (`CommitBacking.ProperIffScreened`), and it is sufficient for the promise
  (`CommitBacking.CommitsNeedValidators`); an unscreened run may still keep it by committing nothing.
- A replica is said to vote only for blocks that extend its locked certificate
  (`src/consensus/hotstuff.rs:176`). Only `handle_propose` consults the lock: a view change makes a node
  sign whatever is pending, on the lock or off it (`HotStuffRuns.SignsOffLockIff`), and a leader's own proposal,
  or the move of the lock itself, puts such a block there (`HotStuffRuns.PendingOffLockIff`, `LeaderSignsOffLock`).
- Commits are said to be final (`docs/whitepaper.html:134`). They are not when made: a replica locks only on
  votes it collected itself, so without any fault another honest node can commit a different block of the
  same height (`ForkRuns.RoundsCanFork`). Exactly when that is over is `Fork.SiblingCommitIff`, the
  theorem that decides commits: once every honest node is past the rounds by which a block is supported, a
  sibling can still be committed iff at most f honest validators stand behind the block. Before that, votes of
  an earlier round collected late still commit beside it, which is what `RoundsCanFork` does. `Fork.SiblingIff`
  decides certificates only: whether a sibling can be certified in a later round, which f+1 supporters rule out
  at once. What later rounds bring under such support is `Finality.SupportIsFinal`.
- The running node calls neither `propose` nor `handle_new_view` (`src/main.rs:195,209` are its only calls
  into the consensus node), so its consensus chain never grows beyond one block above genesis (`HotStuffRuns.WithoutViewsOneCommit`).
- The fault bound is stated for n = 3f + 1 (`README.md:136`), the code takes any n: two quorums are sure
  to share a non-faulty validator only then
  (`Quorum.QuorumsShareHonestIff`). `src/main.rs:99` starts three validators, which gives f = 0 and quorums of one.
- The nonce is documented as replay protection (`src/types.rs:95`, `README.md:167`): execution never looks at it
  (`BalanceHistory.ReplayRunsIff`).
- The whole supply is said to go to the treasury (`src/storage/state.rs:38`) or to the faucet (`docs/whitepaper.html:193`):
  the treasury gets 900 million and the faucet 100 million (`BalanceHistory.BalanceIsHistory`).
- The full node signs each block it takes up for the block's round, not its own
  (`src/main.rs:179-184`), so it can sign two blocks of one round (`Binding.UptakeVotesConflictIff`, `UptakeVotesCanConflict`).
- A restarted node resumes one above its tip's round (`src/main.rs:269-271`), whatever rounds it has produced in: the rounds
  open to it are exactly those above the tip's (`Restart.ProducesAfterRestartIff`), one of its own among them if its
  tip names an earlier one (`Restart.RoundRepeats`).
- The Merkle root does not determine a list that may repeat transactions (`Merkle.PaddingIsInvisible`);
  `Merkle.RootIffCompleted` says exactly what it determines.

## Model

| member | source | states |
|---|---|---|
| Bytes.LittleEndianRoundTrip | src/types.rs:120-123 | decoding an encoded word gives the word back, for any width that holds it |
| Bytes.FromLittleEndianRoundTrip | src/types.rs:120-123 | every byte string is the encoding of exactly the word it decodes to |
| Bytes.WordOfEight | src/types.rs:120-123 | of the eight bytes of a word the least significant comes first |
| Bytes.BigEndianOrder | src/storage/db.rs:16 | big-endian keys are injective, and numeric order is lexicographic order, both ways |
| Bytes.BigEndianMirrors | src/storage/db.rs:16 | a big-endian key is the little-endian word read backwards |
| Bytes.LexLessAtFirstDifference | src/storage/db.rs:22-28 | keys are iterated in the order of the first byte in which they differ, a proper prefix first |
| Bytes.HexInjective | src/storage/state.rs:70-71 | different addresses have different account and vote keys |
| Bytes.HexAt | src/storage/state.rs:70-71 | the key of an address holds two lower-case digits a byte, the high half first |
| Encoding.DecodeTxInverse | src/types.rs:116-126 | a transaction's signed bytes decode to all its fields but the signature |
| Encoding.EncodeTxInverse | src/types.rs:116-126 | every byte string of at least 96 bytes is the signed form of the transaction it decodes to |
| Encoding.TxPreimageInjective | src/types.rs:116-126 | same signed bytes iff same fields apart from the signature |
| Encoding.TxLayout | src/types.rs:116-126 | the signed bytes are sender, receiver, amount, fee, nonce, timestamp in two's complement, and data, each at its fixed place |
| Encoding.TxVerifiesIff | src/types.rs:112-146 | a transaction verifies iff it carries a signature that its sender's key accepts over the hash of that layout; its own hash is the hash of that hash |
| Encoding.SignedTxVerifies | src/types.rs:128-146 | signing with the sender's key gives a verifying transaction and moves neither signed content nor hash |
| Encoding.DecodeVoteInverse | src/types.rs:242-247 | a vote's signed bytes decode to its block hash and round |
| Encoding.EncodeVoteInverse | src/types.rs:242-247 | every 40-byte string is the signed form of what it decodes to |
| Encoding.VotePreimageInjective | src/types.rs:242-247 | same signed bytes iff same block hash and round |
| Encoding.VoteLayout | src/types.rs:242-247 | a vote signs the block hash followed by the round |
| Encoding.VoteVerifiesIff | src/types.rs:259-265 | a vote verifies iff its voter's key accepts its signature over the hash of that layout |
| Encoding.VoteIsNoTransaction | src/types.rs:116-126 | no vote's signed bytes are a transaction's |
| Encoding.DecodeHeaderInverse | src/types.rs:151-167 | the hashed header bytes decode to the header |
| Encoding.EncodeHeaderInverse | src/types.rs:151-167 | every 152-byte string is the encoding of the header it decodes to |
| Encoding.HeaderBytesInjective | src/types.rs:162-167 | same header bytes iff same header |
| Encoding.HeaderLayout | src/types.rs:151-167 | each header field lies at its fixed place |
| Encoding.BlockHashIs | src/types.rs:162-224 | a block is named by the hash of its header's bytes, and genesis is one fixed header over no transactions |
| Merkle.WidthIsCeiling | src/types.rs:277-290 | after k passes n leaves have become n / 2^k, rounded up |
| Merkle.DepthIsLogarithm | src/types.rs:277-290 | the number of passes is the binary logarithm rounded up, and no earlier level has width one |
| Merkle.NextLevel | src/types.rs:278-290 | one pass, with the last hash doubled on odd width, turns each level of the recursive tree into the next |
| Merkle.NodeIsHash | src/types.rs:276-289 | every leaf is its transaction's hash, every inner node the hash of its left child followed by its right one, or by the left one again where the level below runs out |
| Merkle.RootOfFew | src/types.rs:272-292 | the root of no transactions is zero, of one its hash, of two the hash of the first one's hash before the second one's |
| Merkle.MerkleRoot | src/types.rs:272-292 | the loop returns the root of the recursive tree, in exactly Depth passes |
| Merkle.SameNodeSameLeaves | src/types.rs:281-289 | without collisions, equal tree nodes, of any two levels of any two trees, have equal padded leaves below them |
| Merkle.SameLeavesSameNode | src/types.rs:281-289 | and conversely |
| Merkle.RootIffCompleted | src/types.rs:272-292 | two lists of any lengths share a root iff they pad out to the same leaves |
| Merkle.CompletedInjective | src/types.rs:278-280 | lists without repetition that pad out alike are equal |
| Merkle.RootDeterminesList | src/types.rs:272-292 | on lists without repetition, of any two lengths, same root iff same signed transactions |
| Merkle.PaddingIsInvisible | src/types.rs:278-280 | with repetition the root does not determine the list: three leaves and their padded form share it |
| Quorum.NewConfig | src/consensus/hotstuff.rs:30-43 | 3f+1 <= n <= 3f+3, and a quorum remains when f validators are silent |
| Quorum.LeaderIsUnique | src/consensus/hotstuff.rs:45-48 | with distinct addresses the round's leader is the validator at round mod n, and nobody else |
| Quorum.MembersSize | src/consensus/hotstuff.rs:30-39 | validators with distinct addresses are as many as their addresses |
| Quorum.QuorumIntersection | src/consensus/hotstuff.rs:30-43 | any two quorums share at least 4f+2-n members |
| Quorum.IntersectionIsTight | src/consensus/hotstuff.rs:30-43 | for every n two quorums attain that bound |
| Quorum.QuorumsShareHonestIff | src/consensus/hotstuff.rs:30-43 | all pairs of quorums share more than f members iff n = 3f+1 |
| HotStuff.HotStuffNode.constructor | src/consensus/hotstuff.rs:114-129 | a new node is in round 0, unlocked, with genesis committed |
| HotStuff.HotStuffNode.ProposeBlock | src/consensus/hotstuff.rs:145-171 | in-place proposal, root loop included, is the transition OnPropose |
| HotStuff.HotStuffNode.HandlePropose | src/consensus/hotstuff.rs:175-197 | in-place handling of a proposal is OnHandlePropose, refusal by the lock included |
| HotStuff.HotStuffNode.HandleVote | src/consensus/hotstuff.rs:201-244 | in-place handling of a vote is OnHandleVote, whose cases HotStuffCases states, under some listing of the full map |
| HotStuff.HotStuffNode.ClosePhase | src/consensus/hotstuff.rs:213-238 | a full quorum raises the high certificate, locks, or commits, and announces the certificate |
| HotStuff.HotStuffNode.HandleNewView | src/consensus/hotstuff.rs:248-266 | in-place handling of a view change is OnHandleNewView |
| HotStuff.HotStuffNode.FormQc | src/consensus/hotstuff.rs:270-279 | the certificate holds each vote of the phase once and is named after the first one listed |
| HotStuff.HotStuffNode.CommitPending | src/consensus/hotstuff.rs:281-292 | committing moves the pending block, certified, to the chain and clears the votes; without one nothing changes |
| HotStuff.HotStuffNode.Advance | src/consensus/hotstuff.rs:294-302 | a new round starts in Prepare with no pending block and no votes |
| HotStuffCases.MayProposeIff | src/consensus/hotstuff.rs:45-48 | a node may propose iff its address stands at the round's place in the validator list and the next height is a word |
| HotStuffCases.ProposalMade | src/consensus/hotstuff.rs:145-171 | the leader's block in full: height, parent, root, time, proposer and round; it becomes pending in Prepare and goes out with the high certificate |
| HotStuffCases.ProposalAnswered | src/consensus/hotstuff.rs:175-197 | a proposal is refused without a trace iff the node is locked on a block other than its parent; otherwise it becomes pending, nothing else moves, and its hash is signed for the node's round |
| HotStuffCases.VoteIgnored | src/consensus/hotstuff.rs:202-241 | a vote whose signature its voter's key does not accept changes nothing and is not answered, nor is any vote once decided |
| HotStuffCases.PrepareVoteCounted | src/consensus/hotstuff.rs:207-217 | any other prepare vote is filed under its voter, and the one that makes 2f+1 raises the high certificate to exactly the votes held |
| HotStuffCases.PrecommitVoteCounted | src/consensus/hotstuff.rs:218-226 | likewise a precommit vote, 2f+1 of which lock the node |
| HotStuffCases.CommitVoteCounted | src/consensus/hotstuff.rs:227-291 | 2f+1 commit votes decide: what is pending joins the chain certified by them and all votes go, or, with nothing pending, only the phase ends; the next round is announced either way |
| HotStuffCases.AdoptsIff | src/consensus/hotstuff.rs:249-251 | in every round a view change's certificate is adopted iff none is held or it is no older than the one held |
| HotStuffCases.ViewChangeAnswered | src/consensus/hotstuff.rs:253-302 | a later round starts afresh and silently; otherwise the pending block, if any, is signed for the round the node is in |
| HotStuffRuns.CertifiedBlockKeepsHash | src/types.rs:202-204 | attaching a certificate does not move the block hash |
| HotStuffRuns.RunKeepsOrder | src/consensus/hotstuff.rs:201-302 | in every run whatsoever: locked round <= round, both only grow, committed blocks are never dropped or changed |
| HotStuffRuns.HighRoundKeptIff | src/consensus/hotstuff.rs:213-215 | a step keeps the high certificate's round from going back iff it does not close a prepare quorum in a lower round |
| HotStuffRuns.TwoProposalsTwoVotes | src/consensus/hotstuff.rs:175-197 | a replica handed two blocks in a round signs both: single voting needs the one-block hypothesis |
| HotStuffRuns.SignsOffLockIff | src/consensus/hotstuff.rs:175-266 | a step signs a block off the lock iff it is a view change of no later round that finds such a block pending |
| HotStuffRuns.PendingOffLockIff | src/consensus/hotstuff.rs:145-229 | a pending block comes to be off the lock iff a leader locked off its tip proposes, or the lock moves to anything but the pending block's parent |
| HotStuffRuns.LeaderSignsOffLock | src/consensus/hotstuff.rs:145-266 | such a leader, on a view change of its round, signs the block its own lock forbids |
| HotStuffRuns.WithoutViewsOneCommit | src/main.rs:191-218 | fed proposals and votes alone, as the running node feeds it, a consensus node commits at most once and then stays decided in its round |
| HotStuffRuns.StepKeepsChainIff | src/consensus/hotstuff.rs:175-197 | a step keeps the chain linked and the pending block on its tip iff a proposal it takes up extends the tip |
| HotStuffRuns.ChainLinkedIff | src/consensus/hotstuff.rs:145-302 | over whole runs: sound throughout iff every proposal taken up extends the tip of its moment |
| HotStuffRuns.CommittedChainIsLinked | src/consensus/hotstuff.rs:281-292 | then heights are positions, each parent hash is the predecessor's hash, and the old chain is a prefix |
| HotStuffRuns.CertificateHashFixedIff | src/consensus/hotstuff.rs:270-279 | the certificate's hash is independent of map order iff all votes held name one hash |
| CommitBacking.RunKeepsBacking | src/consensus/hotstuff.rs:201-244 | in every run: phases are earned by quorums, held votes verified under their own voter, every commit backed by three quorums of counted votes, and 3 quorums per commit plus the votes held never exceed the votes counted |
| CommitBacking.VotersAreDistinct | src/consensus/hotstuff.rs:207-211 | a map of votes kept under their voters' keys has as many distinct voters as votes |
| CommitBacking.StepProperIff | src/consensus/hotstuff.rs:201-244 | one call keeps all held and spent votes validators' votes for the block at hand iff it is screened |
| CommitBacking.ProperIffScreened | src/consensus/hotstuff.rs:10 | the same over whole runs |
| CommitBacking.CommitsNeedValidators | src/consensus/hotstuff.rs:10 | in a screened run every committed block had verified votes of 2f+1 validators, for that block, in each phase |
| CommitBacking.StrangerCommits | src/consensus/hotstuff.rs:201-211 | unscreened, with f = 0, one non-validator's vote for another block commits whatever is pending |
| HonestRounds.Collecting | src/consensus/hotstuff.rs:209-240 | below the quorum, votes of new voters are collected and nothing else moves |
| HonestRounds.FullSegment | src/consensus/hotstuff.rs:209-240 | exactly the last of 2f+1 distinct votes ends the phase, with a certificate for the block voted on |
| HonestRounds.TipAcceptedIff | src/consensus/hotstuff.rs:177-196 | a replica takes up and votes for a block on its tip iff its lock, if any, is on the tip |
| HonestRounds.RoundEffect | src/consensus/hotstuff.rs:145-302 | a full round, taken up or not, commits what is pending at exactly its last vote, announces the next round and ends locked on the block voted on |
| HonestRounds.RoundCommits | src/consensus/hotstuff.rs:145-302 | a full round whose block is taken up commits exactly that block, whatever the lock was, and leaves the lock on it |
| HonestRounds.RoundCommitsIff | src/consensus/hotstuff.rs:145-302 | a full round commits its block iff the node proposed it itself, its lock let it through, or it was pending already |
| HonestRounds.RoundsBuildChain | src/consensus/hotstuff.rs:145-302 | once the first is taken up, k full rounds append their k blocks in order, each certified for itself, and keep the chain linked |
| HonestRounds.FreshNodeReachesHeight | src/consensus/hotstuff.rs:114-302 | from a new node they give a linked chain of height k |
| GoodRound.ReplicaVotesThrice | src/consensus/hotstuff.rs:175-266 | a replica answers a proposal and the two view changes of its round with the same verifying vote, once per phase, committing nothing itself |
| GoodRound.ReplicasFillRound | src/consensus/hotstuff.rs:175-266 | the answers of 2f+1 distinct replicas, delivered, are a full round |
| GoodRound.GoodRoundCommits | src/consensus/hotstuff.rs:145-302 | so the collecting node commits the block on them and is ready for the next round |
| GoodRound.ReplicaMovesOn | src/consensus/hotstuff.rs:248-302 | a replica that only votes leaves a round as unlocked, and with the same chain, as it entered it |
| Agreement.StepKeepsOneHashIff | src/consensus/hotstuff.rs:145-266 | a step keeps each node's signatures of a round on one hash iff it takes up no block other than one already signed there |
| Agreement.RunKeepsOneHash | src/consensus/hotstuff.rs:145-266 | so in every run in which no node takes up a second block after signing, all it signs in a round names one block |
| Agreement.QcAgreement | src/consensus/hotstuff.rs:30-43 | n = 3f+1, at most f faulty: two matching certificates of one round certify one block |
| Agreement.RunKeepsWellFormed | src/consensus/hotstuff.rs:201-279 | every announced certificate carries verified network votes of 2f+1 distinct voters |
| Agreement.AnnouncedQcAgreement | src/consensus/hotstuff.rs:201-279 | certificates the nodes announce agree within a round as soon as their votes match |
| Agreement.RunKeepsLocks | src/consensus/hotstuff.rs:220-229 | every lock is such a certificate |
| Agreement.LockAgreement | src/consensus/hotstuff.rs:220-229 | two nodes locked in one round by matching certificates are locked on one block |
| Agreement.StepKeepsHighRound | src/consensus/hotstuff.rs:248-257 | with certificates no newer than their view, rounds and high rounds never go back, the high round stays within the round, and views announced trail by at most one |
| Agreement.RunKeepsViewOrder | src/consensus/hotstuff.rs:209-279 | in every run that delivers only sent view changes: certificate round <= view round <= certificate round + 1, high round <= round, neither ever decreases |
| Certifying.HandAll | src/consensus/hotstuff.rs:175-197 | handing one block to fresh nodes in turn puts all their votes on the network and makes them sign nothing else |
| Certifying.HonestQuorumCertifies | src/consensus/hotstuff.rs:175-197 | 2f+1 honest validators handed one block at the start yield a certificate for it that meets every hypothesis of the agreement theorem |
| Lawful.StepIsLawful | src/consensus/hotstuff.rs:145-302 | under the rules every call keeps chain, votes and lock in step: about to commit, or locked off its tip, a node has only the block it locked on in this round pending |
| Lawful.StepKeepsSupport | src/consensus/hotstuff.rs:145-302 | a node that has committed a block, or is locked on it just above its tip, stands behind it for good |
| Finality.RunSettles | src/consensus/hotstuff.rs:145-302 | in every lawful run of the network: having committed a block a node signs in later rounds only blocks above it, locked off its tip it signs nothing later, and every commit carries a certificate the network bears out |
| Finality.SupportIsFinal | src/consensus/hotstuff.rs:145-302 | once f+1 honest validators stand behind a block, in every continuation certificates of later rounds are for blocks on top of it, and honest nodes commit by them only above its height |
| Finality.NothingBeside | src/consensus/hotstuff.rs:145-302 | and an honest node already past the round whose chain does not reach that height is stuck for good: its chain never changes again, as nobody certifies the blocks it lacks a second time |
| Finality.CommitAgreement | src/consensus/hotstuff.rs:201-292 | in a lawful run any two honest commits of one round are of one block, hence of one height |
| NetworkRound.RoundOnNetwork | src/consensus/hotstuff.rs:145-302 | from any network, 2f+1 validators that have room for a block, faulty ones among them or not, give a lawful run in which an honest one commits it in a fresh round |
| Fork.FirstRoundCommits | src/consensus/hotstuff.rs:145-302 | from the start there is a lawful run with an announced certificate, a lock on it and a commit by it: the agreement theorems are not empty |
| Fork.UnbackedIsDisplaced | src/consensus/hotstuff.rs:175-302 | with at most f honest validators behind a block, a continuation certifies a sibling in the next round and an honest node commits it |
| Fork.SiblingIff | src/consensus/hotstuff.rs:145-302 | while every honest validator stands behind a block or has room for its sibling, the sibling can still be certified in a later round iff at most f stand behind the block |
| Fork.DividedAtStart | src/consensus/hotstuff.rs:114-129 | a new network meets that hypothesis for every block of height 1, with nobody behind any |
| Fork.SiblingIsCommitted | src/consensus/hotstuff.rs:145-302 | with at most f honest validators behind a block, an honest node can still come to commit its sibling |
| Fork.SiblingCommitIff | src/consensus/hotstuff.rs:145-302 | once every honest node is past the rounds by which a block is supported, and stands behind it or has room for its sibling, an honest node can still commit the sibling iff at most f honest validators stand behind the block |
| ForkRuns.RoundsCanFork | src/consensus/hotstuff.rs:145-302 | in one lawful run without faults, f+1 validators commit a block in round 2, and another honest one then commits any other block of that height by its certified votes of round 1 |
| ForkRuns.DividedWithBackers | src/consensus/hotstuff.rs:145-302 | a lawful run without faults reaches the other side of both equivalences: f+1 validators behind a block, everyone past that round, all others with room for any sibling |
| ForkRuns.DividedUnbacked | src/consensus/hotstuff.rs:248-302 | a view change from the start reaches the near side of the commit equivalence, with nobody behind any block |
| Ledger.WorldState.constructor | src/storage/state.rs:26-33 | a new world state is empty |
| Ledger.WorldState.ApplyGenesis | src/storage/state.rs:35-61 | the in-place mint is AfterGenesis |
| Ledger.WorldState.ApplyBlock | src/storage/state.rs:63-95 | the in-place loop is the fold of the transactions over the state, minted first when due |
| Ledger.WorldState.ExecuteTx | src/storage/state.rs:69-93 | one turn of the loop, through its entry-or-insert updates, is AfterTx, whose condition and accounts LedgerInvariants.ExecutesIff and ExecutedAccounts state |
| Ledger.WorldState.BalanceOf | src/storage/state.rs:97-101 | the balance read off the map is the state's, zero for an unknown address |
| Ledger.WorldState.NonceOf | src/storage/state.rs:103-107 | likewise the nonce |
| LedgerInvariants.TxConservesIff | src/storage/state.rs:76-89 | execution keeps balances plus burned fees iff cost and credit wrap around together or not at all |
| LedgerInvariants.UnfitTxBreaksConservation | src/storage/state.rs:76-81 | a concrete transaction with amount + fee = 2^64 that breaks it |
| LedgerInvariants.GenesisConservesIff | src/storage/state.rs:38-60 | the mint creates exactly the declared supply iff treasury and faucet differ |
| LedgerInvariants.TxIsExact | src/storage/state.rs:76-89 | in a conserving state a transaction with amount + fee below 2^64 neither over- nor underflows |
| LedgerInvariants.LogConserves | src/storage/state.rs:63-95 | over every log of such transactions: balances plus all burned fees are the supply, 0 or 10^9, and no reachable addition or subtraction wraps |
| LedgerInvariants.LogCounts | src/storage/state.rs:83-91 | each nonce counts its address's executed transactions, the counter counts all, the nonces add up to it, every account lies under its own key |
| LedgerInvariants.TxsLeaveOthersAlone | src/storage/state.rs:69-93 | transactions remove no account and change none they do not name |
| LedgerInvariants.BlockLeavesOthersAlone | src/storage/state.rs:63-95 | nor does a block, the two mint accounts of block 0 excepted |
| LedgerInvariants.ExecutesIff | src/storage/state.rs:76 | a transaction is executed and counted iff its sender's balance covers amount plus fee as a word; a skipped one changes nothing |
| LedgerInvariants.ExecutedAccounts | src/storage/state.rs:76-91 | the two accounts after an execution, new ones and a transfer to oneself included: debit and nonce first, then the credit to what is left |
| LedgerInvariants.FirstTxFirst | src/storage/state.rs:69 | transactions are executed first to last |
| LedgerInvariants.BlockMints | src/storage/state.rs:63-67 | before its transactions a block of height 0 mints 900 and 100 million, unless there is supply already |
| BalanceHistory.BalanceAfterTx | src/storage/state.rs:76-89 | one executed transaction moves its amount from sender to receiver and costs the sender the fee; every other balance stays |
| BalanceHistory.BalanceIsHistory | src/storage/state.rs:63-101 | on every log every balance is its mint share plus receipts minus payments, modulo 2^64, and exactly when nothing wraps |
| BalanceHistory.FittingLogIsExact | src/storage/state.rs:63-101 | and it is exact whenever all costs fit a word |
| BalanceHistory.ReplayRunsIff | src/storage/state.rs:69-93 | a repeated transaction is executed again iff what the sender has left, as a word, covers its cost as a word; when nothing wraps, iff the balance covers it twice |
| Storage.BlockDb.SaveBlock | src/storage/db.rs:15-20 | saving overwrites the entry of the block's height and no other |
| Storage.BlockDb.LoadAllBlocks | src/storage/db.rs:22-31 | loading collects the entries in key order and sorts them by height, over any store ascending and with the blocks of each height in their order |
| Storage.StoreKeyOrder | src/storage/db.rs:16 | store keys are ordered as the heights are |
| Storage.SortIsStable | src/storage/db.rs:29 | the sort is ascending and keeps the blocks of each height in their order |
| Storage.SortOfSorted | src/storage/db.rs:29 | and changes nothing on what is already ascending |
| Storage.LoadInOrder | src/storage/db.rs:22-31 | so loading returns every stored block once, by strictly ascending height, and the sort is the identity |
| Storage.LoadGivesLastSaves | src/storage/db.rs:15-31 | after any saves, loading returns exactly the last block saved at each height |
| Storage.LoadRestoresChain | src/storage/db.rs:15-31 | a chain saved block by block is loaded back as it was |
| Node.Rebuild | src/main.rs:129-132 | replaying the loaded blocks in place is Replay |
| Node.FullNode.constructor | src/main.rs:122-132 | start-up over any store is OnStart: the chain is what was loaded, or genesis, the ledger its replay, the pool empty, and the round one above the tip's |
| Node.FullNode.HandleNewBlock | src/main.rs:169-186 | a block one above the tip goes to ledger, store and chain and is voted for; any other changes nothing |
| Node.FullNode.HandleSyncRequest | src/main.rs:219-231 | the reply holds exactly the blocks above the asked height, in order, and is absent iff there are none; on a chain by height it is the rest of the chain |
| Node.FullNode.HandleSyncResponse | src/main.rs:232-244 | the in-place loop is OnSync |
| Node.FullNode.Tick | src/main.rs:277-321 | one turn of the production loop is OnTick: in a round of its index the node drains the pool and applies, stores and appends one block, in any other it only counts the round |
| Node.FullNode.Queue | src/main.rs:187-190 | a transaction joins the end of the pool and nothing else moves |
| Node.StartIsConsistent | src/main.rs:122-132 | a first start gives a consistent node |
| Node.NodeIsReplay | src/main.rs:169-311 | in every interleaving of blocks, syncs, ticks, transactions and restarts: block i has height i, the store is the chain's, the ledger is the replay of the chain, and the chain only grows |
| Node.RestartRebuilds | src/main.rs:122-132 | a restart at any point rebuilds chain, store and ledger, with an empty pool, and resumes one above the tip's round |
| Node.NodeLedgerIsSound | src/main.rs:129-132 | so every running node's ledger counts its executions and, when costs fit, holds the supply |
| Node.SyncAppendsSubsequence | src/main.rs:232-244 | any list at all: the old chain stays a prefix and what is added is a height-contiguous subsequence of the list |
| Node.SyncConvergesIff | src/main.rs:219-244 | a node on a prefix of the sender's chain ends with exactly that chain iff the reply starts no higher than its tip |
| Node.SyncLeavesLongerAlone | src/main.rs:232-244 | a node that already extends the sender's chain is unchanged by any reply |
| Node.SyncTwice | src/main.rs:232-244 | a second delivery of a reply changes nothing |
| Restart.RoundCountsTicks | src/main.rs:269-321 | while a node stays up its round counts the turns of its production loop and nothing else moves it |
| Restart.ProducesAboveTip | src/main.rs:269-315 | whatever reaches it, a restarted node produces only in rounds of its index above the round of the tip it restarted on |
| Restart.ProducesAfterRestartIff | src/main.rs:269-321 | the rounds of its index in which a restarted node can come to produce are exactly those above the round of that tip |
| Restart.RoundRepeats | src/main.rs:169-321 | that may be a round it has produced in: a run from a first start that leaves two blocks of round 1 of one producer on its chain |
| Gossip.RunKeepsTraced | src/main.rs:169-315 | over gossip that loses, repeats and reorders: every node stays consistent, every block on a chain or in a message was produced, every produced block is kept by some node |
| Gossip.ChainsAgreeIff | src/main.rs:169-315 | after every run all chains are prefixes of one another iff no two different blocks were produced for one height |
| Gossip.EqualHeightEqualLedger | src/main.rs:169-315 | and then nodes of equal height have equal chains, balances, nonces and totals |
| Gossip.PlaceholderChangesNobody | src/main.rs:197-203 | the genesis block broadcast in place of a certified one changes no node |
| Convergence.ProductIsTakenUp | src/main.rs:169-315 | a leader's product is broadcast, and a node with the chain it was built on takes it up on delivery |
| Convergence.AnswerCatchesUp | src/main.rs:219-258 | a request for what lies above the tip, answered and delivered, leaves the asking node with the chain of the answering one, and changes nobody else |
| Convergence.CanConvergeIff | src/main.rs:169-315 | after any run, whatever was lost, repeated or restarted, the nodes can still all come to hold one chain iff no two different blocks were produced for one height |
| Binding.HashDeterminesBlock | src/types.rs:162-204 | blocks with honest roots and no repeated transaction have one hash iff they have one header and the same signed transactions |
| Binding.ProposalIsSound | src/consensus/hotstuff.rs:145-171 | a proposed block extends the tip, has an honest root, names the validator whose turn its round is, and carries the clock's time, no state root and no certificate |
| Binding.ProducesIff | src/main.rs:277-320 | a turn of the production loop makes a block iff the round falls on the node's index modulo three, with or without queued transactions; otherwise it only counts the round |
| Binding.ProductIsSound | src/main.rs:281-315 | a produced block extends the tip and has an honest root over the first hundred queued transactions, after which the pool is empty; it names round and time but neither proposer nor state root, and is applied, stored and appended |
| Binding.UptakeVotesConflictIff | src/main.rs:179-184 | the votes a node sends for two blocks of its chain conflict within a round iff the blocks name the same round |
| Binding.UptakeVotesCanConflict | src/main.rs:169-186 | a fresh node that receives two next blocks of one round takes both up and so sends conflicting votes |
| Binding.CertifiedBlocksEqual | src/consensus/hotstuff.rs:30-43 | certificates of one round never certify blocks that differ in header or signed transactions |
| Binding.TipDeterminesHistory | src/types.rs:151-167 | linked chains whose last blocks share a hash agree on every header, back to genesis |

## Left out

- Finality.SupportIsFinal: is about certificates of rounds later than those by which the block is supported, because it is false of earlier ones (ForkRuns.RoundsCanFork).
- Fork.SiblingCommitIff: like Fork.SiblingIff, is stated where every honest validator stands behind the block or has room for its sibling; whether nodes with other tips can be brought to a common one is not modelled, as the consensus node fetches no blocks.
- HonestRounds.RoundCommits: needs the round's block taken up; a node locked off its tip refuses every proposal of others on its tip (HonestRounds.TipAcceptedIff) until it proposes itself or collects a precommit quorum that moves the lock. No pacemaker brings either about.
- LedgerInvariants.LogCounts: nonces and counter are stated modulo 2^64, and the sum of nonces while fewer than 2^64 transactions were executed, because the words wrap around beyond that.
- The `ConsensusPropose` arm of the message loop (`src/main.rs:205-218`), which signs a proposal a second time for the block's own round; `Agreement` covers the votes of `HotStuffNode` itself.
- The certificate sent along with a proposal, which the replica ignores (`src/consensus/hotstuff.rs:175`), and `Block.qc` of received blocks, which nobody checks.
- The `Timeout` message, `block_interval` and `timeout_ms`: no pacemaker is implemented.
- Faucet claims and their cooldown (`src/storage/state.rs:109-128`): wall-clock time, not part of the replayed state; the field exists and starts empty.
- The `Mempool` type (`src/mempool/mod.rs`), which the node does not use; its pool is a list.
- libp2p, gossip topics, discovery, the HTTP interface, explorer, wallet, command line and containers: plumbing and user interface.
- The inside of Blake3, Ed25519, hexadecimal decoding, the serializer and the embedded database: parameters, an injective layout and an ordered map. A stored block is the block itself, and write failures, which the program discards, do not occur.
- Validator stake and the address prefix for display: never used in a decision.
- Interleavings inside one handler: the locks the program takes make each arm of its loops one step.
