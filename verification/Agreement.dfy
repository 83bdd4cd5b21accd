/**
  Several HotStuff nodes on one network. Honest nodes are driven by any calls in
  any order; everyone else may put any vote on the network, except one that would
  verify as an honest node's signature on something it never signed.
 */
module Agreement {
  import opened Wrappers
  import opened Bytes
  import opened Types
  import opened Quorum
  import opened HotStuff
  import opened HotStuffRuns
  import CommitBacking
  import Encoding

  /** `keys` holds the honest validators and their signing keys. */
  datatype World = World(crypto: Crypto, config: Config, keys: map<Address, bytes>) {
    ghost predicate Valid() {
      && config.validators != []
      && forall a | a in keys :: crypto.publicKey(keys[a]) == a
    }

    function Id(a: Address): Identity
      requires a in keys
    {
      Identity(crypto, a, keys[a], config)
    }
  }

  datatype Signed = Signed(voter: Address, blockHash: Digest, round: u64)

  datatype View = View(round: nat, qc: QuorumCert)

  /** What honest nodes signed, the votes on the network and the view changes sent. */
  datatype Network = Network(
    nodes: map<Address, State>,
    signed: set<Signed>,
    pool: set<Vote>,
    views: set<View>)

  datatype Action = Deliver(node: Address, event: Event) | Inject(vote: Vote)

  ghost function Start(w: World): Network {
    Network(map a | a in w.keys :: Init(), {}, {}, {})
  }

  ghost predicate SignedAlike(w: World, signed: set<Signed>, v: Vote) {
    exists m | m in signed :: m.voter == v.voter
      && w.crypto.hash(VotePreimage(m.blockHash, m.round)) == w.crypto.hash(VotePreimage(v.blockHash, v.round))
  }

  /** The voter's key accepts the signature over block hash and round. */
  ghost predicate Accepted(c: Crypto, v: Vote) {
    c.accepts(v.voter, c.hash(VotePreimage(v.blockHash, v.round)), v.signature)
  }

  /** Votes come off the network, and signatures are unforgeable. */
  ghost predicate Possible(w: World, n: Network, act: Action) {
    match act
    case Deliver(a, e) =>
      && a in n.nodes && a in w.keys && Enabled(w.Id(a), n.nodes[a], e)
      && (e.Voting? ==> e.vote in n.pool)
    case Inject(v) =>
      v.voter in w.keys && w.crypto.accepts(v.voter, w.crypto.hash(VotePreimage(v.blockHash, v.round)), v.signature)
      ==> SignedAlike(w, n.signed, v)
  }

  /** A node that has signed in its current round takes up no block there but the one it signed. */
  ghost predicate OneBlock(w: World, n: Network, act: Action)
    requires Possible(w, n, act)
  {
    act.Deliver? ==>
      var s := n.nodes[act.node];
      var taken := TakenUp(w.Id(act.node), s, act.event);
      taken.Some? ==>
        forall m | m in n.signed && m.voter == act.node && m.round == s.round ::
          m.blockHash == BlockHash(w.crypto, taken.value)
  }

  ghost predicate CanAct(w: World, n: Network, act: Action) {
    Possible(w, n, act) && OneBlock(w, n, act)
  }

  ghost function Send(n: Network, a: Address, reply: Option<Msg>): Network {
    match reply
    case Some(VoteMsg(v)) => n.(signed := n.signed + {Signed(a, v.blockHash, v.round)}, pool := n.pool + {v})
    case Some(NewView(round, qc)) => n.(views := n.views + {View(round, qc)})
    case _ => n
  }

  ghost function Act(w: World, n: Network, act: Action): Network
    requires Possible(w, n, act)
  {
    match act
    case Deliver(a, e) =>
      var out := Step(w.Id(a), n.nodes[a], e);
      Send(n.(nodes := n.nodes[a := out.state]), a, out.reply)
    case Inject(v) => n.(pool := n.pool + {v})
  }

  lemma DeliverShape(w: World, n: Network, a: Address, e: Event)
    requires Possible(w, n, Deliver(a, e))
    ensures var m, out := Act(w, n, Deliver(a, e)), Step(w.Id(a), n.nodes[a], e);
      && m.nodes == n.nodes[a := out.state] && n.pool <= m.pool && n.views <= m.views
      && (forall v | v in m.views :: v in n.views || out.reply == Some(NewView(v.round, v.qc)))
      && (forall x | x in m.signed :: x in n.signed || (x.voter == a && out.reply.Some?
            && out.reply.value.VoteMsg? && x.blockHash == out.reply.value.vote.blockHash
            && x.round == out.reply.value.vote.round))
      && n.signed <= m.signed
  {
    hide Step, Enabled;
  }

  ghost predicate CanRun(w: World, n: Network, acts: seq<Action>)
    decreases |acts|
  {
    acts != [] ==> CanAct(w, n, acts[0]) && CanRun(w, Act(w, n, acts[0]), acts[1..])
  }

  ghost function RunNet(w: World, n: Network, acts: seq<Action>): Network
    requires CanRun(w, n, acts)
    decreases |acts|
  {
    if acts == [] then n else RunNet(w, Act(w, n, acts[0]), acts[1..])
  }

  // ---- one hash signed per node and round ----

  ghost predicate PendingSigned(c: Crypto, signed: set<Signed>, a: Address, s: State) {
    s.pending.Some? ==>
      forall m | m in signed && m.voter == a && m.round == s.round :: m.blockHash == BlockHash(c, s.pending.value)
  }

  ghost predicate SingleHash(signed: set<Signed>) {
    forall m, m' | m in signed && m' in signed && m.voter == m'.voter && m.round == m'.round ::
      m.blockHash == m'.blockHash
  }

  ghost predicate OneHashPerRound(w: World, n: Network) {
    && (forall a | a in n.nodes :: PendingSigned(w.crypto, n.signed, a, n.nodes[a]))
    && SingleHash(n.signed)
    && PoolSigned(w, n)
  }

  ghost predicate PoolSigned(w: World, n: Network) {
    forall v | v in n.pool && v.voter in w.keys && VerifyVote(w.crypto, v) :: SignedAlike(w, n.signed, v)
  }

  lemma DeliverKeepsPoolSigned(w: World, n: Network, a: Address, e: Event)
    requires w.Valid() && PoolSigned(w, n) && Possible(w, n, Deliver(a, e))
    ensures PoolSigned(w, Act(w, n, Deliver(a, e)))
  {
    hide Step, Enabled, VerifyVote, VoteSigningBytes, BlockHash, TakenUp;
    var id, s := w.Id(a), n.nodes[a];
    StepSignsPending(id, s, e);
    var m := Act(w, n, Deliver(a, e));
    forall v | v in m.pool && v.voter in w.keys && VerifyVote(w.crypto, v)
      ensures SignedAlike(w, m.signed, v)
    {
      if v in n.pool {
        assert SignedAlike(w, n.signed, v);
      } else {
        assert v.voter == a;
        assert Signed(a, v.blockHash, v.round) in m.signed;
      }
    }
  }

  /** What node `a` signs in this step, and had signed before in this round, names what is pending after it. */
  lemma DeliverSignsPending(w: World, n: Network, a: Address, e: Event)
    requires OneHashPerRound(w, n) && CanAct(w, n, Deliver(a, e))
    ensures var m := Act(w, n, Deliver(a, e));
      && PendingSigned(w.crypto, m.signed, a, m.nodes[a])
      && (forall x | x in m.signed && x !in n.signed ::
            x.voter == a && m.nodes[a].pending.Some? && x.round == m.nodes[a].round)
  {
    hide Step, Enabled, PoolSigned, BlockHash, SingleHash, TakenUp;
    var id, s := w.Id(a), n.nodes[a];
    StepSignsPending(id, s, e);
    DeliverShape(w, n, a, e);
    assert PendingSigned(w.crypto, n.signed, a, s);
    var m := Act(w, n, Deliver(a, e));
    hide Act, VoteSigningBytes;
  }

  lemma DeliverKeepsSingleHash(w: World, n: Network, a: Address, e: Event)
    requires OneHashPerRound(w, n) && CanAct(w, n, Deliver(a, e))
    ensures var m := Act(w, n, Deliver(a, e));
      SingleHash(m.signed) && forall b | b in m.nodes :: PendingSigned(w.crypto, m.signed, b, m.nodes[b])
  {
    assert Possible(w, n, Deliver(a, e));
    hide Step, Enabled, PoolSigned, BlockHash, TakenUp, CanAct, Possible;
    DeliverSignsPending(w, n, a, e);
    DeliverShape(w, n, a, e);
    var m := Act(w, n, Deliver(a, e));
    hide Act;
    forall b | b in m.nodes ensures PendingSigned(w.crypto, m.signed, b, m.nodes[b]) {
      if b != a { assert PendingSigned(w.crypto, n.signed, b, n.nodes[b]); }
    }
  }

  lemma DeliverKeepsOneHash(w: World, n: Network, a: Address, e: Event)
    requires w.Valid() && OneHashPerRound(w, n) && CanAct(w, n, Deliver(a, e))
    ensures OneHashPerRound(w, Act(w, n, Deliver(a, e)))
  {
    DeliverKeepsSingleHash(w, n, a, e);
    DeliverKeepsPoolSigned(w, n, a, e);
    hide Act, CanAct, PendingSigned, SingleHash, PoolSigned;
  }

  /** A step keeps one hash per node and round exactly when it takes up no second block after a signature. */
  lemma StepKeepsOneHashIff(w: World, n: Network, act: Action)
    requires w.Valid() && OneHashPerRound(w, n) && Possible(w, n, act)
    ensures OneHashPerRound(w, Act(w, n, act)) <==> OneBlock(w, n, act)
  {
    if OneBlock(w, n, act) {
      ActKeepsOneHash(w, n, act);
    } else {
      SecondBlockBreaks(w, n, act.node, act.event);
    }
  }

  lemma SecondBlockBreaks(w: World, n: Network, a: Address, e: Event)
    requires Possible(w, n, Deliver(a, e)) && !OneBlock(w, n, Deliver(a, e))
    ensures !OneHashPerRound(w, Act(w, n, Deliver(a, e)))
  {
    hide Step, Enabled, PoolSigned, SingleHash, BlockHash, TakenUp;
    var id, s := w.Id(a), n.nodes[a];
    StepSignsPending(id, s, e);
    DeliverShape(w, n, a, e);
    var m := Act(w, n, Deliver(a, e));
    assert m.nodes[a].pending == TakenUp(id, s, e);
    assert !PendingSigned(w.crypto, m.signed, a, m.nodes[a]);
  }

  /** In every run a node's signatures within a round name one hash. */
  lemma {:induction false} RunKeepsOneHash(w: World, n: Network, acts: seq<Action>)
    requires w.Valid() && OneHashPerRound(w, n) && CanRun(w, n, acts)
    ensures OneHashPerRound(w, RunNet(w, n, acts))
    decreases |acts|
  {
    if acts == [] {
    } else {
      ActKeepsOneHash(w, n, acts[0]);
      RunKeepsOneHash(w, Act(w, n, acts[0]), acts[1..]);
    }
  }

  lemma ActKeepsOneHash(w: World, n: Network, act: Action)
    requires w.Valid() && OneHashPerRound(w, n) && CanAct(w, n, act)
    ensures OneHashPerRound(w, Act(w, n, act))
  {
    if act.Deliver? { DeliverKeepsOneHash(w, n, act.node, act.event); }
  }

  // ---- agreement ----

  ghost function QcVoters(qc: QuorumCert): set<Address> {
    set v | v in qc.votes :: v.voter
  }

  /** Every vote names the certificate's block and round and comes from a validator. */
  ghost predicate Uniform(cfg: Config, qc: QuorumCert) {
    forall v | v in qc.votes :: v.blockHash == qc.blockHash && v.round == qc.round && v.voter in cfg.Members()
  }

  /** A certificate the protocol accepts: 2f+1 valid matching votes of validators, all seen on the network. */
  ghost predicate Certifies(w: World, pool: set<Vote>, qc: QuorumCert) {
    Uniform(w.config, qc) && QuorumFormed(w, pool, qc)
  }

  /** The vote encodings that were ever signed by an honest node or stand in these certificates. */
  ghost function VoteInputs(n: Network, p: QuorumCert, q: QuorumCert): set<bytes> {
    (set m | m in n.signed :: VotePreimage(m.blockHash, m.round))
    + {VotePreimage(p.blockHash, p.round), VotePreimage(q.blockHash, q.round)}
  }

  /** n = 3f+1 validators with different addresses, at most f of them not honest. */
  ghost predicate Tolerant(w: World) {
    && w.Valid()
    && DistinctAddresses(w.config.validators) && |w.config.validators| == 3 * w.config.f + 1
    && |w.config.Members() - w.keys.Keys| <= w.config.f
  }

  lemma HonestVoterSigned(w: World, n: Network, qc: QuorumCert, a: Address, inputs: set<bytes>)
    requires OneHashPerRound(w, n) && Certifies(w, n.pool, qc) && a in QcVoters(qc) && a in w.keys
    requires w.crypto.CollisionFreeOn(inputs) && VotePreimage(qc.blockHash, qc.round) in inputs
    requires forall m | m in n.signed :: VotePreimage(m.blockHash, m.round) in inputs
    ensures Signed(a, qc.blockHash, qc.round) in n.signed
  {
    var v :| v in qc.votes && v.voter == a;
    assert SignedAlike(w, n.signed, v);
    var m :| m in n.signed && m.voter == a
      && w.crypto.hash(VotePreimage(m.blockHash, m.round)) == w.crypto.hash(VotePreimage(v.blockHash, v.round));
    Encoding.VotePreimageInjective(m.blockHash, m.round, v.blockHash, v.round);
  }

  lemma SharedHonestVoter(w: World, p: QuorumCert, q: QuorumCert) returns (a: Address)
    requires Uniform(w.config, p) && Uniform(w.config, q)
    requires |QcVoters(p)| >= w.config.QuorumSize() && |QcVoters(q)| >= w.config.QuorumSize()
    requires |w.config.Members()| == 3 * w.config.f + 1
    requires |w.config.Members() - w.keys.Keys| <= w.config.f
    ensures a in QcVoters(p) && a in QcVoters(q) && a in w.keys
  {
    var members := w.config.Members();
    var shared := QcVoters(p) * QcVoters(q);
    assert QcVoters(p) <= members && QcVoters(q) <= members;
    QuorumIntersection(members, QcVoters(p), QcVoters(q), w.config.f);
    SubsetSize(shared - w.keys.Keys, members - w.keys.Keys);
    a := SharedElement(shared, w.keys.Keys);
  }

  /**
    With n = 3f+1 validators of which at most f are faulty, and at most one block
    handed to an honest node per round: two certificates of one round certify one block.
   */
  lemma QcAgreement(w: World, acts: seq<Action>, p: QuorumCert, q: QuorumCert)
    requires Tolerant(w) && CanRun(w, Start(w), acts)
    requires var n := RunNet(w, Start(w), acts);
      Certifies(w, n.pool, p) && Certifies(w, n.pool, q) && w.crypto.CollisionFreeOn(VoteInputs(n, p, q))
    requires p.round == q.round
    ensures p.blockHash == q.blockHash
  {
    var n := RunNet(w, Start(w), acts);
    RunKeepsOneHash(w, Start(w), acts);
    MembersSize(w.config.validators, w.config.f);
    var a := SharedHonestVoter(w, p, q);
    HonestVoterSigned(w, n, p, a, VoteInputs(n, p, q));
    HonestVoterSigned(w, n, q, a, VoteInputs(n, p, q));
    assert SingleHash(n.signed);
  }

  // ---- certificates the nodes themselves form ----

  ghost predicate FromPool(c: Crypto, pool: set<Vote>, m: VoteMap) {
    forall k | k in m ::
      && VoterKey(m[k]) == k && m[k] in pool
      && c.accepts(m[k].voter, c.hash(VotePreimage(m[k].blockHash, m[k].round)), m[k].signature)
  }

  ghost predicate HoldsFromPool(c: Crypto, pool: set<Vote>, s: State) {
    FromPool(c, pool, s.prepareVotes) && FromPool(c, pool, s.precommitVotes) && FromPool(c, pool, s.commitVotes)
  }

  /** 2f+1 distinct voters whose verified votes are on the network. */
  ghost predicate QuorumFormed(w: World, pool: set<Vote>, qc: QuorumCert) {
    && (forall v | v in qc.votes ::
          v in pool && w.crypto.accepts(v.voter, w.crypto.hash(VotePreimage(v.blockHash, v.round)), v.signature))
    && |QcVoters(qc)| >= w.config.QuorumSize()
  }

  ghost predicate WellFormed(w: World, n: Network) {
    && (forall a | a in n.nodes :: HoldsFromPool(w.crypto, n.pool, n.nodes[a]))
    && (forall v | v in n.views :: QuorumFormed(w, n.pool, v.qc))
  }

  lemma CertificateVoters(m: VoteMap, order: seq<string>, round: u64)
    requires Enumerates(order, m) && forall k | k in m :: VoterKey(m[k]) == k
    ensures |QcVoters(Certificate(VotesIn(m, order), round))| == |m|
  {
    CommitBacking.VotersAreDistinct(m);
    VotersListed(m, order, VotesIn(m, order));
  }

  lemma VotersListed(m: VoteMap, order: seq<string>, votes: seq<Vote>)
    requires Enumerates(order, m) && votes == VotesIn(m, order)
    ensures (set v | v in votes :: v.voter) == CommitBacking.Voters(m)
  {
    forall k | k in m ensures m[k] in votes {
      var i :| 0 <= i < |order| && order[i] == k;
      assert votes[i] == m[k];
    }
    forall v | v in votes ensures exists k :: k in m && m[k] == v {
      var i :| 0 <= i < |votes| && votes[i] == v;
      assert order[i] in m;
    }
  }

  lemma InsertHoldsFromPool(c: Crypto, s: State, vote: Vote, pool: set<Vote>)
    requires HoldsFromPool(c, pool, s) && VerifyVote(c, vote) && vote in pool
    ensures HoldsFromPool(c, pool, Insert(s, vote)) && FromPool(c, pool, Collected(s, vote))
  {
    Encoding.VoteVerifiesIff(c, vote);
    hide VerifyVote, VotePreimage, VoterKey;
  }

  lemma EndPhaseHoldsFromPool(c: Crypto, s: State, qc: QuorumCert, pool: set<Vote>)
    requires HoldsFromPool(c, pool, s) && s.phase != Decide
    ensures var out := EndPhase(s, qc);
      HoldsFromPool(c, pool, out.state) && out.reply.Some? && out.reply.value.NewView? && out.reply.value.qc == qc
  {
    hide VerifyVote, VotePreimage, VoterKey;
  }

  lemma VoteFormsQuorum(w: World, id: Identity, s: State, vote: Vote, order: seq<string>, pool: set<Vote>)
    requires id.crypto == w.crypto && id.config == w.config && HoldsFromPool(w.crypto, pool, s)
    requires OrderFits(id, s, vote, order) && vote in pool
    ensures var out := OnHandleVote(id, s, vote, order);
      && HoldsFromPool(w.crypto, pool, out.state)
      && (out.reply.Some? ==> out.reply.value.NewView? && QuorumFormed(w, pool, out.reply.value.qc))
  {
    hide VerifyVote, VotePreimage, VoterKey, Insert, EndPhase, HoldsFromPool, Certificate, VotesIn;
    if Counts(id, s, vote) {
      InsertHoldsFromPool(w.crypto, s, vote, pool);
      InsertOnlyAddsVotes(s, vote);
      if Completes(id, s, vote) {
        FullMapFormsQuorum(w, Collected(s, vote), order, s.round, pool);
        var qc := Certificate(VotesIn(Collected(s, vote), order), s.round);
        EndPhaseHoldsFromPool(w.crypto, Insert(s, vote), qc, pool);
      }
    }
  }

  lemma FullMapFormsQuorum(w: World, m: VoteMap, order: seq<string>, round: u64, pool: set<Vote>)
    requires Enumerates(order, m) && FromPool(w.crypto, pool, m) && |m| >= w.config.QuorumSize()
    ensures QuorumFormed(w, pool, Certificate(VotesIn(m, order), round))
  {
    hide VerifyVote, VotePreimage, VoterKey;
    CertificateVoters(m, order, round);
  }

  lemma PoolGrows(w: World, pool: set<Vote>, larger: set<Vote>, s: State)
    requires pool <= larger && HoldsFromPool(w.crypto, pool, s)
    ensures HoldsFromPool(w.crypto, larger, s)
  {
  }

  lemma StepHoldsFromPool(w: World, id: Identity, s: State, e: Event, pool: set<Vote>)
    requires id.crypto == w.crypto && id.config == w.config && HoldsFromPool(w.crypto, pool, s)
    requires Enabled(id, s, e) && (e.Voting? ==> e.vote in pool)
    ensures var out := Step(id, s, e);
      && HoldsFromPool(w.crypto, pool, out.state)
      && (out.reply.Some? && out.reply.value.NewView? ==> QuorumFormed(w, pool, out.reply.value.qc))
  {
    if e.Voting? {
      hide OnHandleVote, HoldsFromPool, QuorumFormed, VerifyVote;
      VoteFormsQuorum(w, id, s, e.vote, e.order, pool);
    } else {
      CommitBacking.OtherStepsKeepVotes(id, s, e);
      OtherStepsFormNoQc(id, s, e);
      hide Step, VerifyVote, VoterKey, QuorumFormed;
    }
  }

  lemma OtherStepsFormNoQc(id: Identity, s: State, e: Event)
    requires Enabled(id, s, e) && !e.Voting?
    ensures var reply := Step(id, s, e).reply; reply.Some? ==> !reply.value.NewView?
  {
    hide BlockHash, NewBlock, SignVote;
  }

  lemma ActKeepsWellFormed(w: World, n: Network, act: Action)
    requires WellFormed(w, n) && CanAct(w, n, act)
    ensures WellFormed(w, Act(w, n, act))
  {
    match act
    case Inject(v) => {
      var m := Act(w, n, act);
      forall a | a in n.nodes ensures HoldsFromPool(w.crypto, m.pool, m.nodes[a]) {
        PoolGrows(w, n.pool, m.pool, n.nodes[a]);
      }
      hide HoldsFromPool, VerifyVote;
    }
    case Deliver(b, e) => {
      DeliverKeepsWellFormed(w, n, b, e);
    }
  }

  lemma DeliverKeepsWellFormed(w: World, n: Network, b: Address, e: Event)
    requires WellFormed(w, n) && CanAct(w, n, Deliver(b, e))
    ensures WellFormed(w, Act(w, n, Deliver(b, e)))
  {
    assert HoldsFromPool(w.crypto, n.pool, n.nodes[b]);
    StepHoldsFromPool(w, w.Id(b), n.nodes[b], e, n.pool);
    DeliverShape(w, n, b, e);
    var m := Act(w, n, Deliver(b, e));
    hide Act, Step, Enabled, VerifyVote, HoldsFromPool;
    forall a | a in m.nodes ensures HoldsFromPool(w.crypto, m.pool, m.nodes[a]) {
      PoolGrows(w, n.pool, m.pool, m.nodes[a]);
    }
  }

  lemma {:induction false} RunKeepsWellFormed(w: World, n: Network, acts: seq<Action>)
    requires WellFormed(w, n) && CanRun(w, n, acts)
    ensures WellFormed(w, RunNet(w, n, acts))
    decreases |acts|
  {
    if acts == [] {
    } else {
      ActKeepsWellFormed(w, n, acts[0]);
      RunKeepsWellFormed(w, Act(w, n, acts[0]), acts[1..]);
    }
  }

  /** Agreement for what nodes announce: uniform certificates of one round name one block, whoever formed them. */
  lemma AnnouncedQcAgreement(w: World, acts: seq<Action>, p: View, q: View)
    requires Tolerant(w) && CanRun(w, Start(w), acts)
    requires var n := RunNet(w, Start(w), acts);
      p in n.views && q in n.views && w.crypto.CollisionFreeOn(VoteInputs(n, p.qc, q.qc))
    requires Uniform(w.config, p.qc) && Uniform(w.config, q.qc) && p.qc.round == q.qc.round
    ensures p.qc.blockHash == q.qc.blockHash
  {
    StartInOrder(w);
    hide CanAct, Act, RunNet, CanRun, OneHashPerRound;
    RunKeepsWellFormed(w, Start(w), acts);
    QcAgreement(w, acts, p.qc, q.qc);
  }

  // ---- locks ----

  /** What a node is locked on is a certificate that two thirds of the voters signed. */
  ghost predicate LocksFormed(w: World, n: Network) {
    forall a | a in n.nodes && n.nodes[a].lockedQc.Some? :: QuorumFormed(w, n.pool, n.nodes[a].lockedQc.value)
  }

  lemma EndPhaseLocksAnnounced(s: State, qc: QuorumCert)
    ensures var out := EndPhase(s, qc);
      out.state.lockedQc == s.lockedQc
      || (out.state.lockedQc == Some(qc) && s.phase == PreCommit && out.reply == Some(NewView(s.round, qc)))
  {
  }

  /** A lock only moves to a certificate that is announced in the same step. */
  lemma StepLocksAnnounced(id: Identity, s: State, e: Event)
    requires Enabled(id, s, e)
    ensures var out := Step(id, s, e);
      out.state.lockedQc == s.lockedQc
      || (out.reply.Some? && out.reply.value.NewView? && out.state.lockedQc == Some(out.reply.value.qc))
  {
    if e.Voting? {
      hide Insert, EndPhase, VerifyVote;
      if Completes(id, s, e.vote) {
        InsertOnlyAddsVotes(s, e.vote);
        EndPhaseLocksAnnounced(Insert(s, e.vote), Certificate(VotesIn(Collected(s, e.vote), e.order), s.round));
      } else if Counts(id, s, e.vote) {
        InsertOnlyAddsVotes(s, e.vote);
      }
    } else {
      hide BlockHash, NewBlock, SignVote;
    }
  }

  lemma PoolGrowsQuorum(w: World, pool: set<Vote>, larger: set<Vote>, qc: QuorumCert)
    requires pool <= larger && QuorumFormed(w, pool, qc)
    ensures QuorumFormed(w, larger, qc)
  {
  }

  lemma ActKeepsLocks(w: World, n: Network, act: Action)
    requires WellFormed(w, n) && LocksFormed(w, n) && CanAct(w, n, act)
    ensures LocksFormed(w, Act(w, n, act))
  {
    match act
    case Inject(v) => { hide QuorumFormed; PoolGrowsLocks(w, n, n.pool + {v}); }
    case Deliver(b, e) => DeliverKeepsLocks(w, n, b, e);
  }

  lemma PoolGrowsLocks(w: World, n: Network, larger: set<Vote>)
    requires LocksFormed(w, n) && n.pool <= larger
    ensures LocksFormed(w, n.(pool := larger))
  {
    hide QuorumFormed;
    forall a | a in n.nodes && n.nodes[a].lockedQc.Some?
      ensures QuorumFormed(w, larger, n.nodes[a].lockedQc.value)
    {
      PoolGrowsQuorum(w, n.pool, larger, n.nodes[a].lockedQc.value);
    }
  }

  lemma DeliverKeepsLocks(w: World, n: Network, b: Address, e: Event)
    requires WellFormed(w, n) && LocksFormed(w, n) && CanAct(w, n, Deliver(b, e))
    ensures LocksFormed(w, Act(w, n, Deliver(b, e)))
  {
    assert HoldsFromPool(w.crypto, n.pool, n.nodes[b]);
    hide HoldsFromPool, QuorumFormed, VerifyVote, Step, Enabled;
    StepHoldsFromPool(w, w.Id(b), n.nodes[b], e, n.pool);
    StepLocksAnnounced(w.Id(b), n.nodes[b], e);
    DeliverShape(w, n, b, e);
    var m := Act(w, n, Deliver(b, e));
    hide Act;
    forall a | a in m.nodes && m.nodes[a].lockedQc.Some?
      ensures QuorumFormed(w, m.pool, m.nodes[a].lockedQc.value)
    {
      PoolGrowsQuorum(w, n.pool, m.pool, m.nodes[a].lockedQc.value);
    }
  }

  /** In every run locks are certificates of 2f+1 distinct voters with verified votes from the network. */
  lemma {:induction false} RunKeepsLocks(w: World, n: Network, acts: seq<Action>)
    requires WellFormed(w, n) && LocksFormed(w, n) && CanRun(w, n, acts)
    ensures LocksFormed(w, RunNet(w, n, acts))
    decreases |acts|
  {
    if acts == [] {
    } else {
      hide WellFormed, LocksFormed, CanAct, Act;
      ActKeepsWellFormed(w, n, acts[0]);
      ActKeepsLocks(w, n, acts[0]);
      RunKeepsLocks(w, Act(w, n, acts[0]), acts[1..]);
    }
  }

  /** Two honest nodes locked by uniform certificates of one round are locked on one block. */
  lemma LockAgreement(w: World, acts: seq<Action>, a: Address, b: Address)
    requires Tolerant(w) && CanRun(w, Start(w), acts)
    requires var n := RunNet(w, Start(w), acts);
      && a in n.nodes && b in n.nodes && n.nodes[a].lockedQc.Some? && n.nodes[b].lockedQc.Some?
      && var p, q := n.nodes[a].lockedQc.value, n.nodes[b].lockedQc.value;
      && Uniform(w.config, p) && Uniform(w.config, q) && p.round == q.round
      && w.crypto.CollisionFreeOn(VoteInputs(n, p, q))
    ensures var n := RunNet(w, Start(w), acts);
      n.nodes[a].lockedQc.value.blockHash == n.nodes[b].lockedQc.value.blockHash
  {
    StartInOrder(w);
    hide CanAct, Act, RunNet, CanRun, OneHashPerRound, WellFormed;
    RunKeepsLocks(w, Start(w), acts);
    var n := RunNet(w, Start(w), acts);
    QcAgreement(w, acts, n.nodes[a].lockedQc.value, n.nodes[b].lockedQc.value);
  }

  // ---- order of rounds and certificates ----

  /** View changes are delivered only if some node sent them. */
  ghost predicate Relayed(n: Network, act: Action) {
    act.Deliver? && act.event.Viewing? ==> View(act.event.round, act.event.qc) in n.views
  }

  ghost predicate RelayedRun(w: World, n: Network, acts: seq<Action>)
    requires CanRun(w, n, acts)
    decreases |acts|
  {
    acts != [] ==> Relayed(n, acts[0]) && RelayedRun(w, Act(w, n, acts[0]), acts[1..])
  }

  ghost predicate ViewsInOrder(n: Network) {
    && (forall v | v in n.views :: v.qc.round <= v.round <= v.qc.round + 1)
    && (forall a | a in n.nodes :: HighRound(n.nodes[a]) <= n.nodes[a].round)
  }

  ghost predicate NodesAdvance(n: Network, m: Network) {
    n.nodes.Keys == m.nodes.Keys && forall a | a in n.nodes ::
      n.nodes[a].round <= m.nodes[a].round && HighRound(n.nodes[a]) <= HighRound(m.nodes[a])
  }

  lemma StepKeepsHighRound(id: Identity, s: State, e: Event)
    requires Enabled(id, s, e) && HighRound(s) <= s.round
    requires e.Viewing? ==> e.qc.round <= e.round
    ensures var t, reply := Next(id, s, e), Step(id, s, e).reply;
      && s.round <= t.round && HighRound(s) <= HighRound(t) <= t.round
      && (reply.Some? && reply.value.NewView? ==> reply.value.qc.round <= reply.value.round <= reply.value.qc.round + 1)
  {
    match e
    case Proposing(_, _) => { hide BlockHash, NewBlock; }
    case Proposal(_) => { hide BlockHash, SignVote; }
    case Viewing(_, _) => { hide BlockHash, SignVote; }
    case Voting(vote, order) => {
      VoteEffect(id, s, vote, order);
      hide OnHandleVote;
    }
  }

  lemma ActKeepsViewOrder(w: World, n: Network, act: Action)
    requires ViewsInOrder(n) && CanAct(w, n, act) && Relayed(n, act)
    ensures ViewsInOrder(Act(w, n, act)) && NodesAdvance(n, Act(w, n, act))
  {
    if act.Deliver? {
      var a, e := act.node, act.event;
      assert HighRound(n.nodes[a]) <= n.nodes[a].round;
      StepKeepsHighRound(w.Id(a), n.nodes[a], e);
      DeliverShape(w, n, a, e);
      hide Act, Step, Enabled, HighRound;
    }
  }

  /** While only sent view changes are delivered, certificates trail rounds by at most one, and nothing goes back. */
  lemma {:induction false} RunKeepsViewOrder(w: World, n: Network, acts: seq<Action>)
    requires ViewsInOrder(n) && CanRun(w, n, acts) && RelayedRun(w, n, acts)
    ensures ViewsInOrder(RunNet(w, n, acts)) && NodesAdvance(n, RunNet(w, n, acts))
    decreases |acts|
  {
    if acts == [] {
    } else {
      ActKeepsViewOrder(w, n, acts[0]);
      hide ViewsInOrder, CanAct, Act;
      RunKeepsViewOrder(w, Act(w, n, acts[0]), acts[1..]);
    }
  }

  lemma StartInOrder(w: World)
    ensures ViewsInOrder(Start(w)) && WellFormed(w, Start(w))
    ensures OneHashPerRound(w, Start(w)) && LocksFormed(w, Start(w))
  {
  }
}
