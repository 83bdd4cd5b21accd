/**
  Validator sets: the fault bound and quorum size derived from their number,
  leader rotation, and how much two quorums must have in common.
 */
module Quorum {
  import opened Bytes
  import opened Types

  datatype Config = Config(validators: seq<Validator>, f: nat) {
    function QuorumSize(): nat {
      2 * f + 1
    }

    predicate IsLeader(round: u64, address: Address)
      requires validators != []
    {
      validators[round % |validators|].address == address
    }

    function Members(): set<Address> {
      set i | 0 <= i < |validators| :: validators[i].address
    }
  }

  /** Subtracting one from an empty set's length underflows, so there must be a validator. */
  function NewConfig(validators: seq<Validator>): (cfg: Config)
    requires validators != []
    ensures 3 * cfg.f + 1 <= |validators| <= 3 * cfg.f + 3
    ensures cfg.QuorumSize() <= |validators| - cfg.f
  {
    Config(validators, (|validators| - 1) / 3)
  }

  ghost predicate DistinctAddresses(validators: seq<Validator>) {
    forall i, j | 0 <= i < j < |validators| :: validators[i].address != validators[j].address
  }

  /** Rotation gives every round one leader: the validator at the round's index. */
  lemma LeaderIsUnique(cfg: Config, round: u64, i: nat)
    requires i < |cfg.validators| && DistinctAddresses(cfg.validators)
    ensures cfg.IsLeader(round, cfg.validators[i].address) <==> round % |cfg.validators| == i
  {
    var leader := round % |cfg.validators|;
    if leader < i || i < leader {
      assert cfg.validators[leader].address != cfg.validators[i].address;
    }
  }

  lemma {:induction false} SubsetSize<T>(a: set<T>, b: set<T>)
    requires a <= b
    ensures |a| <= |b|
    ensures |a| == |b| ==> a == b
  {
    if a == {} {
    } else {
      var x :| x in a;
      SubsetSize(a - {x}, b - {x});
      if |a| == |b| {
        assert a == (a - {x}) + {x} && b == (b - {x}) + {x};
      }
    }
  }

  /** More elements than can lie outside `b`: one lies inside. */
  lemma SharedElement<T>(a: set<T>, b: set<T>) returns (x: T)
    requires |a - b| < |a|
    ensures x in a && x in b
  {
    assert a * b != {} by { assert a == (a - b) + (a * b); }
    x :| x in a * b;
  }

  lemma {:induction false} MembersSize(validators: seq<Validator>, f: nat)
    requires DistinctAddresses(validators)
    ensures |Config(validators, f).Members()| == |validators|
    decreases |validators|
  {
    if validators == [] {
    } else {
      var last := |validators| - 1;
      var front := validators[..last];
      MembersSize(front, f);
      assert Config(validators, f).Members() == Config(front, f).Members() + {validators[last].address};
      assert forall i | 0 <= i < last :: front[i].address != validators[last].address;
      assert validators[last].address !in Config(front, f).Members();
    }
  }

  lemma QuorumIntersection<T>(all: set<T>, a: set<T>, b: set<T>, f: nat)
    requires a <= all && b <= all
    requires |a| >= 2 * f + 1 && |b| >= 2 * f + 1
    ensures |a * b| >= 4 * f + 2 - |all|
  {
    SubsetSize(a + b, all);
  }

  function Interval(lo: nat, hi: nat): (s: set<nat>)
    requires lo <= hi
    ensures |s| == hi - lo && forall x: nat :: x in s <==> lo <= x < hi
    decreases hi - lo
  {
    if lo == hi then {} else {lo} + Interval(lo + 1, hi)
  }

  ghost predicate IsQuorum(n: nat, f: nat, q: set<nat>) {
    q <= Interval(0, n) && |q| >= 2 * f + 1
  }

  /** The bound of `QuorumIntersection` is attained: the first and the last validators. */
  lemma IntersectionIsTight(n: nat, f: nat) returns (a: set<nat>, b: set<nat>)
    requires n >= 1 && f == (n - 1) / 3
    ensures IsQuorum(n, f, a) && IsQuorum(n, f, b)
    ensures |a * b| == if 4 * f + 2 >= n then 4 * f + 2 - n else 0
  {
    var q := 2 * f + 1;
    a, b := Interval(0, q), Interval(n - q, n);
    if n - q <= q {
      assert a * b == Interval(n - q, q);
    } else {
      assert a * b == {};
    }
  }

  /** Any two quorums share a non-faulty validator, however the faults fall, exactly when n = 3f + 1. */
  lemma QuorumsShareHonestIff(n: nat, f: nat)
    requires n >= 1 && f == (n - 1) / 3
    ensures (forall a, b | IsQuorum(n, f, a) && IsQuorum(n, f, b) :: |a * b| > f) <==> n == 3 * f + 1
  {
    var a, b := IntersectionIsTight(n, f);
    forall p, q | IsQuorum(n, f, p) && IsQuorum(n, f, q)
      ensures |p * q| >= 4 * f + 2 - n
    {
      QuorumIntersection(Interval(0, n), p, q, f);
    }
  }
}
