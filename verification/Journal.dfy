/**
  A protocol is the list of single writes it issues; `apply` carries out one write.  A crash
  keeps some prefix of the list.
 */
module Journal {

  /** The state after the writes `ps`, in order. */
  function Replay<S, P>(apply: (S, P) -> S, s: S, ps: seq<P>): S
    decreases |ps|
  {
    if ps == [] then s else Replay(apply, apply(s, ps[0]), ps[1..])
  }

  /** The state that is stored when only the first `k` of the writes took place. */
  function Crash<S, P>(apply: (S, P) -> S, s: S, ps: seq<P>, k: nat): S
    decreases |ps|
  {
    if ps == [] || k == 0 then s else Crash(apply, apply(s, ps[0]), ps[1..], k - 1)
  }

  lemma Nothing<S, P>(apply: (S, P) -> S, s: S, ps: seq<P>, k: nat)
    ensures Replay(apply, s, []) == s && Crash(apply, s, [], k) == s && Crash(apply, s, ps, 0) == s
  {
  }

  lemma {:induction false} CrashConcat<S, P>(apply: (S, P) -> S, s: S, a: seq<P>, b: seq<P>, k: nat)
    ensures Crash(apply, s, a + b, k) ==
      if k < |a| then Crash(apply, s, a, k) else Crash(apply, Replay(apply, s, a), b, k - |a|)
    decreases |a|
  {
    if a == [] {
      assert a + b == b;
    } else if k > 0 {
      assert (a + b)[1..] == a[1..] + b;
      CrashConcat(apply, apply(s, a[0]), a[1..], b, k - 1);
    }
  }

  lemma {:induction false} ReplayConcat<S, P>(apply: (S, P) -> S, s: S, a: seq<P>, b: seq<P>)
    ensures Replay(apply, s, a + b) == Replay(apply, Replay(apply, s, a), b)
    decreases |a|
  {
    if a == [] {
      assert a + b == b;
    } else {
      assert (a + b)[1..] == a[1..] + b;
      ReplayConcat(apply, apply(s, a[0]), a[1..], b);
    }
  }

  lemma {:induction false} CrashAll<S, P>(apply: (S, P) -> S, s: S, a: seq<P>, k: nat)
    ensures |a| <= k ==> Crash(apply, s, a, k) == Replay(apply, s, a)
    decreases |a|
  {
    if a != [] && k > 0 { CrashAll(apply, apply(s, a[0]), a[1..], k - 1); }
  }

  lemma ReplayAppend<S, P>(apply: (S, P) -> S, s: S, ps: seq<P>, p: P)
    ensures Replay(apply, s, ps + [p]) == apply(Replay(apply, s, ps), p)
  {
    ReplayConcat(apply, s, ps, [p]);
    assert [p][1..] == [];
  }

  lemma First<S, P>(apply: (S, P) -> S, s: S, ps: seq<P>, k: nat)
    ensures ps != [] ==> Replay(apply, s, ps) == Replay(apply, apply(s, ps[0]), ps[1..])
    ensures ps != [] ==>
      Crash(apply, s, ps, k) == if k == 0 then s else Crash(apply, apply(s, ps[0]), ps[1..], k - 1)
  {
  }

  lemma One<S, P>(apply: (S, P) -> S, s: S, p: P, k: nat)
    ensures Replay(apply, s, [p]) == apply(s, p)
    ensures Crash(apply, s, [p], k) == if k == 0 then s else apply(s, p)
  {
    assert [p][1..] == [];
  }

  lemma {:induction false} CrashIsPrefix<S, P>(apply: (S, P) -> S, s: S, ps: seq<P>, k: nat)
    ensures Crash(apply, s, ps, k) == Replay(apply, s, if k < |ps| then ps[..k] else ps)
    decreases |ps|
  {
    if ps == [] || k == 0 {
      assert ps == [] || ps[..0] == [];
    } else {
      CrashIsPrefix(apply, apply(s, ps[0]), ps[1..], k - 1);
      if k < |ps| { assert ps[..k][1..] == ps[1..][..k - 1]; }
    }
  }
}
