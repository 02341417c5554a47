/** Name substitution on processes (the `subst` methods and `subst_name`).

    An environment maps names to names. Under a binder for `x` (a restriction `new(x)`, or an input
    `a?(x)` for the continuation of its branch) the environment is pruned: it loses the entry for key `x`
    and every entry whose value is `x`, so that a substituted name is never captured by the binder. */
module Substitution {
  import opened PiSyntax

  type Env = map<Name, Name>

  /** `subst_name`: the image of `n` under `env`, or `n` itself when `env` has no entry for it. */
  function SubstName(n: Name, env: Env): (r: Name)
    ensures n in env ==> r == env[n]
    ensures n !in env ==> r == n
  {
    if n in env then env[n] else n
  }

  /** The environment a binder for `x` passes to its continuation. */
  function Pruned(env: Env, x: Name): (r: Env)
    ensures forall k :: k in r <==> k in env && k != x && env[k] != x
    ensures forall k :: k in r ==> r[k] == env[k]
    ensures x !in r && x !in r.Values
  {
    map k | k in env && k != x && env[k] != x :: env[k]
  }

  /** Drop key `x`, then walk the remaining keys and delete each one bound to `x`. */
  method PruneBinder(env: Env, x: Name) returns (nenv: Env)
    ensures nenv == Pruned(env, x)
  {
    nenv := env - {x};
    var pending := nenv.Keys;
    while pending != {}
      invariant forall k :: k in nenv <==> k in env && k != x && (k in pending || env[k] != x)
      invariant forall k :: k in nenv ==> nenv[k] == env[k]
      decreases pending
    {
      var k :| k in pending;
      if nenv[k] == x {
        nenv := nenv - {k};
      }
      pending := pending - {k};
    }
    assert nenv.Keys == Pruned(env, x).Keys;
  }

  /** The image of the names in `s` that `env` maps. */
  function Image(env: Env, s: set<Name>): set<Name> {
    set n | n in s && n in env :: env[n]
  }

  lemma ImageMono(env: Env, a: set<Name>, b: set<Name>)
    requires a <= b
    ensures Image(env, a) <= Image(env, b)
  {
  }

  /** `Match.subst` and `Mismatch.subst`: both names are substituted, the kind is kept. */
  function SubstCond(c: Cond, env: Env): (r: Cond)
    ensures r.Match? == c.Match?
    ensures r.lname == SubstName(c.lname, env) && r.rname == SubstName(c.rname, env)
    ensures CondNames(r) == set n | n in CondNames(c) :: SubstName(n, env)
  {
    match c
    case Match(l, rn) => Match(SubstName(l, env), SubstName(rn, env))
    case Mismatch(l, rn) => Mismatch(SubstName(l, env), SubstName(rn, env))
  }

  function SubstConds(cs: seq<Cond>, env: Env): (r: seq<Cond>)
    ensures |r| == |cs|
    ensures forall i :: 0 <= i < |cs| ==> r[i] == SubstCond(cs[i], env)
  {
    if cs == [] then [] else [SubstCond(cs[0], env)] + SubstConds(cs[1..], env)
  }

  /** `Guard.subst`: every condition substituted, in the original order. */
  function SubstitutedGuard(g: Guard, env: Env): Guard {
    Guard(SubstConds(g.conds, env))
  }

  /** `Tau.subst`, `Output.subst` and `Input.subst`. */
  function SubstAction(a: Action, env: Env): (r: Action)
    ensures r.Tau? == a.Tau? && r.Output? == a.Output? && r.Input? == a.Input?
    ensures a.Output? ==> r.chan == SubstName(a.chan, env) && r.data == SubstName(a.data, env)
    ensures a.Input? ==> r.chan == SubstName(a.chan, env) && r.variable == a.variable
    ensures ActionFree(r) == set n | n in ActionFree(a) :: SubstName(n, env)
    ensures ActionBound(r) == ActionBound(a)
  {
    match a
    case Tau => Tau
    case Output(c, d) => Output(SubstName(c, env), SubstName(d, env))
    case Input(c, x) => Input(SubstName(c, env), x)
  }

  /** The environment for the continuation of a branch whose action is `a`. */
  function ContEnv(a: Action, env: Env): Env {
    if a.Input? then Pruned(env, a.variable) else env
  }

  function SubstNames(args: seq<Name>, env: Env): (r: seq<Name>)
    ensures |r| == |args|
    ensures forall i :: 0 <= i < |args| ==> r[i] == SubstName(args[i], env)
  {
    if args == [] then [] else [SubstName(args[0], env)] + SubstNames(args[1..], env)
  }

  /** What `p.subst(env)` computes. */
  function Substituted(p: Process, env: Env): Process {
    match p
    case Term => Term
    case Restriction(x, c) => Restriction(x, Substituted(c, Pruned(env, x)))
    case GC(c) => GC(Substituted(c, env))
    case Call(d, args) => Call(d, SubstNames(args, env))
    case Choice(bs) => Choice(SubstitutedBranches(bs, env))
    case Parallel(cs) => Parallel(SubstitutedChildren(cs, env))
  }

  function SubstitutedBranch(b: Branch, env: Env): Branch {
    Branch(SubstitutedGuard(b.guard, env), SubstAction(b.act, env), Substituted(b.cont, ContEnv(b.act, env)))
  }

  function SubstitutedBranches(bs: seq<Branch>, env: Env): (r: seq<Branch>)
    ensures |r| == |bs|
    ensures forall i :: 0 <= i < |bs| ==> r[i] == SubstitutedBranch(bs[i], env)
  {
    if bs == [] then [] else [SubstitutedBranch(bs[0], env)] + SubstitutedBranches(bs[1..], env)
  }

  function SubstitutedChildren(cs: seq<Process>, env: Env): (r: seq<Process>)
    ensures |r| == |cs|
    ensures forall i :: 0 <= i < |cs| ==> r[i] == Substituted(cs[i], env)
  {
    if cs == [] then [] else [Substituted(cs[0], env)] + SubstitutedChildren(cs[1..], env)
  }

  // ---------------------------------------------------------------------------
  // The `subst` methods, loop by loop

  /** `Guard.subst`: append each substituted condition to a fresh list. */
  method SubstGuard(g: Guard, env: Env) returns (r: Guard)
    ensures r == SubstitutedGuard(g, env)
  {
    var nconds: seq<Cond> := [];
    for i := 0 to |g.conds|
      invariant |nconds| == i
      invariant forall j :: 0 <= j < i ==> nconds[j] == SubstCond(g.conds[j], env)
    {
      nconds := nconds + [SubstCond(g.conds[i], env)];
    }
    assert nconds == SubstConds(g.conds, env);
    r := Guard(nconds);
  }

  /** `Process.subst` for every kind of process. */
  method Subst(p: Process, env: Env) returns (r: Process)
    ensures r == Substituted(p, env)
    decreases p
  {
    match p
    case Term =>
      r := Term;
    case Restriction(x, c) =>
      var nenv := PruneBinder(env, x);
      var ncont := Subst(c, nenv);
      r := Restriction(x, ncont);
    case GC(c) =>
      var ncont := Subst(c, env);
      r := GC(ncont);
    case Call(d, args) =>
      r := Call(d, SubstNames(args, env));
    case Choice(bs) =>
      var nbranches: seq<Branch> := [];
      for i := 0 to |bs|
        invariant |nbranches| == i
        invariant forall j :: 0 <= j < i ==> nbranches[j] == SubstitutedBranch(bs[j], env)
      {
        var Branch(guard, act, cont) := bs[i];
        var nenv := env;
        var nguard := SubstGuard(guard, nenv);
        var nact := SubstAction(act, nenv);
        if nact.Input? {
          nenv := PruneBinder(nenv, nact.variable);
        }
        var ncont := Subst(cont, nenv);
        nbranches := nbranches + [Branch(nguard, nact, ncont)];
      }
      r := Choice(nbranches);
    case Parallel(cs) =>
      var nchildren: seq<Process> := [];
      for i := 0 to |cs|
        invariant |nchildren| == i
        invariant forall j :: 0 <= j < i ==> nchildren[j] == Substituted(cs[j], env)
      {
        var nchild := Subst(cs[i], env);
        nchildren := nchildren + [nchild];
      }
      r := Parallel(nchildren);
  }

  // ---------------------------------------------------------------------------
  // Substitution touches free names only

  /** The process with every free-name position blanked: what substitution may not change. */
  function Skeleton(p: Process): Process {
    match p
    case Term => Term
    case Restriction(x, c) => Restriction(x, Skeleton(c))
    case GC(c) => GC(Skeleton(c))
    case Call(d, args) => Call(d, seq(|args|, i => ""))
    case Choice(bs) => Choice(SkeletonBranches(bs))
    case Parallel(cs) => Parallel(SkeletonChildren(cs))
  }

  function SkeletonCond(c: Cond): Cond {
    if c.Match? then Match("", "") else Mismatch("", "")
  }

  function SkeletonConds(cs: seq<Cond>): (r: seq<Cond>)
    ensures |r| == |cs|
    ensures forall i :: 0 <= i < |cs| ==> r[i] == SkeletonCond(cs[i])
  {
    if cs == [] then [] else [SkeletonCond(cs[0])] + SkeletonConds(cs[1..])
  }

  function SkeletonAction(a: Action): Action {
    match a
    case Tau => Tau
    case Output(_, _) => Output("", "")
    case Input(_, x) => Input("", x)
  }

  function SkeletonBranch(b: Branch): Branch {
    Branch(Guard(SkeletonConds(b.guard.conds)), SkeletonAction(b.act), Skeleton(b.cont))
  }

  function SkeletonBranches(bs: seq<Branch>): (r: seq<Branch>)
    ensures |r| == |bs|
    ensures forall i :: 0 <= i < |bs| ==> r[i] == SkeletonBranch(bs[i])
  {
    if bs == [] then [] else [SkeletonBranch(bs[0])] + SkeletonBranches(bs[1..])
  }

  function SkeletonChildren(cs: seq<Process>): (r: seq<Process>)
    ensures |r| == |cs|
    ensures forall i :: 0 <= i < |cs| ==> r[i] == Skeleton(cs[i])
  {
    if cs == [] then [] else [Skeleton(cs[0])] + SkeletonChildren(cs[1..])
  }

  /** Substitution keeps every node's kind, child count and order, every bound name, every called
      definition name and the number, kind and order of guard conditions. */
  lemma {:induction false} SkeletonPreserved(p: Process, env: Env)
    ensures Skeleton(Substituted(p, env)) == Skeleton(p)
    decreases p
  {
    match p
    case Term =>
    case Restriction(x, c) =>
      SkeletonPreserved(c, Pruned(env, x));
    case GC(c) =>
      SkeletonPreserved(c, env);
    case Call(d, args) =>
      assert seq(|SubstNames(args, env)|, i => "") == seq(|args|, i => "");
    case Choice(bs) =>
      var sbs := SubstitutedBranches(bs, env);
      forall i | 0 <= i < |bs| ensures SkeletonBranch(sbs[i]) == SkeletonBranch(bs[i]) {
        var b := bs[i];
        SkeletonPreserved(b.cont, ContEnv(b.act, env));
        assert SkeletonConds(SubstConds(b.guard.conds, env)) == SkeletonConds(b.guard.conds);
      }
      assert SkeletonBranches(sbs) == SkeletonBranches(bs);
    case Parallel(cs) =>
      var scs := SubstitutedChildren(cs, env);
      forall i | 0 <= i < |cs| ensures Skeleton(scs[i]) == Skeleton(cs[i]) {
        SkeletonPreserved(cs[i], env);
      }
      assert SkeletonChildren(scs) == SkeletonChildren(cs);
  }

  /** Well-formedness of parallel nodes is a property of the skeleton alone. */
  lemma {:induction false} WellFormedSkeleton(p: Process)
    ensures WellFormed(Skeleton(p)) == WellFormed(p)
    decreases p
  {
    match p
    case Term =>
    case Restriction(_, c) =>
      WellFormedSkeleton(c);
    case GC(c) =>
      WellFormedSkeleton(c);
    case Call(_, _) =>
    case Choice(bs) =>
      forall i | 0 <= i < |bs| ensures WellFormed(Skeleton(bs[i].cont)) == WellFormed(bs[i].cont) {
        WellFormedSkeleton(bs[i].cont);
      }
    case Parallel(cs) =>
      forall i | 0 <= i < |cs| ensures WellFormed(Skeleton(cs[i])) == WellFormed(cs[i]) {
        WellFormedSkeleton(cs[i]);
      }
  }

  /** `Parallel.subst` rebuilds through the `Parallel` constructor: its assertions hold again. */
  lemma SubstPreservesWellFormed(p: Process, env: Env)
    requires WellFormed(p)
    ensures WellFormed(Substituted(p, env))
  {
    SkeletonPreserved(p, env);
    WellFormedSkeleton(p);
    WellFormedSkeleton(Substituted(p, env));
  }

  lemma {:induction false} BranchFreeIn(bs: seq<Branch>, i: nat)
    requires i < |bs|
    ensures BranchFree(bs[i]) <= BranchesFree(bs)
  {
    assert BranchesFree(bs) == BranchFree(bs[0]) + BranchesFree(bs[1..]);
    if i > 0 {
      assert bs[1..][i - 1] == bs[i];
      BranchFreeIn(bs[1..], i - 1);
    }
  }

  lemma {:induction false} ChildFreeIn(cs: seq<Process>, i: nat)
    requires i < |cs|
    ensures FreeNames(cs[i]) <= ChildrenFree(cs)
  {
    assert ChildrenFree(cs) == FreeNames(cs[0]) + ChildrenFree(cs[1..]);
    if i > 0 {
      assert cs[1..][i - 1] == cs[i];
      ChildFreeIn(cs[1..], i - 1);
    }
  }

  /** An environment that maps no free name of `p` leaves `p` unchanged: bound occurrences are never
      substituted. */
  lemma {:induction false} SubstIgnoresNonFree(p: Process, env: Env)
    requires env.Keys !! FreeNames(p)
    ensures Substituted(p, env) == p
    decreases p
  {
    match p
    case Term =>
    case Restriction(x, c) =>
      SubstIgnoresNonFree(c, Pruned(env, x));
    case GC(c) =>
      SubstIgnoresNonFree(c, env);
    case Call(d, args) =>
      assert SubstNames(args, env) == args;
    case Choice(bs) =>
      var sbs := SubstitutedBranches(bs, env);
      forall i | 0 <= i < |bs| ensures sbs[i] == bs[i] {
        BranchFreeIn(bs, i);
        BranchIgnoresNonFree(bs[i], env);
      }
      assert sbs == bs;
    case Parallel(cs) =>
      var scs := SubstitutedChildren(cs, env);
      forall i | 0 <= i < |cs| ensures scs[i] == cs[i] {
        ChildFreeIn(cs, i);
        SubstIgnoresNonFree(cs[i], env);
      }
      assert scs == cs;
  }

  lemma {:induction false} BranchIgnoresNonFree(b: Branch, env: Env)
    requires env.Keys !! BranchFree(b)
    ensures SubstitutedBranch(b, env) == b
    decreases b, 0
  {
    SubstIgnoresNonFree(b.cont, ContEnv(b.act, env));
    forall j | 0 <= j < |b.guard.conds| ensures SubstCond(b.guard.conds[j], env) == b.guard.conds[j] {
      var c := b.guard.conds[j];
      assert c.lname in CondNames(c) && c.rname in CondNames(c);
    }
    assert SubstConds(b.guard.conds, env) == b.guard.conds;
  }

  /** Every free name of the result is a free name of `p` left as it was, or the image of one; and
      every free name of `p` survives, as itself or as its image. A binder that captured an image would
      break the second half. */
  lemma {:induction false} SubstFreeNames(p: Process, env: Env)
    ensures FreeNames(Substituted(p, env)) <= FreeNames(p) + Image(env, FreeNames(p))
    ensures forall n :: n in FreeNames(p) ==>
              n in FreeNames(Substituted(p, env)) || (n in env && env[n] in FreeNames(Substituted(p, env)))
    decreases p
  {
    forall n | n in FreeNames(p)
      ensures n in FreeNames(Substituted(p, env)) || (n in env && env[n] in FreeNames(Substituted(p, env)))
    {
      SubstKeepsFreeName(p, env, n);
    }
    match p
    case Term =>
    case Restriction(x, c) =>
      var env' := Pruned(env, x);
      SubstFreeNames(c, env');
      forall y | y in FreeNames(Substituted(p, env)) ensures y in FreeNames(p) + Image(env, FreeNames(p)) {
        if y !in FreeNames(c) {
          var n :| n in FreeNames(c) && n in env' && env'[n] == y;
          assert n in FreeNames(p);
        }
      }
    case GC(c) =>
      SubstFreeNames(c, env);
    case Call(d, args) =>
      var sargs := SubstNames(args, env);
      forall y | y in FreeNames(Substituted(p, env)) ensures y in FreeNames(p) + Image(env, FreeNames(p)) {
        var i :| 0 <= i < |sargs| && sargs[i] == y;
        assert args[i] in FreeNames(p);
      }
    case Choice(bs) =>
      BranchesSubstFreeNames(bs, env);
    case Parallel(cs) =>
      ChildrenSubstFreeNames(cs, env);
  }

  lemma {:induction false} BranchSubstFreeNames(b: Branch, env: Env)
    ensures BranchFree(SubstitutedBranch(b, env)) <= BranchFree(b) + Image(env, BranchFree(b))
    decreases b, 0
  {
    var sb := SubstitutedBranch(b, env);
    var env' := ContEnv(b.act, env);
    SubstFreeNames(b.cont, env');
    GuardSubstNames(b.guard, env);
    ImageMono(env, GuardNames(b.guard), BranchFree(b));
    ImageMono(env, ActionFree(b.act), BranchFree(b));
    forall y | y in FreeNames(sb.cont) - ActionBound(b.act) ensures y in BranchFree(b) + Image(env, BranchFree(b)) {
      if y !in FreeNames(b.cont) {
        var n :| n in FreeNames(b.cont) && n in env' && env'[n] == y;
        assert n !in ActionBound(b.act);
        assert n in BranchFree(b);
      }
    }
  }

  /** The names of a substituted guard are its old names or their images. */
  lemma GuardSubstNames(g: Guard, env: Env)
    ensures GuardNames(SubstitutedGuard(g, env)) <= GuardNames(g) + Image(env, GuardNames(g))
  {
    var sg := SubstitutedGuard(g, env);
    forall y | y in GuardNames(sg) ensures y in GuardNames(g) + Image(env, GuardNames(g)) {
      var j :| 0 <= j < |sg.conds| && y in CondNames(sg.conds[j]);
      var c := g.conds[j];
      var n := if y == SubstName(c.lname, env) then c.lname else c.rname;
      assert n in CondNames(c) && y == SubstName(n, env);
      assert n in GuardNames(g);
      if n in env {
        assert y in Image(env, GuardNames(g));
      }
    }
  }

  lemma {:induction false} BranchesSubstFreeNames(bs: seq<Branch>, env: Env)
    ensures BranchesFree(SubstitutedBranches(bs, env)) <= BranchesFree(bs) + Image(env, BranchesFree(bs))
    decreases bs
  {
    if bs != [] {
      var sbs := SubstitutedBranches(bs, env);
      assert sbs[1..] == SubstitutedBranches(bs[1..], env);
      BranchSubstFreeNames(bs[0], env);
      BranchesSubstFreeNames(bs[1..], env);
      ImageMono(env, BranchFree(bs[0]), BranchesFree(bs));
      ImageMono(env, BranchesFree(bs[1..]), BranchesFree(bs));
    }
  }

  lemma {:induction false} ChildrenSubstFreeNames(cs: seq<Process>, env: Env)
    ensures ChildrenFree(SubstitutedChildren(cs, env)) <= ChildrenFree(cs) + Image(env, ChildrenFree(cs))
    decreases cs
  {
    if cs != [] {
      var scs := SubstitutedChildren(cs, env);
      assert scs[1..] == SubstitutedChildren(cs[1..], env);
      SubstFreeNames(cs[0], env);
      ChildrenSubstFreeNames(cs[1..], env);
      ImageMono(env, FreeNames(cs[0]), ChildrenFree(cs));
      ImageMono(env, ChildrenFree(cs[1..]), ChildrenFree(cs));
    }
  }

  // ---------------------------------------------------------------------------
  // No free name is lost

  /** A free name of `p` is still free after substitution, or its image is: the binders it passes
      never capture the image, because pruning drops every entry whose value they bind. */
  lemma {:induction false} SubstKeepsFreeName(p: Process, env: Env, n: Name)
    requires n in FreeNames(p)
    ensures n in FreeNames(Substituted(p, env)) || (n in env && env[n] in FreeNames(Substituted(p, env)))
    decreases p
  {
    match p
    case Term =>
    case Restriction(x, c) =>
      var env' := Pruned(env, x);
      SubstKeepsFreeName(c, env', n);
      if n in env' {
        assert env'[n] in env'.Values;
      }
    case GC(c) =>
      SubstKeepsFreeName(c, env, n);
    case Call(_, args) =>
      var i :| 0 <= i < |args| && args[i] == n;
      assert SubstNames(args, env)[i] == SubstName(n, env);
    case Choice(bs) =>
      var i := BranchesFreeMember(bs, n);
      BranchKeepsFreeName(bs[i], env, n);
      BranchFreeIn(SubstitutedBranches(bs, env), i);
    case Parallel(cs) =>
      var i := ChildrenFreeMember(cs, n);
      SubstKeepsFreeName(cs[i], env, n);
      ChildFreeIn(SubstitutedChildren(cs, env), i);
  }

  lemma {:induction false} BranchKeepsFreeName(b: Branch, env: Env, n: Name)
    requires n in BranchFree(b)
    ensures var sb := SubstitutedBranch(b, env);
            n in BranchFree(sb) || (n in env && env[n] in BranchFree(sb))
    decreases b, 0
  {
    var sb := SubstitutedBranch(b, env);
    if n in GuardNames(b.guard) {
      var j :| 0 <= j < |b.guard.conds| && n in CondNames(b.guard.conds[j]);
      assert SubstName(n, env) in CondNames(sb.guard.conds[j]);
      assert SubstName(n, env) in GuardNames(sb.guard);
    } else if n in ActionFree(b.act) {
      assert SubstName(n, env) in ActionFree(sb.act);
    } else {
      var env' := ContEnv(b.act, env);
      SubstKeepsFreeName(b.cont, env', n);
      if n in env' {
        assert env'[n] in env'.Values;
      }
    }
  }

  /** A free name of a choice is free in one of its branches. */
  lemma {:induction false} BranchesFreeMember(bs: seq<Branch>, n: Name) returns (i: nat)
    requires n in BranchesFree(bs)
    ensures i < |bs| && n in BranchFree(bs[i])
  {
    if n in BranchFree(bs[0]) {
      i := 0;
    } else {
      var j := BranchesFreeMember(bs[1..], n);
      i := j + 1;
    }
  }

  /** A free name of a parallel composition is free in one of its children. */
  lemma {:induction false} ChildrenFreeMember(cs: seq<Process>, n: Name) returns (i: nat)
    requires n in ChildrenFree(cs)
    ensures i < |cs| && n in FreeNames(cs[i])
  {
    if n in FreeNames(cs[0]) {
      i := 0;
    } else {
      var j := ChildrenFreeMember(cs[1..], n);
      i := j + 1;
    }
  }
}
