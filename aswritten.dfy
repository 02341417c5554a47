/** `subst` exactly as the source writes it, failures included.

    Two things go wrong there. `Term.subst` is declared with two parameters besides `self` while every
    caller passes one environment, so reaching a `0` raises `TypeError`. And the loops that delete the
    entries bound to a binder's name iterate over the very dictionary they delete from, so the first
    deletion raises `RuntimeError` (the dictionary changed size during iteration). The rest of the model
    uses `Substitution.Substituted`, which is what the code computes once both are repaired. */
module AsWritten {
  import opened Outcomes
  import opened PiSyntax
  import opened Substitution
  import opened Definitions

  function SubstAsWritten(p: Process, env: Env): Result<Process> {
    match p
    case Term => Err(ArityTypeError)
    case Restriction(x, c) =>
      var nenv := map k | k in env && k != x :: env[k];
      if x in nenv.Values then Err(DictChangedSize)
      else
        var r := SubstAsWritten(c, nenv);
        if r.Err? then r else Ok(Restriction(x, r.value))
    case GC(c) =>
      var r := SubstAsWritten(c, env);
      if r.Err? then r else Ok(GC(r.value))
    case Call(d, args) => Ok(Call(d, SubstNames(args, env)))
    case Choice(bs) =>
      var r := BranchesAsWritten(bs, env);
      if r.Err? then Err(r.error) else Ok(Choice(r.value))
    case Parallel(cs) =>
      var r := ChildrenAsWritten(cs, env);
      if r.Err? then Err(r.error) else MkParallel(r.value)
  }

  /** One iteration of the loop in `Choice.subst`. */
  function BranchAsWritten(b: Branch, env: Env): Result<Branch> {
    var nguard := SubstitutedGuard(b.guard, env);
    var nact := SubstAction(b.act, env);
    var nenv := ContEnvAsWritten(b.act, env);
    if nact.Input? && nact.variable in nenv.Values then Err(DictChangedSize)
    else
      var r := SubstAsWritten(b.cont, nenv);
      if r.Err? then Err(r.error) else Ok(Branch(nguard, nact, r.value))
  }

  /** The copy of the environment with the input variable's own key deleted (that deletion is safe). */
  function ContEnvAsWritten(a: Action, env: Env): Env {
    if a.Input? then env - {a.variable} else env
  }

  function BranchesAsWritten(bs: seq<Branch>, env: Env): Result<seq<Branch>> {
    if bs == [] then Ok([])
    else
      var first := BranchAsWritten(bs[0], env);
      if first.Err? then Err(first.error)
      else
        var rest := BranchesAsWritten(bs[1..], env);
        if rest.Err? then rest else Ok([first.value] + rest.value)
  }

  function ChildrenAsWritten(cs: seq<Process>, env: Env): Result<seq<Process>> {
    if cs == [] then Ok([])
    else
      var first := SubstAsWritten(cs[0], env);
      if first.Err? then Err(first.error)
      else
        var rest := ChildrenAsWritten(cs[1..], env);
        if rest.Err? then rest else Ok([first.value] + rest.value)
  }

  /** Whenever the code as written does return, it returns what the repaired substitution computes. */
  lemma {:induction false} AsWrittenAgrees(p: Process, env: Env)
    ensures SubstAsWritten(p, env).Ok? ==> SubstAsWritten(p, env).value == Substituted(p, env)
  {
    match p
    case Term =>
    case Restriction(x, c) =>
      var nenv := map k | k in env && k != x :: env[k];
      if x !in nenv.Values {
        assert nenv == Pruned(env, x);
        AsWrittenAgrees(c, nenv);
      }
    case GC(c) =>
      AsWrittenAgrees(c, env);
    case Call(_, _) =>
    case Choice(bs) =>
      BranchesAgree(bs, env);
    case Parallel(cs) =>
      ChildrenAgree(cs, env);
  }

  lemma {:induction false} BranchAgrees(b: Branch, env: Env)
    ensures BranchAsWritten(b, env).Ok? ==> BranchAsWritten(b, env).value == SubstitutedBranch(b, env)
  {
    var nact := SubstAction(b.act, env);
    if nact.Input? {
      var nenv := env - {nact.variable};
      if nact.variable !in nenv.Values {
        assert nenv == Pruned(env, b.act.variable);
        AsWrittenAgrees(b.cont, nenv);
      }
    } else {
      AsWrittenAgrees(b.cont, env);
    }
  }

  lemma {:induction false} BranchesAgree(bs: seq<Branch>, env: Env)
    ensures BranchesAsWritten(bs, env).Ok? ==> BranchesAsWritten(bs, env).value == SubstitutedBranches(bs, env)
  {
    if bs != [] {
      BranchAgrees(bs[0], env);
      BranchesAgree(bs[1..], env);
    }
  }

  lemma {:induction false} ChildrenAgree(cs: seq<Process>, env: Env)
    ensures ChildrenAsWritten(cs, env).Ok? ==> ChildrenAsWritten(cs, env).value == SubstitutedChildren(cs, env)
  {
    if cs != [] {
      AsWrittenAgrees(cs[0], env);
      ChildrenAgree(cs[1..], env);
    }
  }

  /** Some `0` is reached by the substitution: in a continuation or a child, not behind a call. */
  predicate ContainsTerm(p: Process) {
    match p
    case Term => true
    case Restriction(_, c) => ContainsTerm(c)
    case GC(c) => ContainsTerm(c)
    case Call(_, _) => false
    case Choice(bs) => exists i :: 0 <= i < |bs| && ContainsTerm(bs[i].cont)
    case Parallel(cs) => exists i :: 0 <= i < |cs| && ContainsTerm(cs[i])
  }

  /** As written, substituting into any process with a `0` in it fails, whatever the environment. */
  lemma {:induction false} TermSubstFails(p: Process, env: Env)
    ensures ContainsTerm(p) ==> SubstAsWritten(p, env).Err?
  {
    match p
    case Term =>
    case Restriction(x, c) =>
      TermSubstFails(c, map k | k in env && k != x :: env[k]);
    case GC(c) =>
      TermSubstFails(c, env);
    case Call(_, _) =>
    case Choice(bs) =>
      if ContainsTerm(p) {
        var i :| 0 <= i < |bs| && ContainsTerm(bs[i].cont);
        TermSubstFails(bs[i].cont, ContEnvAsWritten(bs[i].act, env));
        BranchesTermFails(bs, env, i);
      }
    case Parallel(cs) =>
      if ContainsTerm(p) {
        var i :| 0 <= i < |cs| && ContainsTerm(cs[i]);
        TermSubstFails(cs[i], env);
        ChildrenTermFails(cs, env, i);
      }
  }

  /** Under the empty environment no binder deletes anything, so a well-formed process can only fail
      at a `0`: substituting into it fails with the `TypeError` exactly when it reaches one. */
  lemma TermSubstFailsUnderEmptyEnv(p: Process)
    requires WellFormed(p)
    ensures ContainsTerm(p) ==> SubstAsWritten(p, map[]) == Err(ArityTypeError)
    ensures !ContainsTerm(p) ==> SubstAsWritten(p, map[]) == Ok(p)
  {
    TermSubstFails(p, map[]);
    EmptyEnvFailsOnlyAtTerm(p);
    if !ContainsTerm(p) {
      NoTermNoFailure(p);
    }
    AsWrittenAgrees(p, map[]);
    SubstIgnoresNonFree(p, map[]);
  }

  /** Dropping a name the environment does not hold leaves it as it is. */
  lemma DropUnboundName(env: Env, x: Name)
    requires x !in env
    ensures (map k | k in env && k != x :: env[k]) == env
  {
  }

  lemma {:induction false} EmptyEnvFailsOnlyAtTerm(p: Process)
    requires WellFormed(p)
    ensures SubstAsWritten(p, map[]).Err? ==> SubstAsWritten(p, map[]).error == ArityTypeError
    decreases p
  {
    var empty: Env := map[];
    match p
    case Term =>
    case Restriction(x, c) =>
      DropUnboundName(empty, x);
      EmptyEnvFailsOnlyAtTerm(c);
    case GC(c) =>
      EmptyEnvFailsOnlyAtTerm(c);
    case Call(_, _) =>
    case Choice(bs) =>
      BranchesEmptyEnv(bs);
    case Parallel(cs) =>
      ChildrenEmptyEnv(cs);
      if ChildrenAsWritten(cs, empty).Ok? {
        ChildrenAgree(cs, empty);
        SubstPreservesWellFormed(p, empty);
      }
  }

  lemma {:induction false} BranchesEmptyEnv(bs: seq<Branch>)
    requires forall i :: 0 <= i < |bs| ==> WellFormed(bs[i].cont)
    ensures BranchesAsWritten(bs, map[]).Err? ==> BranchesAsWritten(bs, map[]).error == ArityTypeError
    decreases bs
  {
    if bs != [] {
      BranchEmptyEnv(bs[0]);
      BranchesEmptyEnv(bs[1..]);
    }
  }

  lemma {:induction false} BranchEmptyEnv(b: Branch)
    requires WellFormed(b.cont)
    ensures BranchAsWritten(b, map[]).Err? ==> BranchAsWritten(b, map[]).error == ArityTypeError
    decreases b
  {
    var empty: Env := map[];
    assert ContEnvAsWritten(b.act, empty) == empty;
    EmptyEnvFailsOnlyAtTerm(b.cont);
  }

  lemma {:induction false} ChildrenEmptyEnv(cs: seq<Process>)
    requires forall i :: 0 <= i < |cs| ==> WellFormed(cs[i])
    ensures ChildrenAsWritten(cs, map[]).Err? ==> ChildrenAsWritten(cs, map[]).error == ArityTypeError
    decreases cs
  {
    if cs != [] {
      EmptyEnvFailsOnlyAtTerm(cs[0]);
      ChildrenEmptyEnv(cs[1..]);
    }
  }

  /** A well-formed process without a reachable `0` is substituted under the empty environment. */
  lemma {:induction false} NoTermNoFailure(p: Process)
    requires WellFormed(p) && !ContainsTerm(p)
    ensures SubstAsWritten(p, map[]).Ok?
    decreases p
  {
    var empty: Env := map[];
    match p
    case Term =>
    case Restriction(x, c) =>
      DropUnboundName(empty, x);
      NoTermNoFailure(c);
    case GC(c) =>
      NoTermNoFailure(c);
    case Call(_, _) =>
    case Choice(bs) =>
      BranchesNoFailure(bs);
    case Parallel(cs) =>
      ChildrenNoFailure(cs);
      ChildrenAgree(cs, empty);
      SubstPreservesWellFormed(p, empty);
  }

  lemma {:induction false} BranchesNoFailure(bs: seq<Branch>)
    requires forall i :: 0 <= i < |bs| ==> WellFormed(bs[i].cont) && !ContainsTerm(bs[i].cont)
    ensures BranchesAsWritten(bs, map[]).Ok?
    decreases bs
  {
    if bs != [] {
      BranchNoFailure(bs[0]);
      BranchesNoFailure(bs[1..]);
    }
  }

  lemma {:induction false} BranchNoFailure(b: Branch)
    requires WellFormed(b.cont) && !ContainsTerm(b.cont)
    ensures BranchAsWritten(b, map[]).Ok?
    decreases b
  {
    var empty: Env := map[];
    assert ContEnvAsWritten(b.act, empty) == empty;
    NoTermNoFailure(b.cont);
  }

  lemma {:induction false} ChildrenNoFailure(cs: seq<Process>)
    requires forall i :: 0 <= i < |cs| ==> WellFormed(cs[i]) && !ContainsTerm(cs[i])
    ensures ChildrenAsWritten(cs, map[]).Ok?
    decreases cs
  {
    if cs != [] {
      NoTermNoFailure(cs[0]);
      ChildrenNoFailure(cs[1..]);
    }
  }

  /** Unfolding `D(x, y) = x!y.E()` goes through the code as written, with the truncation of `zip`. */
  lemma UnfoldTruncatesAsWritten()
    ensures var body := Prefix(Output("x", "y"), Call("E", []));
            && SubstAsWritten(body, ZipEnv(["x", "y"], ["a"])) == Ok(Prefix(Output("a", "y"), Call("E", [])))
            && SubstAsWritten(body, ZipEnv(["x", "y"], ["a", "b", "c"])) == Ok(Prefix(Output("a", "b"), Call("E", [])))
  {
    ZipEnvPositional(["x", "y"], ["a"]);
    ZipEnvPositional(["x", "y"], ["a", "b", "c"]);
    assert ZipEnv(["x", "y"], ["a"]) == map["x" := "a"];
    assert ZipEnv(["x", "y"], ["a", "b", "c"]) == map["x" := "a", "y" := "b"];
    OutputThenCallAsWritten("x", "y", map["x" := "a"]);
    OutputThenCallAsWritten("x", "y", map["x" := "a", "y" := "b"]);
  }

  /** `c!d.E()` has no `0` and no binder, so the code as written substitutes it. */
  lemma OutputThenCallAsWritten(c: Name, d: Name, env: Env)
    ensures SubstAsWritten(Prefix(Output(c, d), Call("E", [])), env)
            == Ok(Prefix(Output(SubstName(c, env), SubstName(d, env)), Call("E", [])))
  {
    var b := Branch(Guard([]), Output(c, d), Call("E", []));
    assert SubstNames([], env) == [];
    assert SubstitutedGuard(Guard([]), env) == Guard([]);
    var sb := Branch(Guard([]), Output(SubstName(c, env), SubstName(d, env)), Call("E", []));
    assert BranchAsWritten(b, env) == Ok(sb);
    assert [b][1..] == [];
    assert BranchesAsWritten([], env) == Ok([]);
    assert [sb] + [] == [sb];
    assert BranchesAsWritten([b], env) == Ok([sb]);
  }

  /** A branch that fails makes the whole loop over the branches fail. */
  lemma {:induction false} BranchesTermFails(bs: seq<Branch>, env: Env, i: nat)
    requires i < |bs| && SubstAsWritten(bs[i].cont, ContEnvAsWritten(bs[i].act, env)).Err?
    ensures BranchesAsWritten(bs, env).Err?
  {
    if i > 0 {
      BranchesTermFails(bs[1..], env, i - 1);
    }
  }

  /** A child that fails makes the whole loop over the children fail. */
  lemma {:induction false} ChildrenTermFails(cs: seq<Process>, env: Env, i: nat)
    requires i < |cs| && SubstAsWritten(cs[i], env).Err?
    ensures ChildrenAsWritten(cs, env).Err?
  {
    if i > 0 {
      ChildrenTermFails(cs[1..], env, i - 1);
    }
  }

  /** `tau.0` cannot be substituted into even by the empty environment. */
  lemma TauTermFails()
    ensures SubstAsWritten(Prefix(Tau, Term), map[]) == Err(ArityTypeError)
  {
  }

  /** `new(a) D(x)` under `{x: a}`: the second loop deletes `x` and the iteration fails, where the
      repaired substitution leaves `x` alone so that `a` is not captured. */
  lemma RestrictionDictChanged()
    ensures SubstAsWritten(Restriction("a", Call("D", ["x"])), map["x" := "a"]) == Err(DictChangedSize)
    ensures Substituted(Restriction("a", Call("D", ["x"])), map["x" := "a"]) == Restriction("a", Call("D", ["x"]))
  {
    var env := map["x" := "a"];
    var nenv := map k | k in env && k != "a" :: env[k];
    assert "x" in nenv;
    assert Pruned(env, "a") == map[];
  }

  /** `c?(y).D(x)` under `{x: y}`: the same failure in the loop of `Choice.subst`. */
  lemma InputDictChanged()
    ensures SubstAsWritten(Prefix(Input("c", "y"), Call("D", ["x"])), map["x" := "y"]) == Err(DictChangedSize)
    ensures Substituted(Prefix(Input("c", "y"), Call("D", ["x"])), map["x" := "y"]) == Prefix(Input("c", "y"), Call("D", ["x"]))
  {
    var env := map["x" := "y"];
    var b := Branch(Guard([]), Input("c", "y"), Call("D", ["x"]));
    assert SubstAction(b.act, env) == b.act;
    assert (env - {"y"})["x"] == "y";
    assert BranchAsWritten(b, env) == Err(DictChangedSize);
    assert Pruned(env, "y") == map[];
    assert SubstNames(["x"], map[]) == ["x"];
    assert SubstitutedBranch(b, env) == b;
    assert SubstitutedBranches([b], env) == [b];
  }
}
