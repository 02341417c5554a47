/** Unfolding a call `D(a1, ..., aM)` against the definitions `D(x1, ..., xN) = P` (`def_unfold_call`). */
module Definitions {
  import opened Outcomes
  import opened PiSyntax
  import opened Substitution

  /** Definitions indexed by the name they define. */
  type Defs = map<Name, Definition>

  /** `{param: arg for (param, arg) in zip(params, args)}`: later pairs overwrite earlier ones. */
  function ZipEnv(params: seq<Name>, args: seq<Name>): Env {
    if params == [] || args == [] then map[]
    else map[params[0] := args[0]] + ZipEnv(params[1..], args[1..])
  }

  /** The environment pairs parameters and arguments position by position, up to the shorter of the two
      lists; when a parameter repeats, its last paired position wins. */
  lemma {:induction false} ZipEnvPositional(params: seq<Name>, args: seq<Name>)
    ensures forall k :: k in ZipEnv(params, args) <==> exists i :: 0 <= i < |params| && i < |args| && params[i] == k
    ensures forall i :: 0 <= i < |params| && i < |args| &&
                        (forall j :: i < j < |params| && j < |args| ==> params[j] != params[i]) ==>
                        params[i] in ZipEnv(params, args) && ZipEnv(params, args)[params[i]] == args[i]
  {
    ZipEnvKeys(params, args);
    forall i | 0 <= i < |params| && i < |args| &&
               (forall j :: i < j < |params| && j < |args| ==> params[j] != params[i])
      ensures params[i] in ZipEnv(params, args) && ZipEnv(params, args)[params[i]] == args[i]
    {
      ZipEnvAt(params, args, i);
    }
  }

  /** The keys of the environment are the parameters that have an argument. */
  lemma {:induction false} ZipEnvKeys(params: seq<Name>, args: seq<Name>)
    ensures forall k :: k in ZipEnv(params, args) <==> exists i :: 0 <= i < |params| && i < |args| && params[i] == k
  {
    if params != [] && args != [] {
      var ps, rest := params[1..], args[1..];
      ZipEnvKeys(ps, rest);
      forall k ensures k in ZipEnv(params, args) <==> exists i :: 0 <= i < |params| && i < |args| && params[i] == k {
        if k in ZipEnv(ps, rest) {
          var i :| 0 <= i < |ps| && i < |rest| && ps[i] == k;
          assert params[i + 1] == k;
        }
        if exists i :: 0 <= i < |params| && i < |args| && params[i] == k {
          var i :| 0 <= i < |params| && i < |args| && params[i] == k;
          if i > 0 { assert ps[i - 1] == k; }
        }
      }
    }
  }

  /** A parameter that does not repeat at a later paired position maps to the argument at its own. */
  lemma {:induction false} ZipEnvAt(params: seq<Name>, args: seq<Name>, i: nat)
    requires i < |params| && i < |args|
    requires forall j :: i < j < |params| && j < |args| ==> params[j] != params[i]
    ensures params[i] in ZipEnv(params, args) && ZipEnv(params, args)[params[i]] == args[i]
  {
    var ps, rest := params[1..], args[1..];
    if i == 0 {
      ZipEnvKeys(ps, rest);
      forall l | 0 <= l < |ps| && l < |rest| ensures ps[l] != params[0] {
        assert params[l + 1] != params[0];
      }
    } else {
      forall j | i - 1 < j < |ps| && j < |rest| ensures ps[j] != ps[i - 1] {
        assert params[j + 1] != params[i];
      }
      ZipEnvAt(ps, rest, i - 1);
    }
  }

  /** `def_unfold_call`: the body of the called definition with parameters replaced by arguments.
      A missing definition is an error; a mismatch in arity is not (the surplus is ignored). */
  function DefUnfoldCall(defs: Defs, call: Process): (r: Result<Process>)
    requires call.Call?
    ensures call.defName !in defs ==> r == Err(UndefinedCall(call.defName))
    ensures call.defName in defs ==> r.Ok?
    ensures r.Ok? ==> r.value == Substituted(defs[call.defName].proc, ZipEnv(defs[call.defName].params, call.args))
    ensures r.Ok? ==> Skeleton(r.value) == Skeleton(defs[call.defName].proc)
  {
    if call.defName !in defs then Err(UndefinedCall(call.defName))
    else
      var defn := defs[call.defName];
      var env := ZipEnv(defn.params, call.args);
      SkeletonPreserved(defn.proc, env);
      Ok(Substituted(defn.proc, env))
  }

  /** A definition without parameters, or a call without arguments, unfolds to the body unchanged. */
  lemma UnfoldWithoutArgs(defs: Defs, call: Process)
    requires call.Call? && call.defName in defs
    requires defs[call.defName].params == [] || call.args == []
    ensures DefUnfoldCall(defs, call) == Ok(defs[call.defName].proc)
  {
    var defn := defs[call.defName];
    var env := ZipEnv(defn.params, call.args);
    assert env == map[];
    SubstIgnoresNonFree(defn.proc, env);
  }

  /** With `D(x, y) = x!y.E()`, the call `D(a)` leaves `y` in place and `D(a, b, c)` drops `c`. */
  lemma UnfoldTruncatesArity()
    ensures var defs := map["D" := Definition("D", ["x", "y"], Prefix(Output("x", "y"), Call("E", [])))];
            && DefUnfoldCall(defs, Call("D", ["a"])) == Ok(Prefix(Output("a", "y"), Call("E", [])))
            && DefUnfoldCall(defs, Call("D", ["a", "b", "c"])) == Ok(Prefix(Output("a", "b"), Call("E", [])))
  {
    var body := Prefix(Output("x", "y"), Call("E", []));
    ZipEnvPositional(["x", "y"], ["a"]);
    ZipEnvPositional(["x", "y"], ["a", "b", "c"]);
    var short := ZipEnv(["x", "y"], ["a"]);
    assert short == map["x" := "a"];
    assert SubstNames([], short) == [];
    assert Substituted(body, short) == Prefix(Output("a", "y"), Call("E", [])) by {
      assert SubstitutedBranches(body.branches, short) == [Branch(Guard([]), Output("a", "y"), Call("E", []))];
    }
    var long := ZipEnv(["x", "y"], ["a", "b", "c"]);
    assert long == map["x" := "a", "y" := "b"];
    assert SubstNames([], long) == [];
    assert Substituted(body, long) == Prefix(Output("a", "b"), Call("E", [])) by {
      assert SubstitutedBranches(body.branches, long) == [Branch(Guard([]), Output("a", "b"), Call("E", []))];
    }
  }
}
