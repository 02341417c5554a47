# Pi-calculus syntax: substitution, rendering and variable analyses

This project models the pi-calculus abstract syntax of `test/pisyntax.py` in Dafny and proves
properties of it. The syntax covers terms, restrictions, guarded choices, parallel compositions,
calls to definitions and GC markers. The model covers:

- **Name substitution.** `subst_name` and the `subst` method of every syntax class. Substitution
  never lets a binder capture a substituted name. A restriction `new(x)` and an input `a?(x)` prune
  the environment of their continuation.
- **Unfolding calls.** `def_unfold_call` unfolds a call `D(a1, ..., aM)` against the definitions
  `D(x1, ..., xN) = P`.
- **Rendering.** The `__str__` methods. Their loops join items with a separator flag that is empty
  before the first item.
- **Equality.** The structural `__eq__` methods.
- **Variable analyses.** `fetch_static_vars`, `fetch_private_vars` and `fetch_input_vars`:
  - each walks a process and accumulates a set of names;
  - each keeps a memo, keyed by the rendering of a call, in a dictionary shared across the whole
    walk;
  - each unfolds a call in a `while True` loop until the set found for it stops growing.

How the modules are laid out:

- **`outcomes.dfy`.** An exception the source raises becomes an `Err` of the `Result` datatype. Its
  `Failure` names the exception.
- **`pisyntax.dfy`.** The syntax as datatypes, plus:
  - `MkParallel`, for the assertions of the `Parallel` constructor;
  - the builders `prefix`, `guarded` and `cond_process`;
  - free names;
  - the `__eq__` methods as explicit recursive predicates.
- **`substitution.dfy`.** `Substituted` gives what `subst` computes. The methods `Subst`,
  `SubstGuard` and `PruneBinder` follow the source's loops and are proved equal to it.
- **`definitions.dfy`.** `def_unfold_call`.
- **`render.dfy`.** The `Show*` functions define the textual form. The methods `RenderGuard`,
  `RenderProcess`, `RenderChoice` and `RenderParallel` follow the separator-flag loops and are
  proved equal to it.
- **`analysis.dfy`.** `Vars` defines the three analyses as one function. It takes the memo and
  returns the memo it leaves behind. The class `Analyzer` holds:
  - the memo in a field `envMap` that its methods update in place;
  - the fixpoint as a `while true` loop.

  Each method is proved to leave `envMap` and its result as `Vars` says.
- **`aswritten.dfy`.** `subst` exactly as the source writes it, with the failures listed under
  "Findings".

`def_unfold_call` is modelled with its own control flow, but it substitutes with the repaired
`subst` (see Findings and "Left out"). Its arity check sits after a `raise` in the same block, so
it never runs. `zip` pairs parameters and arguments up to the shorter of the two lists. Surplus
arguments are dropped, and surplus parameters stay as they are in the body
(`Definitions.UnfoldTruncatesArity`). The example body ends in a call rather than a `0`, so the
code as written unfolds it the same way (`AsWritten.UnfoldTruncatesAsWritten`).

## Model

All source paths are in `test/pisyntax.py`.

| member | source | states |
|---|---|---|
| PiSyntax.MkParallel | test/pisyntax.py:430-437 | building a parallel composition succeeds exactly when there are at least two children and none is itself parallel; otherwise the assertion fails; the children are kept in order |
| PiSyntax.CondEqIsEquality | test/pisyntax.py:314-318 | `Match`/`Mismatch` equality (same kind, same two names) is equality of the values |
| PiSyntax.GuardEqIsEquality | test/pisyntax.py:259-263 | two guards are equal exactly when their conditions are equal pointwise, in order |
| PiSyntax.ProcEqIsEquality | test/pisyntax.py:94-98 | the structural `__eq__` of processes (same class, equal fields, recursively) holds exactly when the processes are equal |
| PiSyntax.BranchEqIsEquality | test/pisyntax.py:375-379 | branches (guard, action, continuation) compare equal exactly when they are the same branch |
| PiSyntax.BuildersAreOneBranchChoices | test/pisyntax.py:420-427 | `prefix`, `guarded` and `cond_process` each build a choice of one branch: `prefix` with the empty guard, `cond_process` with a one-condition guard; its free names are those of the guard, the action, and the continuation outside the action's binder; it is well-formed exactly when the continuation is |
| Render.ShowBuilders | test/pisyntax.py:420-427 | a prefix prints as `act.P` and a conditional process as `[c] act.P` |
| Substitution.SubstName | test/pisyntax.py:52-56 | a name with an entry in the environment maps to it; any other name is left unchanged |
| Substitution.Pruned | test/pisyntax.py:87-91 | the environment under a binder for `x` keeps exactly the entries whose key is not `x` and whose value is not `x`, so `x` is neither replaced nor introduced |
| Substitution.PruneBinder | test/pisyntax.py:88-91 | dropping the binder's key and then deleting the keys bound to it yields exactly `Pruned` |
| Substitution.SubstCond | test/pisyntax.py:310-335 | substituting a `Match` or `Mismatch` keeps its kind and maps its left name and its right name, each in its own position, through `subst_name` |
| Substitution.SubstAction | test/pisyntax.py:178-227 | `tau` stays `tau`; an output maps its channel and its datum, each in its own position; an input maps its channel but keeps its bound variable |
| Substitution.SubstGuard | test/pisyntax.py:252-257 | the loop appends every condition, substituted, in the original order |
| Substitution.Subst | test/pisyntax.py:357-373 | the `subst` methods compute `Substituted`: the binder prunes the environment of its continuation only, each branch gets its own copy of the environment, and every child of a parallel composition is substituted under the same environment |
| Substitution.SkeletonPreserved | test/pisyntax.py:439-445 | substitution changes only names: the kind of every node, the number of branches and children, call targets and arities are all kept |
| Substitution.SubstPreservesWellFormed | test/pisyntax.py:439-445 | a substituted parallel composition still satisfies the constructor's assertions (at least two children, none parallel), so re-building it cannot fail |
| Substitution.SubstIgnoresNonFree | test/pisyntax.py:87-92 | an environment that mentions no free name of the process leaves it unchanged; in particular bound names are never replaced |
| Substitution.SubstFreeNames | test/pisyntax.py:357-373 | the free names after substitution are among the old free names and their images, and every old free name stays free itself or has its image free: pruning the environment under a binder keeps a substituted name from being captured |
| Definitions.ZipEnvPositional | test/pisyntax.py:514 | the environment built from `zip` has a key for exactly the parameters at positions that have an argument, and a parameter not repeated later maps to the argument at its position |
| Definitions.DefUnfoldCall | test/pisyntax.py:503-517 | a call to an undefined name is an error naming it; a defined one always unfolds (the arity check is never reached) to the body substituted under the environment pairing parameters with arguments position by position (`ZipEnvPositional`), which keeps the body's shape |
| Definitions.UnfoldWithoutArgs | test/pisyntax.py:514-515 | with no parameters or no arguments the body is returned unchanged |
| Definitions.UnfoldTruncatesArity | test/pisyntax.py:511-515 | with `D(x, y) = x!y.E()`, `D(a)` unfolds to `a!y.E()` and `D(a, b, c)` to `a!b.E()`: no arity error either way |
| Render.RenderGuard | test/pisyntax.py:268-283 | the loop prints the empty guard as nothing and any other guard as `[c1^...^cN] ` |
| Render.RenderBranch | test/pisyntax.py:244-245 | a branch prints as its guard, its action, a dot and its continuation |
| Render.RenderProcess | test/pisyntax.py:74-153 | every kind of process prints as its textual form (`0`, `new(x){P}`, `<GC>=>P`, `D(a, b)`, choices, parallels) |
| Render.RenderChoice | test/pisyntax.py:384-404 | an empty choice prints `<EMPTY CHOICE>`, a single branch prints bare, more branches print as `(b1 + ... + bN)` |
| Render.RenderParallel | test/pisyntax.py:456-474 | an empty composition prints `<EMPTY PARALLEL>`, a single child prints bare, more children print as `(p1 \|\| ... \|\| pN)` |
| Render.CallKeyInjective | test/pisyntax.py:152-153 | for identifier names, two calls render alike exactly when they have the same target and arguments, so the memo key `str(call)` identifies the call |
| Render.CallKeyCollision | test/pisyntax.py:152-153 | without that restriction the key is ambiguous: `D("a, b")` and `D("a", "b")` differ but share a key |
| Analysis.AddGuardNames | test/pisyntax.py:549-551 | the loop adds both names of every condition of the guard to the set |
| Analysis.Analyzer.constructor | test/pisyntax.py:520-523 | an analysis starts with an empty memo |
| Analysis.Analyzer.Fetch | test/pisyntax.py:519-570 | each method leaves the result and the updated memo that the `Vars` definition gives, for every kind of process and every analysis |
| Analysis.Analyzer.FetchCall | test/pisyntax.py:531-545 | a memoised call returns its entry; otherwise the call is unfolded and its memo entry grows until an iteration gives back the current set; the memo is shared, so recursive calls see the current approximation |
| Analysis.Analyzer.FetchChoice | test/pisyntax.py:546-657 | the loop over branches (546-561, 599-604, 646-657) accumulates each branch as `Vars` defines it: static names with the guard and action names, private names of the continuations, input variables with a duplicate check against the branch's own continuation |
| Analysis.Analyzer.FetchParallel | test/pisyntax.py:606-615 | the loop over children unions their sets, and for private and input variables fails on a name shared with an earlier child |
| Analysis.FetchStaticVars | test/pisyntax.py:519-570 | `fetch_static_vars` with a fresh memo returns what `Vars` gives for the static analysis |
| Analysis.FetchPrivateVars | test/pisyntax.py:572-617 | `fetch_private_vars` with a fresh memo returns what `Vars` gives for the private analysis |
| Analysis.FetchInputVars | test/pisyntax.py:619-670 | `fetch_input_vars` with a fresh memo returns what `Vars` gives for the input analysis |
| Analysis.VarsExtends | test/pisyntax.py:532-537 | an analysis never removes or overwrites a memo entry it did not create: every earlier key keeps its set |
| Analysis.FixpointExtends | test/pisyntax.py:538-545 | the fixpoint loop keeps other entries; when it succeeds, the call's entry holds the returned set, which contains every earlier approximation, and for some memo holding that entry and some fuel, analysing the body gives the same set back |
| Analysis.VarsFuelMono | test/pisyntax.py:538-545 | a result reached without running out of fuel is exactly the result (and memo) that any larger fuel gives: the bound only cuts the `while True` loops short |
| Analysis.CallMemoised | test/pisyntax.py:531-545 | a call that succeeds leaves its result memoised under its rendering; a call to an undefined definition that is not memoised is an error naming it |
| Analysis.BoundVars | test/pisyntax.py:578-617 | on a call-free process, the private or input analysis succeeds exactly when no name is bound twice where the analysis objects (across parallel children for both, and in sequence for inputs only; never across choice branches); it then returns exactly the bound names, and otherwise fails with a duplicate error |
| Analysis.StaticVarsOfCallFree | test/pisyntax.py:525-568 | on a call-free process the static analysis succeeds with a subset of the free names, and with exactly the free names when no input variable also occurs free elsewhere in its choice |
| Analysis.StaticChoiceLeak | test/pisyntax.py:555-559 | the input variable of one branch is removed from the names the earlier branches contributed: `c!x.0 + d?(x).0` has free names `{c, x, d}`, but the analysis gives `{c, d}` |
| Analysis.InputsInTwoBranches | test/pisyntax.py:646-657 | the same input variable in two branches of a choice is not an error |
| Analysis.InputBoundTwiceInSequence | test/pisyntax.py:651-653 | an input that rebinds a variable already bound in its continuation is a duplicate-input error |
| Analysis.InputPrefixOfTerm | test/pisyntax.py:646-657 | `c?(x).0` has exactly the input variable `x` and touches no memo |
| Analysis.DuplicatesAcrossChildren | test/pisyntax.py:659-668 | two children binding the same input or private name are a duplicate error naming it |
| Analysis.GeneratorFixpoint | test/pisyntax.py:708-714 | for `Gen() = new(a) c!a.Gen()` the fixpoint settles in two iterations: the static names are `{c}` and the private names `{a}` |
| AsWritten.AsWrittenAgrees | test/pisyntax.py:87-92 | whenever `subst` as written returns, it returns the capture-avoiding substitution of the model |
| AsWritten.TermSubstFails | test/pisyntax.py:62-63 | as written, substituting into any process that reaches a `0` fails, whatever the environment: with the `TypeError` of `Term.subst`, or with a `RuntimeError` when a binder's deletion loop fails first |
| AsWritten.TermSubstFailsUnderEmptyEnv | test/pisyntax.py:62-63 | under the empty environment a well-formed process fails with exactly the `TypeError` when it reaches a `0`, and is returned unchanged otherwise |
| AsWritten.UnfoldTruncatesAsWritten | test/pisyntax.py:514-515 | with the code as written, `D(x, y) = x!y.E()` unfolds `D(a)` to `a!y.E()` and `D(a, b, c)` to `a!b.E()`, as the repaired model does |
| AsWritten.TauTermFails | test/pisyntax.py:62-63 | `tau.0` cannot be substituted into, even with the empty environment |
| AsWritten.RestrictionDictChanged | test/pisyntax.py:87-92 | `new(a)D(x)` under `{x: a}` deletes from the dictionary while iterating over it, where the intended result leaves the process unchanged |
| AsWritten.InputDictChanged | test/pisyntax.py:365-371 | `c?(y).D(x)` under `{x: y}` fails the same way in `Choice.subst`, where the intended result leaves the process unchanged |

## Left out

- The parser engine, the calculator and lambda-calculus examples, the pi-calculus parser and the
  parser examples are not part of this model.
- `__hash__`, `__repr__`, `Definition.__str__`, `print_vars` and the `__main__` block print or hash
  and state nothing about the calculus.
- The `is_term`, `is_choice`, … predicates are the datatype discriminators (`p.Term?`, `p.Choice?`).
- The "Unknown process kind" exceptions of the three analyses cannot be reached: the `Process`
  datatype has exactly the six kinds.
- Exceptions are not thrown: each one is a `Failure` returned in a `Result`.
- Analysis.Vars: a duplicate error names the whole set of clashing names. The source names the first
  clashing one in set-iteration order, and that order is not modelled.
- Analysis.Fixpoint: the `while True` loop has no bound in the source. In the model the fuel is one
  budget for the whole walk. Each fixpoint iteration spends one unit, so a fixpoint started inside
  the j-th iteration of another gets the fuel that remains (`fuel - j`). When it runs out the
  analysis fails with `OutOfFuel`. A result that does not run out is the same for every larger fuel
  (`Analysis.VarsFuelMono`). A process on which the source loops forever therefore yields
  `OutOfFuel` for every fuel.
- Analysis.BoundVars: stated for call-free processes only. Across calls the memo returns the
  variables of the first unfolding, and `Bound` has no counterpart for it.
- The memo key is the rendering of the call. The model keys by `ShowProcess` exactly as the source
  does, ambiguity included (`Render.CallKeyCollision`).
- Python sets are mutable and shared, so the memo entry and the loop's `ivars` are one object. The
  model writes each grown set back under the call's key, which has the same effect. No other
  returned set is mutated in place by the source.
- Definitions.DefUnfoldCall, Analysis.Vars: unfold with the repaired substitution. As written,
  every body that reaches a `0` raises `TypeError` when unfolded, and so does every analysis that
  meets a call to such a definition. `AsWritten.TermSubstFails` states that failure and
  `AsWritten.AsWrittenAgrees` shows the two agree wherever the code as written returns.
- Substitution.Subst: the repaired `Term.subst` takes the environment, as every caller passes it.
  The deletion loops are replaced by `PruneBinder`, which deletes from a copy it is not iterating
  over (see Findings).

## Findings

| source | as written | input that shows it | evidently intended | confidence | as-written member | corrected member |
|---|---|---|---|---|---|---|
| test/pisyntax.py:62-63 | `Term.subst` takes `(vars, vals)` while every caller passes one environment, so reaching a `0` raises `TypeError` | `(tau.0).subst({})` | `subst(self, env)` returning `0` | high, not executed | AsWritten.TauTermFails | Substitution.Subst |
| test/pisyntax.py:88-91 | `Restriction.subst` deletes from `nenv` while iterating over it, which raises `RuntimeError` as soon as one entry is bound to the restricted name | `new(a)D(x)` with `{x: a}` | the entries bound to the restricted name removed, then the continuation substituted | high, not executed | AsWritten.RestrictionDictChanged | Substitution.PruneBinder |
| test/pisyntax.py:367-369 | `Choice.subst` does the same for an input variable | `c?(y).D(x)` with `{x: y}` | the entries bound to the input variable removed | high, not executed | AsWritten.InputDictChanged | Substitution.PruneBinder |
