/** Abstract syntax of pi-calculus processes:

      P   ::= 0 | new(x) P | [G] act.P1 + ... + [G] act.PN | P1 || ... || PN | D(v1, ..., vN) | <GC>=>P
      act ::= tau | a!b | a?(x)
      G   ::= a = b | a <> b | G1 ^ ... ^ GN

    `new(x)` binds `x` in its continuation and an input `a?(x)` binds `x` in the continuation of its branch. */
module PiSyntax {
  import opened Outcomes

  type Name = string

  datatype Cond = Match(lname: Name, rname: Name) | Mismatch(lname: Name, rname: Name)

  /** A conjunction of conditions; the empty guard is always true. */
  datatype Guard = Guard(conds: seq<Cond>)

  datatype Action = Tau | Output(chan: Name, data: Name) | Input(chan: Name, variable: Name)

  /** One `[G] act.P` alternative of a choice. */
  datatype Branch = Branch(guard: Guard, act: Action, cont: Process)

  datatype Process =
    | Term
    | Restriction(name: Name, cont: Process)
    | GC(cont: Process)
    | Call(defName: Name, args: seq<Name>)
    | Choice(branches: seq<Branch>)
    | Parallel(children: seq<Process>)

  /** A process definition `D(x1, ..., xN) = P`. */
  datatype Definition = Definition(name: Name, params: seq<Name>, proc: Process)

  /** What the `Parallel` constructor asserts of its children. */
  predicate ParallelChildrenOk(cs: seq<Process>) {
    |cs| >= 2 && forall i :: 0 <= i < |cs| ==> !cs[i].Parallel?
  }

  /** Every `Parallel` node in `p` satisfies the constructor's assertions. */
  predicate WellFormed(p: Process) {
    match p
    case Term => true
    case Restriction(_, c) => WellFormed(c)
    case GC(c) => WellFormed(c)
    case Call(_, _) => true
    case Choice(bs) => forall i :: 0 <= i < |bs| ==> WellFormed(bs[i].cont)
    case Parallel(cs) => ParallelChildrenOk(cs) && forall i :: 0 <= i < |cs| ==> WellFormed(cs[i])
  }

  /** The `Parallel` constructor: it fails its assertion unless there are at least two children, none parallel. */
  function MkParallel(cs: seq<Process>): (r: Result<Process>)
    ensures r.Ok? <==> |cs| >= 2 && forall i :: 0 <= i < |cs| ==> !cs[i].Parallel?
    ensures r.Ok? ==> r.value.Parallel? && r.value.children == cs
    ensures r.Err? ==> r.error == AssertionFailed
    ensures r.Ok? && (forall i :: 0 <= i < |cs| ==> WellFormed(cs[i])) ==> WellFormed(r.value)
  {
    if ParallelChildrenOk(cs) then Ok(Parallel(cs)) else Err(AssertionFailed)
  }

  /** `act.cont`: a one-branch choice with the empty guard. */
  function Prefix(act: Action, cont: Process): Process {
    Choice([Branch(Guard([]), act, cont)])
  }

  /** `[guard] act.cont`. */
  function Guarded(guard: Guard, act: Action, cont: Process): Process {
    Choice([Branch(guard, act, cont)])
  }

  /** `[cond] act.cont`: a choice guarded by a single condition. */
  function CondProcess(cond: Cond, act: Action, cont: Process): Process {
    Guarded(Guard([cond]), act, cont)
  }

  /** The builders all make a one-branch choice: `prefix` is `guarded` with the empty guard and
      `cond_process` is `guarded` with a one-condition guard. The branch's free names are those of the
      guard and the action, with the continuation's free names outside the action's binder. */
  lemma BuildersAreOneBranchChoices(c: Cond, g: Guard, act: Action, cont: Process)
    ensures Prefix(act, cont) == Guarded(Guard([]), act, cont)
    ensures CondProcess(c, act, cont) == Guarded(Guard([c]), act, cont)
    ensures Guarded(g, act, cont).Choice? && Guarded(g, act, cont).branches == [Branch(g, act, cont)]
    ensures FreeNames(Guarded(g, act, cont)) == GuardNames(g) + ActionFree(act) + (FreeNames(cont) - ActionBound(act))
    ensures WellFormed(Guarded(g, act, cont)) == WellFormed(cont)
  {
    var bs := [Branch(g, act, cont)];
    assert bs[1..] == [];
    assert BranchesFree(bs) == BranchFree(bs[0]) + BranchesFree(bs[1..]);
  }

  /** No `Call` node anywhere in `p`. */
  predicate CallFree(p: Process) {
    match p
    case Term => true
    case Restriction(_, c) => CallFree(c)
    case GC(c) => CallFree(c)
    case Call(_, _) => false
    case Choice(bs) => forall i :: 0 <= i < |bs| ==> CallFree(bs[i].cont)
    case Parallel(cs) => forall i :: 0 <= i < |cs| ==> CallFree(cs[i])
  }

  // ---------------------------------------------------------------------------
  // Free names, following the binders of the grammar above

  function CondNames(c: Cond): set<Name> {
    {c.lname, c.rname}
  }

  function GuardNames(g: Guard): set<Name> {
    set i, n | 0 <= i < |g.conds| && n in CondNames(g.conds[i]) :: n
  }

  /** The names an action uses without binding them. */
  function ActionFree(a: Action): set<Name> {
    match a
    case Tau => {}
    case Output(c, d) => {c, d}
    case Input(c, _) => {c}
  }

  /** The name an action binds in its continuation. */
  function ActionBound(a: Action): set<Name> {
    if a.Input? then {a.variable} else {}
  }

  function FreeNames(p: Process): set<Name> {
    match p
    case Term => {}
    case Restriction(x, c) => FreeNames(c) - {x}
    case GC(c) => FreeNames(c)
    case Call(_, args) => set i | 0 <= i < |args| :: args[i]
    case Choice(bs) => BranchesFree(bs)
    case Parallel(cs) => ChildrenFree(cs)
  }

  function BranchFree(b: Branch): set<Name> {
    GuardNames(b.guard) + ActionFree(b.act) + (FreeNames(b.cont) - ActionBound(b.act))
  }

  function BranchesFree(bs: seq<Branch>): set<Name> {
    if bs == [] then {} else BranchFree(bs[0]) + BranchesFree(bs[1..])
  }

  function ChildrenFree(cs: seq<Process>): set<Name> {
    if cs == [] then {} else FreeNames(cs[0]) + ChildrenFree(cs[1..])
  }

  // ---------------------------------------------------------------------------
  // The `__eq__` methods of the source, clause by clause

  function CondEq(c: Cond, d: Cond): bool {
    match c
    case Match(l, r) => d.Match? && l == d.lname && r == d.rname
    case Mismatch(l, r) => d.Mismatch? && l == d.lname && r == d.rname
  }

  function GuardEq(g: Guard, h: Guard): bool {
    |g.conds| == |h.conds| && forall i :: 0 <= i < |g.conds| ==> CondEq(g.conds[i], h.conds[i])
  }

  function ActionEq(a: Action, b: Action): bool {
    match a
    case Tau => b.Tau?
    case Output(c, d) => b.Output? && c == b.chan && d == b.data
    case Input(c, x) => b.Input? && c == b.chan && x == b.variable
  }

  /** Branches are tuples `(guard, act, cont)`, compared component by component. */
  function BranchEq(b: Branch, c: Branch): bool {
    GuardEq(b.guard, c.guard) && ActionEq(b.act, c.act) && ProcEq(b.cont, c.cont)
  }

  function ProcEq(p: Process, q: Process): bool {
    match p
    case Term => q.Term?
    case Restriction(x, c) => q.Restriction? && x == q.name && ProcEq(c, q.cont)
    case GC(c) => q.GC? && ProcEq(c, q.cont)
    case Call(d, args) => q.Call? && d == q.defName && args == q.args
    case Choice(bs) =>
      q.Choice? && |bs| == |q.branches| &&
      forall i :: 0 <= i < |bs| ==> BranchEq(bs[i], q.branches[i])
    case Parallel(cs) =>
      q.Parallel? && |cs| == |q.children| &&
      forall i :: 0 <= i < |cs| ==> ProcEq(cs[i], q.children[i])
  }

  lemma CondEqIsEquality(c: Cond, d: Cond)
    ensures CondEq(c, d) <==> c == d
  {
  }

  lemma GuardEqIsEquality(g: Guard, h: Guard)
    ensures GuardEq(g, h) <==> g == h
  {
    if GuardEq(g, h) {
      forall i | 0 <= i < |g.conds| ensures g.conds[i] == h.conds[i] {
        CondEqIsEquality(g.conds[i], h.conds[i]);
      }
      assert g.conds == h.conds;
    }
  }

  /** The source's `__eq__` is structural equality: Dafny's `==` on these datatypes models it. */
  lemma {:induction false} ProcEqIsEquality(p: Process, q: Process)
    ensures ProcEq(p, q) <==> p == q
    decreases p
  {
    match p
    case Term =>
    case Restriction(x, c) =>
      if q.Restriction? { ProcEqIsEquality(c, q.cont); }
    case GC(c) =>
      if q.GC? { ProcEqIsEquality(c, q.cont); }
    case Call(_, _) =>
    case Choice(bs) =>
      if q.Choice? && |bs| == |q.branches| {
        forall i | 0 <= i < |bs| ensures BranchEq(bs[i], q.branches[i]) <==> bs[i] == q.branches[i] {
          BranchEqIsEquality(bs[i], q.branches[i]);
        }
        if ProcEq(p, q) { assert bs == q.branches; }
      }
    case Parallel(cs) =>
      if q.Parallel? && |cs| == |q.children| {
        forall i | 0 <= i < |cs| ensures ProcEq(cs[i], q.children[i]) <==> cs[i] == q.children[i] {
          ProcEqIsEquality(cs[i], q.children[i]);
        }
        if ProcEq(p, q) { assert cs == q.children; }
      }
  }

  lemma {:induction false} BranchEqIsEquality(b: Branch, c: Branch)
    ensures BranchEq(b, c) <==> b == c
    decreases b
  {
    GuardEqIsEquality(b.guard, c.guard);
    ProcEqIsEquality(b.cont, c.cont);
  }
}
