/** The three variable analyses `fetch_static_vars`, `fetch_private_vars` and `fetch_input_vars`.

    They share one shape: a structural walk over the process that accumulates a set of names, and, at a
    call, a memoised fixpoint over the unfolded definition. The memo maps the rendering of a call to the
    variables found for it so far; a call met again while its own fixpoint is running reads the current
    approximation from there. Python's `while True` loop has no bound: the model gives each fixpoint loop
    `fuel` iterations and reports `OutOfFuel` when they run out. */
module Analysis {
  import opened Outcomes
  import opened PiSyntax
  import opened Definitions
  import opened Render

  /** Which of the three analyses runs. */
  datatype Kind = StaticVars | PrivateVars | InputVars

  /** `env_map`: rendering of a call to the set found for it. */
  type Memo = map<string, set<Name>>

  /** The outcome of one analysis step together with the memo it leaves behind. */
  datatype Step = Step(res: Result<set<Name>>, memo: Memo)

  // ---------------------------------------------------------------------------
  // The analyses as functions

  /** What a restriction `new(x)` does to the set of its continuation. */
  function RestrictStep(k: Kind, x: Name, s: set<Name>): set<Name> {
    match k
    case StaticVars => s - {x}
    case PrivateVars => s + {x}
    case InputVars => s
  }

  /** How one branch of a choice extends the set accumulated over the earlier branches, given the set of
      its own continuation. The static analysis removes an input variable from the whole accumulated set,
      earlier branches included. */
  function BranchStep(k: Kind, acc: set<Name>, b: Branch, contVars: set<Name>): Result<set<Name>> {
    match k
    case StaticVars =>
      var withCont := acc + GuardNames(b.guard) + contVars;
      Ok(match b.act
         case Tau => withCont
         case Output(c, d) => withCont + {c, d}
         case Input(c, x) => withCont + {c} - {x})
    case PrivateVars => Ok(acc + contVars)
    case InputVars =>
      if b.act.Input? && b.act.variable in contVars then Err(DuplicateInput({b.act.variable}))
      else if b.act.Input? then Ok(acc + {b.act.variable} + contVars)
      else Ok(acc + contVars)
  }

  /** How one child of a parallel composition extends the set accumulated over the earlier children.
      Private and input variables shared with an earlier child are an error naming the shared ones. */
  function ChildStep(k: Kind, acc: set<Name>, s: set<Name>): Result<set<Name>> {
    match k
    case StaticVars => Ok(acc + s)
    case PrivateVars => if acc * s != {} then Err(DuplicatePrivate(acc * s)) else Ok(acc + s)
    case InputVars => if acc * s != {} then Err(DuplicateInput(acc * s)) else Ok(acc + s)
  }

  /** The analysis `k` of `p`, starting from `memo`. */
  function Vars(k: Kind, defs: Defs, p: Process, memo: Memo, fuel: nat): Step
    decreases fuel, p, 1, 0
  {
    match p
    case Term => Step(Ok({}), memo)
    case Restriction(x, c) =>
      var s := Vars(k, defs, c, memo, fuel);
      if s.res.Err? then s else Step(Ok(RestrictStep(k, x, s.res.value)), s.memo)
    case GC(c) => Vars(k, defs, c, memo, fuel)
    case Call(_, _) =>
      var key := ShowProcess(p);
      if key in memo then Step(Ok(memo[key]), memo)
      else
        var unfolded := DefUnfoldCall(defs, p);
        if unfolded.Err? then Step(Err(unfolded.error), memo)
        else Fixpoint(k, defs, p, unfolded.value, {}, memo[key := {}], fuel)
    case Choice(_) => BranchesVars(k, defs, p, 0, {}, memo, fuel)
    case Parallel(_) => ChildrenVars(k, defs, p, 0, {}, memo, fuel)
  }

  /** The loop over the branches of the choice `p`, from branch `i` on, with `acc` found so far. */
  function BranchesVars(k: Kind, defs: Defs, p: Process, i: nat, acc: set<Name>, memo: Memo, fuel: nat): Step
    requires p.Choice? && i <= |p.branches|
    decreases fuel, p, 0, |p.branches| - i
  {
    if i == |p.branches| then Step(Ok(acc), memo)
    else
      var s := Vars(k, defs, p.branches[i].cont, memo, fuel);
      if s.res.Err? then s
      else
        match BranchStep(k, acc, p.branches[i], s.res.value)
        case Err(e) => Step(Err(e), s.memo)
        case Ok(next) => BranchesVars(k, defs, p, i + 1, next, s.memo, fuel)
  }

  /** The loop over the children of the parallel composition `p`, from child `i` on. */
  function ChildrenVars(k: Kind, defs: Defs, p: Process, i: nat, acc: set<Name>, memo: Memo, fuel: nat): Step
    requires p.Parallel? && i <= |p.children|
    decreases fuel, p, 0, |p.children| - i
  {
    if i == |p.children| then Step(Ok(acc), memo)
    else
      var s := Vars(k, defs, p.children[i], memo, fuel);
      if s.res.Err? then s
      else
        match ChildStep(k, acc, s.res.value)
        case Err(e) => Step(Err(e), s.memo)
        case Ok(next) => ChildrenVars(k, defs, p, i + 1, next, s.memo, fuel)
  }

  /** The `while True` loop of a call: analyse the unfolded `body` with the call bound to `ivars` in the
      memo; stop when that gives back `ivars`, otherwise grow `ivars` and go round again. */
  function Fixpoint(k: Kind, defs: Defs, call: Process, body: Process, ivars: set<Name>, memo: Memo, fuel: nat): Step
    requires call.Call?
    decreases fuel, call, 0, 0
  {
    if fuel == 0 then Step(Err(OutOfFuel), memo)
    else
      var s := Vars(k, defs, body, memo, fuel - 1);
      if s.res.Err? then s
      else if s.res.value != ivars then
        var grown := ivars + s.res.value;
        Fixpoint(k, defs, call, body, grown, s.memo[ShowProcess(call) := grown], fuel - 1)
      else Step(Ok(ivars), s.memo)
  }

  // ---------------------------------------------------------------------------
  // The analyses as the source runs them: a shared memo updated in place

  /** The names of a guard's conditions, added to `acc` one condition at a time. */
  method AddGuardNames(acc: set<Name>, g: Guard) returns (r: set<Name>)
    ensures r == acc + GuardNames(g)
  {
    r := acc;
    for j := 0 to |g.conds|
      invariant r == acc + GuardNames(Guard(g.conds[..j]))
    {
      GuardNamesStep(g.conds, j);
      r := r + {g.conds[j].lname, g.conds[j].rname};
    }
    assert g.conds[..|g.conds|] == g.conds;
  }

  lemma GuardNamesStep(cs: seq<Cond>, j: nat)
    requires j < |cs|
    ensures GuardNames(Guard(cs[..j + 1])) == GuardNames(Guard(cs[..j])) + CondNames(cs[j])
  {
    var before, after := Guard(cs[..j]), Guard(cs[..j + 1]);
    forall n | n in GuardNames(after) ensures n in GuardNames(before) + CondNames(cs[j]) {
      var i :| 0 <= i < j + 1 && n in CondNames(after.conds[i]);
      if i < j { assert before.conds[i] == after.conds[i]; }
    }
    forall n | n in GuardNames(before) + CondNames(cs[j]) ensures n in GuardNames(after) {
      if n in GuardNames(before) {
        var i :| 0 <= i < j && n in CondNames(before.conds[i]);
        assert after.conds[i] == before.conds[i];
      } else {
        assert after.conds[j] == cs[j];
      }
    }
  }

  /** One run of an analysis: its kind, the definitions calls unfold against, and the memo `env_map`. */
  class Analyzer {
    const kind: Kind
    const defs: Defs
    var envMap: Memo

    constructor (kind: Kind, defs: Defs)
      ensures this.kind == kind && this.defs == defs && envMap == map[]
    {
      this.kind := kind;
      this.defs := defs;
      envMap := map[];
    }

    /** `fetch_*_vars(p, defs, env_map)`. */
    method Fetch(p: Process, fuel: nat) returns (r: Result<set<Name>>)
      modifies this
      ensures Step(r, envMap) == Vars(kind, defs, p, old(envMap), fuel)
      decreases fuel, p, 2
    {
      match p
      case Term =>
        r := Ok({});
      case Restriction(x, c) =>
        r := Fetch(c, fuel);
        if r.Ok? {
          match kind {
            case StaticVars => r := Ok(r.value - {x});
            case PrivateVars => r := Ok(r.value + {x});
            case InputVars =>
          }
        }
      case GC(c) =>
        r := Fetch(c, fuel);
      case Call(_, _) =>
        r := FetchCall(p, fuel);
      case Choice(_) =>
        r := FetchChoice(p, fuel);
      case Parallel(_) =>
        r := FetchParallel(p, fuel);
    }

    /** The call case: a memo hit, or the fixpoint loop over the unfolded body. The set recorded in the
        memo is the very set the loop grows, so every growth shows in the memo at once. */
    method FetchCall(p: Process, fuel: nat) returns (r: Result<set<Name>>)
      requires p.Call?
      modifies this
      ensures Step(r, envMap) == Vars(kind, defs, p, old(envMap), fuel)
      decreases fuel, p, 1
    {
      var key := RenderProcess(p);
      if key in envMap {
        return Ok(envMap[key]);
      }
      var unfolded := DefUnfoldCall(defs, p);
      if unfolded.Err? {
        return Err(unfolded.error);
      }
      var body := unfolded.value;
      var ivars: set<Name> := {};
      envMap := envMap[key := ivars];
      var f: nat := fuel;
      while true
        invariant f <= fuel
        invariant Fixpoint(kind, defs, p, body, ivars, envMap, f) == Vars(kind, defs, p, old(envMap), fuel)
        decreases f
      {
        if f == 0 {
          return Err(OutOfFuel);
        }
        f := f - 1;
        var dvars := Fetch(body, f);
        if dvars.Err? {
          return dvars;
        }
        if dvars.value != ivars {
          ivars := ivars + dvars.value;
          envMap := envMap[key := ivars];
        } else {
          return Ok(ivars);
        }
      }
    }

    /** The choice case: one pass over the branches. */
    method FetchChoice(p: Process, fuel: nat) returns (r: Result<set<Name>>)
      requires p.Choice?
      modifies this
      ensures Step(r, envMap) == Vars(kind, defs, p, old(envMap), fuel)
      decreases fuel, p, 1
    {
      var vars: set<Name> := {};
      for i := 0 to |p.branches|
        invariant BranchesVars(kind, defs, p, i, vars, envMap, fuel) == Vars(kind, defs, p, old(envMap), fuel)
      {
        var Branch(guard, act, cont) := p.branches[i];
        var contVars := Fetch(cont, fuel);
        if contVars.Err? {
          return contVars;
        }
        match kind
        case StaticVars =>
          vars := AddGuardNames(vars, guard);
          vars := vars + contVars.value;
          match act {
            case Tau =>
            case Output(c, d) =>
              vars := vars + {c, d};
            case Input(c, x) =>
              vars := vars + {c};
              vars := vars - {x};
          }
        case PrivateVars =>
          vars := vars + contVars.value;
        case InputVars =>
          if act.Input? {
            if act.variable in contVars.value {
              return Err(DuplicateInput({act.variable}));
            }
            vars := vars + {act.variable};
          }
          vars := vars + contVars.value;
      }
      r := Ok(vars);
    }

    /** The parallel case: one pass over the children. */
    method FetchParallel(p: Process, fuel: nat) returns (r: Result<set<Name>>)
      requires p.Parallel?
      modifies this
      ensures Step(r, envMap) == Vars(kind, defs, p, old(envMap), fuel)
      decreases fuel, p, 1
    {
      var vars: set<Name> := {};
      for i := 0 to |p.children|
        invariant ChildrenVars(kind, defs, p, i, vars, envMap, fuel) == Vars(kind, defs, p, old(envMap), fuel)
      {
        var childVars := Fetch(p.children[i], fuel);
        if childVars.Err? {
          return childVars;
        }
        var shared := vars * childVars.value;
        if kind == PrivateVars && shared != {} {
          return Err(DuplicatePrivate(shared));
        }
        if kind == InputVars && shared != {} {
          return Err(DuplicateInput(shared));
        }
        vars := vars + childVars.value;
      }
      r := Ok(vars);
    }
  }

  /** `fetch_static_vars(p, defs)`: a fresh memo for one analysis. */
  method FetchStaticVars(p: Process, defs: Defs, fuel: nat) returns (r: Result<set<Name>>)
    ensures r == Vars(StaticVars, defs, p, map[], fuel).res
  {
    var analyzer := new Analyzer(StaticVars, defs);
    r := analyzer.Fetch(p, fuel);
  }

  /** `fetch_private_vars(p, defs)`. */
  method FetchPrivateVars(p: Process, defs: Defs, fuel: nat) returns (r: Result<set<Name>>)
    ensures r == Vars(PrivateVars, defs, p, map[], fuel).res
  {
    var analyzer := new Analyzer(PrivateVars, defs);
    r := analyzer.Fetch(p, fuel);
  }

  /** `fetch_input_vars(p, defs)`. */
  method FetchInputVars(p: Process, defs: Defs, fuel: nat) returns (r: Result<set<Name>>)
    ensures r == Vars(InputVars, defs, p, map[], fuel).res
  {
    var analyzer := new Analyzer(InputVars, defs);
    r := analyzer.Fetch(p, fuel);
  }

  // ---------------------------------------------------------------------------
  // The memo

  /** Every entry of `m` is in `m'` with the same set. */
  predicate Extends(m: Memo, m': Memo) {
    forall key :: key in m ==> key in m' && m'[key] == m[key]
  }

  /** An analysis only adds entries to the memo: a call's entry, once made, is changed only by that
      call's own fixpoint loop. */
  lemma {:induction false} VarsExtends(k: Kind, defs: Defs, p: Process, memo: Memo, fuel: nat)
    ensures Extends(memo, Vars(k, defs, p, memo, fuel).memo)
    decreases fuel, p, 1, 0
  {
    match p
    case Term =>
    case Restriction(_, c) =>
      VarsExtends(k, defs, c, memo, fuel);
    case GC(c) =>
      VarsExtends(k, defs, c, memo, fuel);
    case Call(_, _) =>
      var key := ShowProcess(p);
      if key !in memo && DefUnfoldCall(defs, p).Ok? {
        FixpointExtends(k, defs, p, DefUnfoldCall(defs, p).value, {}, memo[key := {}], fuel);
      }
    case Choice(_) =>
      BranchesExtends(k, defs, p, 0, {}, memo, fuel);
    case Parallel(_) =>
      ChildrenExtends(k, defs, p, 0, {}, memo, fuel);
  }

  lemma {:induction false} BranchesExtends(k: Kind, defs: Defs, p: Process, i: nat, acc: set<Name>, memo: Memo, fuel: nat)
    requires p.Choice? && i <= |p.branches|
    ensures Extends(memo, BranchesVars(k, defs, p, i, acc, memo, fuel).memo)
    decreases fuel, p, 0, |p.branches| - i
  {
    if i < |p.branches| {
      var s := Vars(k, defs, p.branches[i].cont, memo, fuel);
      VarsExtends(k, defs, p.branches[i].cont, memo, fuel);
      if s.res.Ok? && BranchStep(k, acc, p.branches[i], s.res.value).Ok? {
        BranchesExtends(k, defs, p, i + 1, BranchStep(k, acc, p.branches[i], s.res.value).value, s.memo, fuel);
      }
    }
  }

  lemma {:induction false} ChildrenExtends(k: Kind, defs: Defs, p: Process, i: nat, acc: set<Name>, memo: Memo, fuel: nat)
    requires p.Parallel? && i <= |p.children|
    ensures Extends(memo, ChildrenVars(k, defs, p, i, acc, memo, fuel).memo)
    decreases fuel, p, 0, |p.children| - i
  {
    if i < |p.children| {
      var s := Vars(k, defs, p.children[i], memo, fuel);
      VarsExtends(k, defs, p.children[i], memo, fuel);
      if s.res.Ok? && ChildStep(k, acc, s.res.value).Ok? {
        ChildrenExtends(k, defs, p, i + 1, ChildStep(k, acc, s.res.value).value, s.memo, fuel);
      }
    }
  }

  /** The fixpoint loop of `call` keeps every other entry, keeps its own, and, when it succeeds, leaves
      its result in its own entry. That result contains the set it started from and is a fixed point:
      with the call bound to it in the memo, the unfolded body yields it again. */
  lemma {:induction false} FixpointExtends(k: Kind, defs: Defs, call: Process, body: Process, ivars: set<Name>, memo: Memo, fuel: nat)
    requires call.Call? && ShowProcess(call) in memo && memo[ShowProcess(call)] == ivars
    ensures var r := Fixpoint(k, defs, call, body, ivars, memo, fuel);
            && Extends(memo - {ShowProcess(call)}, r.memo)
            && ShowProcess(call) in r.memo
            && (r.res.Ok? ==> r.memo[ShowProcess(call)] == r.res.value && ivars <= r.res.value)
            && (r.res.Ok? ==> exists m: Memo, f: nat :: ShowProcess(call) in m && m[ShowProcess(call)] == r.res.value
                                                       && Vars(k, defs, body, m, f).res == r.res)
    decreases fuel, call, 0, 0
  {
    var key := ShowProcess(call);
    if fuel > 0 {
      var s := Vars(k, defs, body, memo, fuel - 1);
      VarsExtends(k, defs, body, memo, fuel - 1);
      if s.res.Ok? && s.res.value != ivars {
        var grown := ivars + s.res.value;
        FixpointExtends(k, defs, call, body, grown, s.memo[key := grown], fuel - 1);
      }
    }
  }

  /** A call that succeeds is in the memo afterwards with its result. A call analysed for the first time
      fails for an undefined name; otherwise its result, bound to the call in the memo, is what the
      unfolded body yields. */
  lemma CallMemoised(k: Kind, defs: Defs, p: Process, memo: Memo, fuel: nat)
    requires p.Call?
    ensures var r := Vars(k, defs, p, memo, fuel);
            && Extends(memo, r.memo)
            && (r.res.Ok? ==> ShowProcess(p) in r.memo && r.memo[ShowProcess(p)] == r.res.value)
            && (ShowProcess(p) !in memo && p.defName !in defs ==> r.res == Err(UndefinedCall(p.defName)))
            && (ShowProcess(p) !in memo && r.res.Ok? ==>
                  p.defName in defs &&
                  exists m: Memo, f: nat :: ShowProcess(p) in m && m[ShowProcess(p)] == r.res.value
                                            && Vars(k, defs, DefUnfoldCall(defs, p).value, m, f).res == r.res)
  {
    VarsExtends(k, defs, p, memo, fuel);
    var key := ShowProcess(p);
    if key !in memo && DefUnfoldCall(defs, p).Ok? {
      FixpointExtends(k, defs, p, DefUnfoldCall(defs, p).value, {}, memo[key := {}], fuel);
    }
  }

  // ---------------------------------------------------------------------------
  // Private and input variables of a call-free process

  /** The names `p` binds: by restrictions for the private analysis, by inputs for the input analysis. */
  function Bound(k: Kind, p: Process): set<Name> {
    match p
    case Term => {}
    case Restriction(x, c) => (if k == PrivateVars then {x} else {}) + Bound(k, c)
    case GC(c) => Bound(k, c)
    case Call(_, _) => {}
    case Choice(bs) => BranchesBound(k, bs, |bs|)
    case Parallel(cs) => ChildrenBound(k, cs, |cs|)
  }

  function BranchBound(k: Kind, b: Branch): set<Name> {
    (if k == InputVars && b.act.Input? then {b.act.variable} else {}) + Bound(k, b.cont)
  }

  /** The names bound by the first `n` branches. */
  function BranchesBound(k: Kind, bs: seq<Branch>, n: nat): set<Name>
    requires n <= |bs|
  {
    if n == 0 then {} else BranchesBound(k, bs, n - 1) + BranchBound(k, bs[n - 1])
  }

  /** The names bound by the first `n` children. */
  function ChildrenBound(k: Kind, cs: seq<Process>, n: nat): set<Name>
    requires n <= |cs|
  {
    if n == 0 then {} else ChildrenBound(k, cs, n - 1) + Bound(k, cs[n - 1])
  }

  /** No name is bound twice where the analysis objects: no two children of a parallel composition bind
      a common name, and (for inputs) no input variable is bound again in its own continuation. Two
      branches of one choice may bind the same name. */
  predicate Linear(k: Kind, p: Process) {
    match p
    case Term => true
    case Restriction(_, c) => Linear(k, c)
    case GC(c) => Linear(k, c)
    case Call(_, _) => true
    case Choice(bs) => forall i :: 0 <= i < |bs| ==> BranchLinear(k, bs[i])
    case Parallel(cs) =>
      && (forall i :: 0 <= i < |cs| ==> Linear(k, cs[i]))
      && (forall i, j :: 0 <= i < j < |cs| ==> Bound(k, cs[i]) !! Bound(k, cs[j]))
  }

  predicate BranchLinear(k: Kind, b: Branch) {
    && Linear(k, b.cont)
    && (k == InputVars && b.act.Input? ==> b.act.variable !in Bound(k, b.cont))
  }

  /** The error the analysis `k` reports for a name bound twice. */
  predicate IsDuplicate(k: Kind, e: Failure) {
    if k == PrivateVars then e.DuplicatePrivate? else e.DuplicateInput?
  }

  /** The union of the first `n` children's bound names holds exactly the names one of them binds. */
  lemma {:induction false} ChildrenBoundMembers(k: Kind, cs: seq<Process>, n: nat)
    requires n <= |cs|
    ensures forall x :: x in ChildrenBound(k, cs, n) <==> exists i :: 0 <= i < n && x in Bound(k, cs[i])
  {
    if n > 0 {
      ChildrenBoundMembers(k, cs, n - 1);
    }
  }

  /** `fetch_private_vars` and `fetch_input_vars` of a call-free process: they succeed exactly when the
      process is linear, then return the names it binds, and otherwise report a duplicate. The memo is
      left alone. */
  lemma {:induction false} BoundVars(k: Kind, defs: Defs, p: Process, memo: Memo, fuel: nat)
    requires k != StaticVars && CallFree(p)
    ensures var r := Vars(k, defs, p, memo, fuel);
            && r.memo == memo
            && (r.res.Ok? <==> Linear(k, p))
            && (r.res.Ok? ==> r.res.value == Bound(k, p))
            && (r.res.Err? ==> IsDuplicate(k, r.res.error))
    decreases p, 1
  {
    match p
    case Term =>
    case Restriction(_, c) =>
      BoundVars(k, defs, c, memo, fuel);
    case GC(c) =>
      BoundVars(k, defs, c, memo, fuel);
    case Choice(bs) =>
      BranchesBoundVars(k, defs, p, 0, {}, memo, fuel);
    case Parallel(cs) =>
      ChildrenBoundVars(k, defs, p, 0, {}, memo, fuel);
      DisjointStepwise(k, cs);
  }

  /** Children that bind pairwise disjoint names are children each disjoint from the ones before it. */
  lemma DisjointStepwise(k: Kind, cs: seq<Process>)
    ensures (forall i, j :: 0 <= i < j < |cs| ==> Bound(k, cs[i]) !! Bound(k, cs[j])) <==>
            (forall j :: 0 <= j < |cs| ==> ChildrenBound(k, cs, j) !! Bound(k, cs[j]))
  {
    forall j | 0 <= j < |cs| {
      ChildrenBoundMembers(k, cs, j);
    }
    if forall i, j :: 0 <= i < j < |cs| ==> Bound(k, cs[i]) !! Bound(k, cs[j]) {
      forall j | 0 <= j < |cs| ensures ChildrenBound(k, cs, j) !! Bound(k, cs[j]) {
        forall x | x in ChildrenBound(k, cs, j) ensures x !in Bound(k, cs[j]) {
          var i :| 0 <= i < j && x in Bound(k, cs[i]);
        }
      }
    }
    if forall j :: 0 <= j < |cs| ==> ChildrenBound(k, cs, j) !! Bound(k, cs[j]) {
      forall i, j | 0 <= i < j < |cs| ensures Bound(k, cs[i]) !! Bound(k, cs[j]) {
        forall x | x in Bound(k, cs[i]) ensures x !in Bound(k, cs[j]) {
          assert x in ChildrenBound(k, cs, j);
        }
      }
    }
  }

  lemma {:induction false} BranchesBoundVars(k: Kind, defs: Defs, p: Process, i: nat, acc: set<Name>, memo: Memo, fuel: nat)
    requires k != StaticVars && CallFree(p) && p.Choice? && i <= |p.branches|
    requires acc == BranchesBound(k, p.branches, i)
    ensures var r := BranchesVars(k, defs, p, i, acc, memo, fuel);
            && r.memo == memo
            && (r.res.Ok? <==> forall j :: i <= j < |p.branches| ==> BranchLinear(k, p.branches[j]))
            && (r.res.Ok? ==> r.res.value == Bound(k, p))
            && (r.res.Err? ==> IsDuplicate(k, r.res.error))
    decreases p, 0, |p.branches| - i
  {
    var bs := p.branches;
    if i < |bs| {
      BoundVars(k, defs, bs[i].cont, memo, fuel);
      var s := Vars(k, defs, bs[i].cont, memo, fuel);
      if s.res.Ok? {
        var step := BranchStep(k, acc, bs[i], s.res.value);
        if step.Ok? {
          assert step.value == BranchesBound(k, bs, i + 1);
          BranchesBoundVars(k, defs, p, i + 1, step.value, memo, fuel);
        }
      }
    }
  }

  lemma {:induction false} ChildrenBoundVars(k: Kind, defs: Defs, p: Process, i: nat, acc: set<Name>, memo: Memo, fuel: nat)
    requires k != StaticVars && CallFree(p) && p.Parallel? && i <= |p.children|
    requires acc == ChildrenBound(k, p.children, i)
    ensures var r := ChildrenVars(k, defs, p, i, acc, memo, fuel);
            && r.memo == memo
            && (r.res.Ok? <==> forall j :: i <= j < |p.children| ==>
                                 Linear(k, p.children[j]) && ChildrenBound(k, p.children, j) !! Bound(k, p.children[j]))
            && (r.res.Ok? ==> r.res.value == Bound(k, p))
            && (r.res.Err? ==> IsDuplicate(k, r.res.error))
    decreases p, 0, |p.children| - i
  {
    var cs := p.children;
    if i < |cs| {
      BoundVars(k, defs, cs[i], memo, fuel);
      var s := Vars(k, defs, cs[i], memo, fuel);
      if s.res.Ok? {
        var step := ChildStep(k, acc, s.res.value);
        if step.Ok? {
          assert ChildrenBound(k, cs, i) !! Bound(k, cs[i]) by {
            forall x | x in acc ensures x !in s.res.value {
              assert x !in acc * s.res.value;
            }
          }
          ChildrenBoundVars(k, defs, p, i + 1, step.value, memo, fuel);
          var r := ChildrenVars(k, defs, p, i, acc, memo, fuel);
          if forall j :: i + 1 <= j < |cs| ==> Linear(k, cs[j]) && ChildrenBound(k, cs, j) !! Bound(k, cs[j]) {
            assert r.res.Ok?;
          }
        }
      }
    }
  }

  // ---------------------------------------------------------------------------
  // Static variables of a call-free process

  /** Every input variable of a choice is a name the static analysis has not yet collected in that
      choice: not free in an earlier branch, and neither in the branch's own guard nor its channel. */
  predicate FreshInputs(p: Process) {
    match p
    case Term => true
    case Restriction(_, c) => FreshInputs(c)
    case GC(c) => FreshInputs(c)
    case Call(_, _) => true
    case Choice(bs) =>
      forall i :: 0 <= i < |bs| ==>
        && FreshInputs(bs[i].cont)
        && (bs[i].act.Input? ==>
              bs[i].act.variable !in BranchesFree(bs[..i]) + GuardNames(bs[i].guard) + {bs[i].act.chan})
    case Parallel(cs) => forall i :: 0 <= i < |cs| ==> FreshInputs(cs[i])
  }

  lemma {:induction false} BranchesFreeSnoc(bs: seq<Branch>, b: Branch)
    ensures BranchesFree(bs + [b]) == BranchesFree(bs) + BranchFree(b)
    decreases |bs|
  {
    if bs == [] {
      assert [b][1..] == [];
    } else {
      assert (bs + [b])[1..] == bs[1..] + [b];
      BranchesFreeSnoc(bs[1..], b);
    }
  }

  lemma {:induction false} ChildrenFreeSnoc(cs: seq<Process>, c: Process)
    ensures ChildrenFree(cs + [c]) == ChildrenFree(cs) + FreeNames(c)
    decreases |cs|
  {
    if cs == [] {
      assert [c][1..] == [];
    } else {
      assert (cs + [c])[1..] == cs[1..] + [c];
      ChildrenFreeSnoc(cs[1..], c);
    }
  }

  /** `fetch_static_vars` of a call-free process succeeds, leaves the memo alone and returns free names
      only; it returns all of them when every input variable is fresh in its choice. */
  lemma {:induction false} StaticVarsOfCallFree(defs: Defs, p: Process, memo: Memo, fuel: nat)
    requires CallFree(p)
    ensures var r := Vars(StaticVars, defs, p, memo, fuel);
            && r.memo == memo
            && r.res.Ok?
            && r.res.value <= FreeNames(p)
            && (FreshInputs(p) ==> r.res.value == FreeNames(p))
    decreases p, 1
  {
    match p
    case Term =>
    case Restriction(_, c) =>
      StaticVarsOfCallFree(defs, c, memo, fuel);
    case GC(c) =>
      StaticVarsOfCallFree(defs, c, memo, fuel);
    case Choice(bs) =>
      assert bs[..0] == [];
      StaticBranches(defs, p, 0, {}, memo, fuel);
    case Parallel(cs) =>
      assert cs[..0] == [];
      StaticChildren(defs, p, 0, {}, memo, fuel);
  }

  lemma {:induction false} StaticBranches(defs: Defs, p: Process, i: nat, acc: set<Name>, memo: Memo, fuel: nat)
    requires CallFree(p) && p.Choice? && i <= |p.branches|
    requires acc <= BranchesFree(p.branches[..i])
    requires FreshInputs(p) ==> acc == BranchesFree(p.branches[..i])
    ensures var r := BranchesVars(StaticVars, defs, p, i, acc, memo, fuel);
            && r.memo == memo
            && r.res.Ok?
            && r.res.value <= FreeNames(p)
            && (FreshInputs(p) ==> r.res.value == FreeNames(p))
    decreases p, 0, |p.branches| - i
  {
    var bs := p.branches;
    if i == |bs| {
      assert bs[..i] == bs;
    } else {
      var b := bs[i];
      StaticVarsOfCallFree(defs, b.cont, memo, fuel);
      var s := Vars(StaticVars, defs, b.cont, memo, fuel);
      StaticBranchStep(acc, b, s.res.value, BranchesFree(bs[..i]));
      var next := BranchStep(StaticVars, acc, b, s.res.value).value;
      assert bs[..i + 1] == bs[..i] + [b];
      BranchesFreeSnoc(bs[..i], b);
      if FreshInputs(p) {
        assert FreshInputs(b.cont);
      }
      StaticBranches(defs, p, i + 1, next, memo, fuel);
    }
  }

  /** One branch of the static analysis adds only free names of the branch, and all of them when its
      input variable has not been collected already. */
  lemma StaticBranchStep(acc: set<Name>, b: Branch, contVars: set<Name>, before: set<Name>)
    requires acc <= before && contVars <= FreeNames(b.cont)
    ensures var r := BranchStep(StaticVars, acc, b, contVars);
            && r.Ok?
            && r.value <= before + BranchFree(b)
            && (acc == before && contVars == FreeNames(b.cont) &&
                (b.act.Input? ==> b.act.variable !in before + GuardNames(b.guard) + {b.act.chan}) ==>
                r.value == before + BranchFree(b))
  {
  }

  lemma {:induction false} StaticChildren(defs: Defs, p: Process, i: nat, acc: set<Name>, memo: Memo, fuel: nat)
    requires CallFree(p) && p.Parallel? && i <= |p.children|
    requires acc <= ChildrenFree(p.children[..i])
    requires FreshInputs(p) ==> acc == ChildrenFree(p.children[..i])
    ensures var r := ChildrenVars(StaticVars, defs, p, i, acc, memo, fuel);
            && r.memo == memo
            && r.res.Ok?
            && r.res.value <= FreeNames(p)
            && (FreshInputs(p) ==> r.res.value == FreeNames(p))
    decreases p, 0, |p.children| - i
  {
    var cs := p.children;
    if i == |cs| {
      assert cs[..i] == cs;
    } else {
      StaticVarsOfCallFree(defs, cs[i], memo, fuel);
      var s := Vars(StaticVars, defs, cs[i], memo, fuel);
      assert cs[..i + 1] == cs[..i] + [cs[i]];
      ChildrenFreeSnoc(cs[..i], cs[i]);
      StaticChildren(defs, p, i + 1, acc + s.res.value, memo, fuel);
    }
  }

  // ---------------------------------------------------------------------------
  // Fuel only bounds the loop

  /** A result reached without running out of fuel is the one any larger fuel reaches: the fuel bound
      changes nothing but whether the `while True` loops are cut short. */
  lemma {:induction false} VarsFuelMono(k: Kind, defs: Defs, p: Process, memo: Memo, fuel: nat, more: nat)
    requires fuel <= more && Vars(k, defs, p, memo, fuel).res != Err(OutOfFuel)
    ensures Vars(k, defs, p, memo, more) == Vars(k, defs, p, memo, fuel)
    decreases fuel, p, 1, 0
  {
    match p
    case Term =>
    case Restriction(_, c) =>
      VarsFuelMono(k, defs, c, memo, fuel, more);
    case GC(c) =>
      VarsFuelMono(k, defs, c, memo, fuel, more);
    case Call(_, _) =>
      var key := ShowProcess(p);
      if key !in memo {
        var unfolded := DefUnfoldCall(defs, p);
        if unfolded.Ok? {
          FixpointFuelMono(k, defs, p, unfolded.value, {}, memo[key := {}], fuel, more);
        }
      }
    case Choice(_) =>
      BranchesFuelMono(k, defs, p, 0, {}, memo, fuel, more);
    case Parallel(_) =>
      ChildrenFuelMono(k, defs, p, 0, {}, memo, fuel, more);
  }

  lemma {:induction false} BranchesFuelMono(k: Kind, defs: Defs, p: Process, i: nat, acc: set<Name>, memo: Memo, fuel: nat, more: nat)
    requires p.Choice? && i <= |p.branches|
    requires fuel <= more && BranchesVars(k, defs, p, i, acc, memo, fuel).res != Err(OutOfFuel)
    ensures BranchesVars(k, defs, p, i, acc, memo, more) == BranchesVars(k, defs, p, i, acc, memo, fuel)
    decreases fuel, p, 0, |p.branches| - i
  {
    if i < |p.branches| {
      VarsFuelMono(k, defs, p.branches[i].cont, memo, fuel, more);
      var s := Vars(k, defs, p.branches[i].cont, memo, fuel);
      if s.res.Ok? {
        var step := BranchStep(k, acc, p.branches[i], s.res.value);
        if step.Ok? {
          BranchesFuelMono(k, defs, p, i + 1, step.value, s.memo, fuel, more);
        }
      }
    }
  }

  lemma {:induction false} ChildrenFuelMono(k: Kind, defs: Defs, p: Process, i: nat, acc: set<Name>, memo: Memo, fuel: nat, more: nat)
    requires p.Parallel? && i <= |p.children|
    requires fuel <= more && ChildrenVars(k, defs, p, i, acc, memo, fuel).res != Err(OutOfFuel)
    ensures ChildrenVars(k, defs, p, i, acc, memo, more) == ChildrenVars(k, defs, p, i, acc, memo, fuel)
    decreases fuel, p, 0, |p.children| - i
  {
    if i < |p.children| {
      VarsFuelMono(k, defs, p.children[i], memo, fuel, more);
      var s := Vars(k, defs, p.children[i], memo, fuel);
      if s.res.Ok? {
        var step := ChildStep(k, acc, s.res.value);
        if step.Ok? {
          ChildrenFuelMono(k, defs, p, i + 1, step.value, s.memo, fuel, more);
        }
      }
    }
  }

  lemma {:induction false} FixpointFuelMono(k: Kind, defs: Defs, call: Process, body: Process, ivars: set<Name>, memo: Memo, fuel: nat, more: nat)
    requires call.Call?
    requires fuel <= more && Fixpoint(k, defs, call, body, ivars, memo, fuel).res != Err(OutOfFuel)
    ensures Fixpoint(k, defs, call, body, ivars, memo, more) == Fixpoint(k, defs, call, body, ivars, memo, fuel)
    decreases fuel, call, 0, 0
  {
    VarsFuelMono(k, defs, body, memo, fuel - 1, more - 1);
    var s := Vars(k, defs, body, memo, fuel - 1);
    if s.res.Ok? && s.res.value != ivars {
      var grown := ivars + s.res.value;
      FixpointFuelMono(k, defs, call, body, grown, s.memo[ShowProcess(call) := grown], fuel - 1, more - 1);
    }
  }

  // ---------------------------------------------------------------------------
  // Examples

  /** In `c!x.0 + d?(x).0` the input of the second branch removes `x` that the first branch output:
      `x` is free, yet not a static variable. */
  lemma StaticChoiceLeak()
    ensures var p := Choice([Branch(Guard([]), Output("c", "x"), Term), Branch(Guard([]), Input("d", "x"), Term)]);
            && FreeNames(p) == {"c", "x", "d"}
            && Vars(StaticVars, map[], p, map[], 0).res == Ok({"c", "d"})
  {
    var b0, b1 := Branch(Guard([]), Output("c", "x"), Term), Branch(Guard([]), Input("d", "x"), Term);
    var p := Choice([b0, b1]);
    assert GuardNames(Guard([])) == {};
    var none := Vars(StaticVars, map[], Term, map[], 0);
    assert none == Step(Ok({}), map[]);
    assert {} + {} + {} + {"c", "x"} == {"c", "x"};
    assert BranchStep(StaticVars, {}, b0, {}) == Ok({"c", "x"});
    assert {"c", "x"} + {} + {} + {"d"} - {"x"} == {"c", "d"};
    assert BranchStep(StaticVars, {"c", "x"}, b1, {}) == Ok({"c", "d"});
    assert BranchesVars(StaticVars, map[], p, 2, {"c", "d"}, map[], 0) == Step(Ok({"c", "d"}), map[]);
    assert BranchesVars(StaticVars, map[], p, 1, {"c", "x"}, map[], 0) == Step(Ok({"c", "d"}), map[]);
    assert BranchesVars(StaticVars, map[], p, 0, {}, map[], 0) == Step(Ok({"c", "d"}), map[]);
  }

  /** `c?(x).0 + d?(x).0`: the same input variable in two branches of a choice is accepted. */
  lemma InputsInTwoBranches()
    ensures var p := Choice([Branch(Guard([]), Input("c", "x"), Term), Branch(Guard([]), Input("d", "x"), Term)]);
            Vars(InputVars, map[], p, map[], 0).res == Ok({"x"})
  {
    var b0, b1 := Branch(Guard([]), Input("c", "x"), Term), Branch(Guard([]), Input("d", "x"), Term);
    var p := Choice([b0, b1]);
    assert Vars(InputVars, map[], Term, map[], 0) == Step(Ok({}), map[]);
    assert {} + {"x"} + {} == {"x"} + {"x"} + {} == {"x"};
    assert BranchStep(InputVars, {}, b0, {}) == Ok({"x"});
    assert BranchStep(InputVars, {"x"}, b1, {}) == Ok({"x"});
    assert BranchesVars(InputVars, map[], p, 2, {"x"}, map[], 0) == Step(Ok({"x"}), map[]);
    assert BranchesVars(InputVars, map[], p, 1, {"x"}, map[], 0) == Step(Ok({"x"}), map[]);
    assert BranchesVars(InputVars, map[], p, 0, {}, map[], 0) == Step(Ok({"x"}), map[]);
  }

  /** `c?(x).c?(x).0`: an input variable bound again in its own continuation is a duplicate. */
  lemma InputBoundTwiceInSequence()
    ensures var p := Prefix(Input("c", "x"), Prefix(Input("c", "x"), Term));
            Vars(InputVars, map[], p, map[], 0).res == Err(DuplicateInput({"x"}))
  {
    var inner := Prefix(Input("c", "x"), Term);
    var p := Prefix(Input("c", "x"), inner);
    InputPrefixOfTerm("c", "x");
    assert BranchStep(InputVars, {}, p.branches[0], {"x"}) == Err(DuplicateInput({"x"}));
    assert BranchesVars(InputVars, map[], p, 0, {}, map[], 0) == Step(Err(DuplicateInput({"x"})), map[]);
  }

  /** `c?(x).0` binds exactly `x`. */
  lemma InputPrefixOfTerm(c: Name, x: Name)
    ensures Vars(InputVars, map[], Prefix(Input(c, x), Term), map[], 0) == Step(Ok({x}), map[])
  {
    var p := Prefix(Input(c, x), Term);
    assert Vars(InputVars, map[], Term, map[], 0) == Step(Ok({}), map[]);
    assert {} + {x} + {} == {x};
    assert BranchStep(InputVars, {}, p.branches[0], {}) == Ok({x});
    assert BranchesVars(InputVars, map[], p, 1, {x}, map[], 0) == Step(Ok({x}), map[]);
    assert BranchesVars(InputVars, map[], p, 0, {}, map[], 0) == Step(Ok({x}), map[]);
  }

  /** `c?(x).0 || d?(x).0` and `new(a)0 || new(a)0`: two children binding the same name are a duplicate. */
  lemma DuplicatesAcrossChildren()
    ensures var inputs := Parallel([Prefix(Input("c", "x"), Term), Prefix(Input("d", "x"), Term)]);
            Vars(InputVars, map[], inputs, map[], 0).res == Err(DuplicateInput({"x"}))
    ensures var privates := Parallel([Restriction("a", Term), Restriction("a", Term)]);
            Vars(PrivateVars, map[], privates, map[], 0).res == Err(DuplicatePrivate({"a"}))
  {
    var inputs := Parallel([Prefix(Input("c", "x"), Term), Prefix(Input("d", "x"), Term)]);
    InputPrefixOfTerm("c", "x");
    InputPrefixOfTerm("d", "x");
    assert {"x"} * {"x"} == {} + {"x"} == {"x"};
    assert ChildStep(InputVars, {"x"}, {"x"}) == Err(DuplicateInput({"x"}));
    assert ChildrenVars(InputVars, map[], inputs, 1, {"x"}, map[], 0) == Step(Err(DuplicateInput({"x"})), map[]);
    assert ChildrenVars(InputVars, map[], inputs, 0, {}, map[], 0) == Step(Err(DuplicateInput({"x"})), map[]);
    var privates := Parallel([Restriction("a", Term), Restriction("a", Term)]);
    var one := Vars(PrivateVars, map[], Restriction("a", Term), map[], 0);
    assert Vars(PrivateVars, map[], Term, map[], 0) == Step(Ok({}), map[]);
    assert {} + {"a"} == {"a"} * {"a"} == {"a"};
    assert one == Step(Ok({"a"}), map[]);
    assert ChildStep(PrivateVars, {"a"}, {"a"}) == Err(DuplicatePrivate({"a"}));
    assert ChildrenVars(PrivateVars, map[], privates, 1, {"a"}, map[], 0) == Step(Err(DuplicatePrivate({"a"})), map[]);
    assert ChildrenVars(PrivateVars, map[], privates, 0, {}, map[], 0) == Step(Err(DuplicatePrivate({"a"})), map[]);
  }

  /** The generator `Gen() = new(a) c!a.Gen()`: the first round of the fixpoint sees the recursive call
      as empty, the second confirms the result. Static variables `{c}`, private variables `{a}`. */
  lemma GeneratorFixpoint()
    ensures var body := Restriction("a", Prefix(Output("c", "a"), Call("Gen", [])));
            var defs := map["Gen" := Definition("Gen", [], body)];
            && Vars(StaticVars, defs, Call("Gen", []), map[], 2).res == Ok({"c"})
            && Vars(PrivateVars, defs, Call("Gen", []), map[], 2).res == Ok({"a"})
  {
    var call := Call("Gen", []);
    var body := Restriction("a", Prefix(Output("c", "a"), call));
    var defs := map["Gen" := Definition("Gen", [], body)];
    UnfoldWithoutArgs(defs, call);
    var key := ShowProcess(call);
    var choice := body.cont;
    var m0, m1 := map[key := {}], map[key := {"c"}];
    // static variables: {c, a} - {a} in both rounds
    assert GuardNames(Guard([])) == {};
    assert {} + {} + {} + {"c", "a"} == {} + {} + {"c"} + {"c", "a"} == {"c", "a"};
    assert {"c", "a"} - {"a"} == {"c"};
    assert Vars(StaticVars, defs, call, m0, 1) == Step(Ok({}), m0);
    assert BranchesVars(StaticVars, defs, choice, 1, {"c", "a"}, m0, 1) == Step(Ok({"c", "a"}), m0);
    assert Vars(StaticVars, defs, body, m0, 1) == Step(Ok({"c"}), m0);
    assert m0[key := {"c"}] == m1;
    assert Vars(StaticVars, defs, call, m1, 0) == Step(Ok({"c"}), m1);
    assert BranchesVars(StaticVars, defs, choice, 1, {"c", "a"}, m1, 0) == Step(Ok({"c", "a"}), m1);
    assert Vars(StaticVars, defs, body, m1, 0) == Step(Ok({"c"}), m1);
    assert Fixpoint(StaticVars, defs, call, body, {"c"}, m1, 1) == Step(Ok({"c"}), m1);
    assert Fixpoint(StaticVars, defs, call, body, {}, m0, 2) == Step(Ok({"c"}), m1);
    // private variables: {a} in both rounds
    var p1 := map[key := {"a"}];
    var none: set<Name> := {};
    assert none + none == none && none + {"a"} == {"a"} + {"a"} == {"a"};
    assert Vars(PrivateVars, defs, call, m0, 1) == Step(Ok({}), m0);
    assert BranchesVars(PrivateVars, defs, choice, 1, {}, m0, 1) == Step(Ok({}), m0);
    assert Vars(PrivateVars, defs, body, m0, 1) == Step(Ok({"a"}), m0);
    assert m0[key := {"a"}] == p1;
    assert Vars(PrivateVars, defs, call, p1, 0) == Step(Ok({"a"}), p1);
    assert BranchesVars(PrivateVars, defs, choice, 1, {"a"}, p1, 0) == Step(Ok({"a"}), p1);
    assert Vars(PrivateVars, defs, body, p1, 0) == Step(Ok({"a"}), p1);
    assert Fixpoint(PrivateVars, defs, call, body, {"a"}, p1, 1) == Step(Ok({"a"}), p1);
    assert Fixpoint(PrivateVars, defs, call, body, {}, m0, 2) == Step(Ok({"a"}), p1);
  }
}
