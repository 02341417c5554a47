/** The textual form of processes (the `__str__` methods). The rendering of a call is also the key
    under which the variable analyses memoise their results. */
module Render {
  import opened PiSyntax

  /** `sep.join(items)`. */
  function Join(sep: string, items: seq<string>): string
    decreases |items|
  {
    if |items| == 0 then ""
    else if |items| == 1 then items[0]
    else Join(sep, items[..|items| - 1]) + sep + items[|items| - 1]
  }

  function ShowCond(c: Cond): string {
    match c
    case Match(l, r) => l + "=" + r
    case Mismatch(l, r) => l + "<>" + r
  }

  function ShowConds(cs: seq<Cond>): (r: seq<string>)
    ensures |r| == |cs|
    ensures forall i :: 0 <= i < |cs| ==> r[i] == ShowCond(cs[i])
  {
    if cs == [] then [] else [ShowCond(cs[0])] + ShowConds(cs[1..])
  }

  /** The empty guard prints as nothing; otherwise `[c1^...^cN] `. */
  function ShowGuard(g: Guard): string {
    if g.conds == [] then "" else "[" + Join("^", ShowConds(g.conds)) + "] "
  }

  function ShowAction(a: Action): string {
    match a
    case Tau => "tau"
    case Output(c, d) => c + "!" + d
    case Input(c, x) => c + "?(" + x + ")"
  }

  function ShowProcess(p: Process): string {
    match p
    case Term => "0"
    case Restriction(x, c) => "new(" + x + "){" + ShowProcess(c) + "}"
    case GC(c) => "<GC>=>" + ShowProcess(c)
    case Call(d, args) => d + "(" + Join(", ", args) + ")"
    case Choice(bs) =>
      if |bs| == 0 then "<EMPTY CHOICE>"
      else if |bs| == 1 then ShowBranch(bs[0])
      else "(" + Join(" + ", ShowBranches(bs)) + ")"
    case Parallel(cs) =>
      if |cs| == 0 then "<EMPTY PARALLEL>"
      else if |cs| == 1 then ShowProcess(cs[0])
      else "(" + Join(" || ", ShowChildren(cs)) + ")"
  }

  /** `str_one_branch`. */
  function ShowBranch(b: Branch): string {
    ShowGuard(b.guard) + ShowAction(b.act) + "." + ShowProcess(b.cont)
  }

  function ShowBranches(bs: seq<Branch>): (r: seq<string>)
    ensures |r| == |bs|
    ensures forall i :: 0 <= i < |bs| ==> r[i] == ShowBranch(bs[i])
  {
    if bs == [] then [] else [ShowBranch(bs[0])] + ShowBranches(bs[1..])
  }

  function ShowChildren(cs: seq<Process>): (r: seq<string>)
    ensures |r| == |cs|
    ensures forall i :: 0 <= i < |cs| ==> r[i] == ShowProcess(cs[i])
  {
    if cs == [] then [] else [ShowProcess(cs[0])] + ShowChildren(cs[1..])
  }

  /** A built one-branch choice prints bare: `act.P` for `prefix`, `[c] act.P` for `cond_process`. */
  lemma ShowBuilders(c: Cond, act: Action, cont: Process)
    ensures ShowProcess(Prefix(act, cont)) == ShowAction(act) + "." + ShowProcess(cont)
    ensures ShowProcess(CondProcess(c, act, cont)) == "[" + ShowCond(c) + "] " + ShowAction(act) + "." + ShowProcess(cont)
  {
    var b := Branch(Guard([]), act, cont);
    assert ShowProcess(Prefix(act, cont)) == ShowBranch(b);
    assert ShowGuard(b.guard) == "";
    var g := Guard([c]);
    assert ShowProcess(CondProcess(c, act, cont)) == ShowBranch(Branch(g, act, cont));
    assert ShowConds(g.conds) == [ShowCond(c)];
    assert Join("^", [ShowCond(c)]) == ShowCond(c);
    assert ShowGuard(g) == "[" + ShowCond(c) + "] ";
  }

  // ---------------------------------------------------------------------------
  // The `__str__` loops: a separator that is empty before the first item

  /** One more item after the separator: the join of a prefix grows by the next item. */
  lemma JoinStep(open: string, sep: string, items: seq<string>, i: nat)
    requires i < |items|
    ensures open + Join(sep, items[..i]) + (if i == 0 then "" else sep) + items[i] == open + Join(sep, items[..i + 1])
  {
    assert items[..i + 1][..i] == items[..i];
  }

  /** `Guard.__str__`. */
  method RenderGuard(g: Guard) returns (s: string)
    ensures s == ShowGuard(g)
  {
    if g.conds == [] {
      return "";
    }
    ghost var shown := ShowConds(g.conds);
    s := "[";
    var sep := "";
    for i := 0 to |g.conds|
      invariant s == "[" + Join("^", shown[..i])
      invariant sep == if i == 0 then "" else "^"
    {
      JoinStep("[", "^", shown, i);
      s := s + sep;
      if sep == "" {
        sep := "^";
      }
      s := s + ShowCond(g.conds[i]);
    }
    assert shown[..|g.conds|] == shown;
    s := s + "] ";
  }

  /** `str_one_branch` over the guard's own rendering loop. */
  method RenderBranch(b: Branch) returns (s: string)
    ensures s == ShowBranch(b)
    decreases b, 0
  {
    var guard := RenderGuard(b.guard);
    var cont := RenderProcess(b.cont);
    s := guard + ShowAction(b.act) + "." + cont;
  }

  /** `__str__` of every kind of process. */
  method RenderProcess(p: Process) returns (s: string)
    ensures s == ShowProcess(p)
    decreases p, 2
  {
    match p
    case Term =>
      s := "0";
    case Restriction(x, c) =>
      var cont := RenderProcess(c);
      s := "new(" + x + "){" + cont + "}";
    case GC(c) =>
      var cont := RenderProcess(c);
      s := "<GC>=>" + cont;
    case Call(d, args) =>
      s := d + "(" + Join(", ", args) + ")";
    case Choice(bs) =>
      s := RenderChoice(p);
    case Parallel(cs) =>
      s := RenderParallel(p);
  }

  /** `Choice.__str__`. */
  method RenderChoice(p: Process) returns (s: string)
    requires p.Choice?
    ensures s == ShowProcess(p)
    decreases p, 1
  {
    var bs := p.branches;
    if |bs| == 0 {
      s := "<EMPTY CHOICE>";
    } else if |bs| == 1 {
      s := RenderBranch(bs[0]);
    } else {
      ghost var shown := ShowBranches(bs);
      s := "(";
      var sep := "";
      for i := 0 to |bs|
        invariant s == "(" + Join(" + ", shown[..i])
        invariant sep == if i == 0 then "" else " + "
      {
        JoinStep("(", " + ", shown, i);
        s := s + sep;
        if sep == "" {
          sep := " + ";
        }
        var branch := RenderBranch(bs[i]);
        s := s + branch;
      }
      assert shown[..|bs|] == shown;
      s := s + ")";
    }
  }

  /** `Parallel.__str__`. */
  method RenderParallel(p: Process) returns (s: string)
    requires p.Parallel?
    ensures s == ShowProcess(p)
    decreases p, 1
  {
    var cs := p.children;
    if |cs| == 0 {
      return "<EMPTY PARALLEL>";
    }
    if |cs| == 1 {
      s := RenderProcess(cs[0]);
      return;
    }
    ghost var shown := ShowChildren(cs);
    s := "(";
    var sep := "";
    for i := 0 to |cs|
      invariant s == "(" + Join(" || ", shown[..i])
      invariant sep == if i == 0 then "" else " || "
    {
      JoinStep("(", " || ", shown, i);
      s := s + sep;
      if sep == "" {
        sep := " || ";
      }
      var child := RenderProcess(cs[i]);
      s := s + child;
    }
    assert shown[..|cs|] == shown;
    s := s + ")";
  }

  // ---------------------------------------------------------------------------
  // The rendering of a call as a memo key

  predicate IsLetter(c: char) {
    'a' <= c <= 'z' || 'A' <= c <= 'Z'
  }

  /** A name as the pi-calculus tokenizer reads it: `[a-zA-Z_][a-zA-Z0-9_]*`. */
  predicate IsIdentifier(n: Name) {
    && |n| > 0
    && (IsLetter(n[0]) || n[0] == '_')
    && forall i :: 1 <= i < |n| ==> IsLetter(n[i]) || '0' <= n[i] <= '9' || n[i] == '_'
  }

  predicate AllIdentifiers(ns: seq<Name>) {
    forall i :: 0 <= i < |ns| ==> IsIdentifier(ns[i])
  }

  /** The text after the last `c` in `s` (all of `s` when `c` does not occur). */
  function AfterLast(c: char, s: string): string
    decreases |s|
  {
    if s == [] || s[|s| - 1] == c then [] else AfterLast(c, s[..|s| - 1]) + [s[|s| - 1]]
  }

  /** The text before the first `c` in `s` (all of `s` when `c` does not occur). */
  function BeforeFirst(c: char, s: string): string {
    if s == [] || s[0] == c then [] else [s[0]] + BeforeFirst(c, s[1..])
  }

  lemma {:induction false} AfterLastOf(c: char, a: string, b: string)
    requires c !in b
    requires a == [] || a[|a| - 1] == c
    ensures AfterLast(c, a + b) == b
    decreases |b|
  {
    if b != [] {
      var b' := b[..|b| - 1];
      assert (a + b)[..|a + b| - 1] == a + b';
      AfterLastOf(c, a, b');
      assert b == b' + [b[|b| - 1]];
    }
  }

  lemma {:induction false} BeforeFirstOf(c: char, a: string, b: string)
    requires c !in a
    ensures BeforeFirst(c, a + [c] + b) == a
    decreases |a|
  {
    if a != [] {
      assert (a + [c] + b)[1..] == a[1..] + [c] + b;
      BeforeFirstOf(c, a[1..], b);
    }
  }

  /** Joining identifiers with ", " loses nothing: the list can be read back. */
  lemma {:induction false} JoinInjective(xs: seq<Name>, ys: seq<Name>)
    requires AllIdentifiers(xs) && AllIdentifiers(ys)
    requires Join(", ", xs) == Join(", ", ys)
    ensures xs == ys
    decreases |xs| + |ys|
  {
    if xs != [] && ys != [] {
      var n, m := |xs|, |ys|;
      JoinLast(xs);
      JoinLast(ys);
      if n > 1 {
        JoinInjective(xs[..n - 1], ys[..m - 1]);
        assert xs == xs[..n - 1] + [xs[n - 1]] && ys == ys[..m - 1] + [ys[m - 1]];
      }
    }
  }

  lemma NoBlankInIdentifier(n: Name)
    requires IsIdentifier(n)
    ensures ' ' !in n
  {
    assert forall i :: 0 <= i < |n| ==> n[i] != ' ';
  }

  /** The last of a list of joined identifiers is what follows the last blank, and what precedes it is
      the join of the others. */
  lemma JoinLast(xs: seq<Name>)
    requires AllIdentifiers(xs) && xs != []
    ensures var s, x := Join(", ", xs), xs[|xs| - 1];
            && AfterLast(' ', s) == x
            && (|xs| > 1 <==> |s| > |x|)
            && (|xs| > 1 ==> |s| >= |x| + 2 && Join(", ", xs[..|xs| - 1]) == s[..|s| - |x| - 2])
  {
    var s, x := Join(", ", xs), xs[|xs| - 1];
    NoBlankInIdentifier(x);
    if |xs| == 1 {
      assert s == [] + x;
      AfterLastOf(' ', [], x);
    } else {
      var init := Join(", ", xs[..|xs| - 1]);
      var before := init + ", ";
      assert s == before + x;
      AfterLastOf(' ', before, x);
      assert s[..|s| - |x| - 2] == init;
    }
  }

  /** Two calls to identifiers with identifier arguments render alike exactly when they are equal, so
      keying the memo by the rendering of a call identifies the call. */
  lemma CallKeyInjective(d1: Name, args1: seq<Name>, d2: Name, args2: seq<Name>)
    requires IsIdentifier(d1) && IsIdentifier(d2) && AllIdentifiers(args1) && AllIdentifiers(args2)
    ensures ShowProcess(Call(d1, args1)) == ShowProcess(Call(d2, args2)) <==> d1 == d2 && args1 == args2
  {
    var s1, s2 := ShowProcess(Call(d1, args1)), ShowProcess(Call(d2, args2));
    if s1 == s2 {
      var t1, t2 := Join(", ", args1) + ")", Join(", ", args2) + ")";
      assert s1 == d1 + ['('] + t1 && s2 == d2 + ['('] + t2;
      BeforeFirstOf('(', d1, t1);
      BeforeFirstOf('(', d2, t2);
      assert d1 == d2;
      assert Join(", ", args1) == s1[|d1| + 1..|s1| - 1] == Join(", ", args2);
      JoinInjective(args1, args2);
    }
  }

  /** Without that restriction on names the memo key is ambiguous: these two different calls share it. */
  lemma CallKeyCollision()
    ensures Call("D", ["a, b"]) != Call("D", ["a", "b"])
    ensures ShowProcess(Call("D", ["a, b"])) == ShowProcess(Call("D", ["a", "b"]))
  {
  }
}
