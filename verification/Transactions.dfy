/** Exceptions inside try tags: what a body wrote before it raised is gone from the whole
    run, and a try may stand between a case and its switch. */
module Transactions {
  import opened Basics
  import opened Variables
  import opened Interpreter
  import opened Runs

  // -------- what was written before an exception --------

  /** A run in which what the body of a try had written when it raised is replaced, in every
      try and at any depth, by some other text. It is the same run: neither the output nor
      the variables, the call stack or the way of ending depend on what was written. */
  function SpoiledExec(w: Program, spoil: string -> string, n: nat, caller: int, s: State, fuel: nat): (r: Result)
    requires Sound(s.chain)
    ensures r == Exec(w, n, caller, s, fuel)
    decreases fuel, 0
  {
    hide Kept, Filled, Start, Next, Finish, Do;
    KeptSelf(s.chain);
    if fuel == 0 then Spent(s)
    else
      var p := Start(w, n, caller, s);
      if p.Stop? then p.result
      else
        OpenedSound(At(w, n).kind, s.chain, p.state.chain);
        var written := SpoiledDo(w, spoil, p, fuel - 1);
        var raised := At(w, n).kind.Try? && written.outcome.Raised?;
        var r := if raised then written.(out := spoil(written.out)) else written;
        OpenedKept(At(w, n).kind, s.chain, p.state.chain, r.state.chain);
        if r.outcome.Stuck? then Spent(s)
        else
          OpenedSound(At(w, n).kind, s.chain, r.state.chain);
          SpoiledNext(w, n, caller, s, written, r.out);
          var q := Next(w, n, caller, s, r);
          if q.Stop? then q.result
          else
            var kind2 := if At(w, n).kind.Try? then Var else Group;
            OpenedSound(kind2, r.state.chain, q.state.chain);
            var r2 := SpoiledDo(w, spoil, q, fuel - 1);
            OpenedKept(kind2, r.state.chain, q.state.chain, r2.state.chain);
            SpoiledFinish(w, n, written, r.out, r2);
            if r2.outcome.Stuck? then Spent(s) else Finish(w, n, r, r2)
  }

  function SpoiledDo(w: Program, spoil: string -> string, p: Plan, fuel: nat): (r: Result)
    requires !p.Stop? && Sound(p.state.chain)
    ensures r == Do(w, p, fuel)
    decreases fuel, 2
  {
    hide Kept, Sound, Exec, ExecAll;
    if p.Run? then SpoiledExec(w, spoil, p.node, p.caller, p.state, fuel)
    else
      var r := SpoiledAll(w, spoil, At(w, p.node).children, p.caller, p.state, fuel);
      if r.outcome.Done? then r.(out := r.out + At(w, p.node).text) else r
  }

  function SpoiledAll(w: Program, spoil: string -> string, children: seq<nat>, caller: int, s: State,
                      fuel: nat): (r: Result)
    requires Sound(s.chain)
    ensures r == ExecAll(w, children, caller, s, fuel)
    decreases fuel, 1, |children|
  {
    hide Kept, Sound, Exec;
    if children == [] then Quiet(s, "")
    else
      var r := SpoiledExec(w, spoil, children[0], caller, s, fuel);
      if r.outcome.Stuck? then Spent(s)
      else if r.outcome.Raised? then r
      else
        KeptSound(s.chain, r.state.chain);
        var later := SpoiledAll(w, spoil, children[1..], caller, r.state, fuel);
        if later.outcome.Stuck? then Spent(s)
        else Result(later.state, r.out + later.out, later.outcome, r.log + later.log)
  }

  lemma SpoiledNext(w: Program, n: nat, caller: int, s: State, r: Result, out: string)
    requires Sound(s.chain) && Sound(r.state.chain) && Opened(At(w, n).kind, s.chain, r.state.chain)
    requires out == r.out || (At(w, n).kind.Try? && r.outcome.Raised?)
    ensures Next(w, n, caller, s, r.(out := out)) == Next(w, n, caller, s, r)
  {
    hide Kept, Filled, AddError, Enter, Leave, Child;
    assert r.(out := r.out) == r;
  }

  lemma SpoiledFinish(w: Program, n: nat, r: Result, out: string, r2: Result)
    requires |r.state.chain| > 0
    requires if At(w, n).kind.Try? then Filled(Enter(r.state.chain), r2.state.chain)
        else Kept(r.state.chain, r2.state.chain)
    requires out == r.out || At(w, n).kind.Try?
    ensures Finish(w, n, r.(out := out), r2) == Finish(w, n, r, r2)
  {
    hide Kept, Filled;
  }

  // -------- when a case's exception leaves a try --------

  /** The exception by which a case ends its switch leaves a try exactly if the try has no
      catch, or its catch raises it again. */
  lemma CaseLeavesTry(w: Program, n: nat, caller: int, s: State, fuel: nat)
    requires Sound(s.chain) && At(w, n).kind.Try? && fuel > 0
    requires !Exec(w, n, caller, s, fuel).outcome.Stuck?
    ensures var body := Do(w, Body(n, caller, s), fuel - 1); var e := Exec(w, n, caller, s, fuel);
      Sound(Enter(body.state.chain)) &&
      (e.outcome == Raised(CaseDone) <==>
         match Child(w, n, "catch")
         case None => body.outcome == Raised(CaseDone)
         case Some(c) =>
           body.outcome.Raised? &&
           (var f := AddError(w, body.outcome.error, Enter(body.state.chain));
            f.error.None? && Sound(f.chain) &&
            Do(w, Body(c, caller, State(f.chain, body.state.exec)), fuel - 1).outcome == Raised(CaseDone)))
  {
    hide Do, Filled, Kept, AddError, Exec, Sound;
    TryAllOrNothing(w, n, caller, s, fuel);
    var body := Do(w, Body(n, caller, s), fuel - 1);
    BodySound(w, n, caller, s, fuel);
    if body.outcome.Raised? {
      ErrorsArePlain(w, body.outcome.error, Enter(body.state.chain));
    }
  }

  lemma BodySound(w: Program, n: nat, caller: int, s: State, fuel: nat)
    requires Sound(s.chain) && fuel > 0
    ensures Sound(Enter(Do(w, Body(n, caller, s), fuel - 1).state.chain))
  {
    hide Do, Kept;
    KeptSound(s.chain, Do(w, Body(n, caller, s), fuel - 1).state.chain);
    EnterSound(Do(w, Body(n, caller, s), fuel - 1).state.chain);
  }

  // -------- a switch that runs two cases --------

  /** A switch with two cases that always match, the first one inside a try with a catch. */
  function TwiceNode(n: nat): Node {
    if n == 0 then Node(Switch, "switch", "", [], NULL, [1, 4], NULL)
    else if n == 1 then Node(Try, "try", "", [], 0, [2, 3], NULL)
    else if n == 2 then Node(Case, "case", "", [], 1, [5], NULL)
    else if n == 3 then Node(Catch, "catch", "", [], 1, [], NULL)
    else if n == 4 then Node(Case, "case", "", [], 0, [6], NULL)
    else if n == 5 then Node(Expression, "", "first", [], 2, [], NULL)
    else if n == 6 then Node(Expression, "", "second", [], 4, [], NULL)
    else Node(Group, "", "", [], NULL, [], NULL)
  }

  function Twice(): Program {
    World((n: nat) => TwiceNode(n), (t, c) => Value(t), s => [s], (a, b) => a == b, s => Value(s))
  }

  lemma ExpressionRuns(w: Program, n: nat, caller: int, s: State, fuel: nat)
    requires Sound(s.chain) && At(w, n).kind.Expression? && fuel > 0
    ensures Exec(w, n, caller, s, fuel) ==
      match Eval(w, At(w, n).text, s.chain) case Value(v) => Quiet(s, v) case Fault(e) => Fail(s, e)
  {
    hide Kept, Filled, Do;
  }

  lemma OneChild(w: Program, n: nat, c: nat, caller: int, s: State, fuel: nat, out: string)
    requires Sound(s.chain) && At(w, n).children == [c] && At(w, n).text == ""
    requires Exec(w, c, caller, s, fuel) == Quiet(s, out)
    ensures Do(w, Body(n, caller, s), fuel) == Quiet(s, out)
  {
    hide Exec, Kept;
    assert [c][1..] == [] && out + "" == out;
    assert ExecAll(w, [], caller, s, fuel) == Quiet(s, "");
  }

  lemma CaseRuns(w: Program, n: nat, caller: int, s: State, fuel: nat, out: string)
    requires Sound(s.chain) && At(w, n).kind.Case? && At(w, n).params == [] && fuel > 0
    requires Do(w, Body(n, caller, s), fuel - 1) == Quiet(s, out)
    ensures Exec(w, n, caller, s, fuel) == Result(s, out, Raised(CaseDone), [])
  {
    hide Do, Filled, GetValue;
    KeptSelf(s.chain);
    assert Parameter(w, n, "match", s.chain) == Value("");
  }

  lemma TwiceCase(n: nat, caller: int, s: State)
    requires Sound(s.chain) && (n == 2 || n == 4)
    ensures Exec(Twice(), n, caller, s, 2) == Result(s, if n == 2 then "first" else "second", Raised(CaseDone), [])
    ensures Exec(Twice(), n, caller, s, 3) == Result(s, if n == 2 then "first" else "second", Raised(CaseDone), [])
  {
    hide Exec, Do;
    var w, c := Twice(), if n == 2 then 5 else 6;
    var out := if n == 2 then "first" else "second";
    assert At(w, n) == TwiceNode(n) && At(w, c) == TwiceNode(c) && Eval(w, out, s.chain) == Value(out);
    ExpressionRuns(w, c, caller, s, 1);
    OneChild(w, n, c, caller, s, 1, out);
    CaseRuns(w, n, caller, s, 2, out);
    MoreFuel(w, n, caller, s, 2);
  }

  lemma TwiceTry(caller: int, s: State)
    requires Sound(s.chain)
    ensures var e := Exec(Twice(), 1, caller, s, 3); e.outcome == Done && e.out == ""
  {
    hide Exec, Kept;
    var w := Twice();
    assert At(w, 1) == TwiceNode(1) && At(w, 2) == TwiceNode(2) && At(w, 3) == TwiceNode(3);
    assert Child(w, 1, "catch") == Some(3) by {
      assert [2, 3][1..] == [3] && |"case"| != |"catch"|;
      assert ChildAmong(w, [3], "catch") == Some(3);
    }
    TwiceCase(2, caller, s);
    assert ExecAll(w, [2, 3], caller, s, 2) == Exec(w, 2, caller, s, 2);
    TryTakesCase(w, 1, caller, s, 3, 3);
  }

  /** The switch runs the second case behind the try, whose case had matched before. */
  lemma SecondCaseRuns(caller: int, s: State)
    requires Sound(s.chain)
    ensures var e := Exec(Twice(), 0, caller, s, 4); e.outcome == Done && e.out == "second"
  {
    hide Exec, Add, Kept, Filled;
    var w := Twice();
    assert At(w, 0) == TwiceNode(0) && w.same(s.chain[0].kind, s.chain[0].kind);
    assert Parameter(w, 0, "test", Enter(s.chain)) == Value("");
    SwitchBody(w, 0, caller, s, "", 4);
    var inner := State(Add(w, Enter(s.chain), SWITCH, "", "").chain, s.exec);
    TwiceTry(caller, inner);
    var r := Exec(w, 1, caller, inner, 3);
    KeptSound(inner.chain, r.state.chain);
    TwiceCase(4, caller, r.state);
    assert [1, 4][1..] == [4];
    OneRaises(w, 4, caller, r.state, 3);
    assert ExecAll(w, [1, 4], caller, inner, 3).outcome == Raised(CaseDone);
    assert ExecAll(w, [1, 4], caller, inner, 3).out == "" + "second";
  }
}
