/** What holds of whole runs of scripts: their results do not depend on where they would
    be cut off, the call stack is kept, a try is all or nothing, a switch runs one case. */
module Runs {
  import opened Basics
  import opened Variables
  import opened Interpreter

  // -------- the cut-off does not matter --------

  lemma {:induction false} MoreFuel(w: Program, n: nat, caller: int, s: State, fuel: nat)
    requires Sound(s.chain) && !Exec(w, n, caller, s, fuel).outcome.Stuck?
    ensures Exec(w, n, caller, s, fuel + 1) == Exec(w, n, caller, s, fuel)
    decreases fuel, 0
  {
    hide Start, Next, Finish, Kept, Filled, Do;
    var p := Start(w, n, caller, s);
    if !p.Stop? {
      OpenedSound(At(w, n).kind, s.chain, p.state.chain);
      MoreFuelDo(w, p, fuel - 1);
      var r := Do(w, p, fuel - 1);
      OpenedKept(At(w, n).kind, s.chain, p.state.chain, r.state.chain);
      OpenedSound(At(w, n).kind, s.chain, r.state.chain);
      var q := Next(w, n, caller, s, r);
      if !q.Stop? {
        OpenedSound(if At(w, n).kind.Try? then Var else Group, r.state.chain, q.state.chain);
        MoreFuelDo(w, q, fuel - 1);
      }
    }
  }

  lemma {:induction false} MoreFuelDo(w: Program, p: Plan, fuel: nat)
    requires !p.Stop? && Sound(p.state.chain) && !Do(w, p, fuel).outcome.Stuck?
    ensures Do(w, p, fuel + 1) == Do(w, p, fuel)
    decreases fuel, 2
  {
    hide Kept, Sound, Exec, ExecAll;
    if p.Run? {
      MoreFuel(w, p.node, p.caller, p.state, fuel);
    } else {
      MoreFuelAll(w, At(w, p.node).children, p.caller, p.state, fuel);
    }
  }

  lemma {:induction false} MoreFuelAll(w: Program, children: seq<nat>, caller: int, s: State, fuel: nat)
    requires Sound(s.chain) && !ExecAll(w, children, caller, s, fuel).outcome.Stuck?
    ensures ExecAll(w, children, caller, s, fuel + 1) == ExecAll(w, children, caller, s, fuel)
    decreases fuel, 1, |children|
  {
    hide Kept, Sound, Exec;
    if children != [] {
      MoreFuel(w, children[0], caller, s, fuel);
      var r := Exec(w, children[0], caller, s, fuel);
      if r.outcome.Done? {
        KeptSound(s.chain, r.state.chain);
        MoreFuelAll(w, children[1..], caller, r.state, fuel);
      }
    }
  }

  /** A run that ends within some bound is the run: no larger bound changes it. */
  lemma {:induction false} FuelIrrelevant(w: Program, n: nat, caller: int, s: State, fuel: nat, more: nat)
    requires Sound(s.chain) && fuel <= more && !Exec(w, n, caller, s, fuel).outcome.Stuck?
    ensures Exec(w, n, caller, s, more) == Exec(w, n, caller, s, fuel)
    decreases more - fuel
  {
    hide Exec, Sound;
    if fuel < more {
      MoreFuel(w, n, caller, s, fuel);
      FuelIrrelevant(w, n, caller, s, fuel + 1, more);
    }
  }

  // -------- the call stack --------

  /** Each call on the stack knows what was under it when it was made. */
  predicate Faithful(exec: seq<Call>) {
    forall k :: 0 <= k < |exec| ==> exec[k].under == Tags(exec[..k])
  }

  /** As long as no call was lost, the block of a call ran with the stack as it was when
      the call was made. */
  predicate BlocksRight(log: seq<Note>) {
    forall i :: 0 <= i < |log| && log[i].Ran? && Lost !in log[..i] ==> log[i].call.under == log[i].stack
  }

  lemma BlocksRightConcat(a: seq<Note>, b: seq<Note>)
    requires BlocksRight(a) && (Lost !in a ==> BlocksRight(b))
    ensures BlocksRight(a + b)
  {
    var c := a + b;
    forall i | 0 <= i < |c| && c[i].Ran? && Lost !in c[..i] ensures c[i].call.under == c[i].stack {
      if i < |a| {
        assert c[..i] == a[..i];
      } else {
        assert c[..i] == a + b[..i - |a|];
      }
    }
  }

  ghost predicate Disciplined(exec: seq<Call>, deep: nat, r: Result) {
    && |r.state.exec| <= |exec|
    && (Lost !in r.log ==> r.state.exec == exec)
    && (Lost in r.log && |exec| >= deep ==> |r.state.exec| < |exec|)
    && (Faithful(exec) ==> BlocksRight(r.log))
  }

  /** The stack while what a tag contains runs. */
  function Inner(kind: Kind, n: nat, exec: seq<Call>): seq<Call> {
    if kind.Usr? || kind.CallByName? then exec + [Call(n, Tags(exec))]
    else if kind.Execute? then Popped(exec)
    else exec
  }

  /** What an execute tag makes, in `e`, of the run `r` of a block; `ran` is what it notes. */
  predicate BlockEnds(exec: seq<Call>, ran: seq<Note>, r: Result, e: Result)
    requires exec != []
  {
    var call := exec[|exec| - 1];
    && (ran == [] || ran == [Ran(call, Tags(Popped(exec)))])
    && if r.outcome.Done? then e.state.exec == r.state.exec + [call] && e.log == ran + r.log
       else e.state.exec == r.state.exec && e.log == ran + r.log + [Lost]
  }

  lemma StartStack(w: Program, n: nat, caller: int, s: State)
    requires Sound(s.chain)
    ensures var p := Start(w, n, caller, s); var kind := At(w, n).kind;
      && (!p.Stop? ==> p.state.exec == Inner(kind, n, s.exec) && (kind.Execute? ==> s.exec != []))
      && (p.Stop? ==> (p.result.state.exec == s.exec && p.result.log == [])
                      || (s.exec != [] && p.result.state.exec == Popped(s.exec) && p.result.log == [Lost]))
  {
    hide Sound, Filled, Kept, AddParams, AddVars, Add, Enter, Leave, Parameter, Eval, Child, Scoped, Others, GetValue;
  }

  lemma NextStack(w: Program, n: nat, caller: int, s: State, r: Result)
    requires Sound(s.chain) && Sound(r.state.chain) && Opened(At(w, n).kind, s.chain, r.state.chain)
    requires r.outcome.Done? || r.outcome.Raised?
    requires At(w, n).kind.Execute? ==> s.exec != []
    ensures var q := Next(w, n, caller, s, r); var kind := At(w, n).kind;
      if !q.Stop? then q.state.exec == r.state.exec && (kind.Try? || kind.While?)
      else if kind.Usr? || kind.CallByName? then q.result.state.exec == Popped(r.state.exec) && q.result.log == r.log
      else if kind.Execute? then
        exists ran :: BlockEnds(s.exec, ran, r, q.result)
      else q.result.state.exec == r.state.exec && q.result.log == r.log
  {
    hide Sound, Filled, Kept, AddError, SetVars, Add, Enter, Leave;
    if At(w, n).kind.Execute? {
      NextExecuteStack(w, n, s, r);
    }
  }

  lemma NextExecuteStack(w: Program, n: nat, s: State, r: Result)
    requires s.exec != []
    ensures var q := NextExecute(w, n, s, r);
      q.Stop? && exists ran :: BlockEnds(s.exec, ran, r, q.result)
  {
    var call := s.exec[|s.exec| - 1];
    var ran := if Parameter(w, n, "name", s.chain) == Value("") then [Ran(call, Tags(Popped(s.exec)))] else [];
    assert BlockEnds(s.exec, ran, r, NextExecute(w, n, s, r).result);
  }

  lemma FaithfulPush(exec: seq<Call>, n: nat)
    requires Faithful(exec)
    ensures Faithful(exec + [Call(n, Tags(exec))])
  {
    var pushed := exec + [Call(n, Tags(exec))];
    forall k | 0 <= k < |pushed| ensures pushed[k].under == Tags(pushed[..k]) {
      assert pushed[..k] == exec[..k];
      assert exec[..|exec|] == exec;
    }
  }

  lemma FaithfulPop(exec: seq<Call>)
    requires Faithful(exec)
    ensures Faithful(Popped(exec))
    ensures exec != [] ==> exec[|exec| - 1].under == Tags(Popped(exec))
  {
    var popped := Popped(exec);
    forall k | 0 <= k < |popped| ensures popped[k].under == Tags(popped[..k]) {
      assert popped[..k] == exec[..k];
    }
  }

  /** One thing after another. */
  lemma DisciplinedThen(exec: seq<Call>, deep: nat, r: Result, r2: Result, e: Result)
    requires Disciplined(exec, deep, r) && Disciplined(r.state.exec, deep, r2)
    requires e.state.exec == r2.state.exec && e.log == r.log + r2.log
    ensures Disciplined(exec, deep, e)
  {
    if Faithful(exec) {
      BlocksRightConcat(r.log, r2.log);
    }
    hide Faithful, BlocksRight;
    assert Lost in e.log <==> Lost in r.log || Lost in r2.log;
  }

  lemma DisciplinedCall(exec: seq<Call>, n: nat, deep: nat, r: Result, e: Result)
    requires Disciplined(exec + [Call(n, Tags(exec))], deep, r)
    requires e.state.exec == Popped(r.state.exec) && e.log == r.log
    ensures Disciplined(exec, deep + 1, e)
  {
    if Faithful(exec) {
      FaithfulPush(exec, n);
    }
    hide Faithful, BlocksRight;
    assert Popped(exec + [Call(n, Tags(exec))]) == exec;
  }

  lemma DisciplinedBlock(exec: seq<Call>, deep: nat, r: Result, ran: seq<Note>, e: Result)
    requires exec != [] && Disciplined(Popped(exec), deep, r) && BlockEnds(exec, ran, r, e)
    ensures Disciplined(exec, deep + 1, e)
  {
    if Faithful(exec) {
      FaithfulPop(exec);
      BlocksRightConcat(ran, r.log);
      BlocksRightConcat(ran + r.log, [Lost]);
    }
    hide Faithful, BlocksRight;
    assert exec == Popped(exec) + [exec[|exec| - 1]];
  }

  lemma {:induction false} StackKept(w: Program, n: nat, caller: int, s: State, fuel: nat)
    requires Sound(s.chain)
    ensures Disciplined(s.exec, fuel, Exec(w, n, caller, s, fuel))
    decreases fuel, 0
  {
    hide Start, Next, Finish, Kept, Filled, Do, Disciplined;
    var kind := At(w, n).kind;
    if fuel == 0 {
      NothingRan(s.exec, 0, Exec(w, n, caller, s, fuel));
      return;
    }
    var e := Exec(w, n, caller, s, fuel);
    StartStack(w, n, caller, s);
    var p := Start(w, n, caller, s);
    if p.Stop? {
      EndedEarly(s.exec, fuel, e);
      return;
    }
    OpenedSound(kind, s.chain, p.state.chain);
    StackKeptDo(w, p, fuel - 1);
    var r := Do(w, p, fuel - 1);
    if r.outcome.Stuck? {
      NothingRan(s.exec, fuel, e);
      return;
    }
    OpenedKept(kind, s.chain, p.state.chain, r.state.chain);
    OpenedSound(kind, s.chain, r.state.chain);
    NextStack(w, n, caller, s, r);
    var q := Next(w, n, caller, s, r);
    if q.Stop? {
      StackAfter(kind, n, s, fuel - 1, r, e);
      return;
    }
    var kind2 := if kind.Try? then Var else Group;
    OpenedSound(kind2, r.state.chain, q.state.chain);
    StackKeptDo(w, q, fuel - 1);
    var r2 := Do(w, q, fuel - 1);
    OpenedKept(kind2, r.state.chain, q.state.chain, r2.state.chain);
    if r2.outcome.Stuck? {
      NothingRan(s.exec, fuel, e);
    } else {
      FinishStack(w, n, r, r2);
      DisciplinedThen(s.exec, fuel - 1, r, r2, e);
      Deeper(s.exec, fuel - 1, e);
    }
  }

  lemma FinishStack(w: Program, n: nat, r: Result, r2: Result)
    requires |r.state.chain| > 0
    requires if At(w, n).kind.Try? then Filled(Enter(r.state.chain), r2.state.chain)
        else Kept(r.state.chain, r2.state.chain)
    ensures var e := Finish(w, n, r, r2); e.state.exec == r2.state.exec && e.log == r.log + r2.log
  {
    hide Filled, Kept;
  }

  lemma Deeper(exec: seq<Call>, deep: nat, r: Result)
    requires Disciplined(exec, deep, r)
    ensures Disciplined(exec, deep + 1, r)
  {
    hide Faithful, BlocksRight;
  }

  lemma NothingRan(exec: seq<Call>, deep: nat, r: Result)
    requires r.state.exec == exec && r.log == []
    ensures Disciplined(exec, deep, r)
  {
  }

  lemma EndedEarly(exec: seq<Call>, deep: nat, r: Result)
    requires (r.state.exec == exec && r.log == []) || (exec != [] && r.state.exec == Popped(exec) && r.log == [Lost])
    ensures Disciplined(exec, deep, r)
  {
  }

  /** A tag that runs one thing. */
  lemma StackAfter(kind: Kind, n: nat, s: State, deep: nat, r: Result, e: Result)
    requires Disciplined(Inner(kind, n, s.exec), deep, r)
    requires kind.Execute? ==> s.exec != []
    requires if kind.Usr? || kind.CallByName? then e.state.exec == Popped(r.state.exec) && e.log == r.log
      else if kind.Execute? then
        exists ran :: BlockEnds(s.exec, ran, r, e)
      else e.state.exec == r.state.exec && e.log == r.log
    ensures Disciplined(s.exec, deep + 1, e)
  {
    hide Disciplined;
    if kind.Usr? || kind.CallByName? {
      DisciplinedCall(s.exec, n, deep, r, e);
    } else if kind.Execute? {
      var ran :| BlockEnds(s.exec, ran, r, e);
      DisciplinedBlock(s.exec, deep, r, ran, e);
    } else {
      Alike(s.exec, deep, r, e);
      Deeper(s.exec, deep, e);
    }
  }

  lemma Alike(exec: seq<Call>, deep: nat, r: Result, e: Result)
    requires Disciplined(exec, deep, r) && e.state.exec == r.state.exec && e.log == r.log
    ensures Disciplined(exec, deep, e)
  {
    hide Faithful, BlocksRight;
  }

  lemma {:induction false} StackKeptDo(w: Program, p: Plan, fuel: nat)
    requires !p.Stop? && Sound(p.state.chain)
    ensures Disciplined(p.state.exec, fuel, Do(w, p, fuel))
    decreases fuel, 2
  {
    hide Kept, Sound, Exec, ExecAll, Disciplined;
    if p.Run? {
      StackKept(w, p.node, p.caller, p.state, fuel);
    } else {
      StackKeptAll(w, At(w, p.node).children, p.caller, p.state, fuel);
      Alike(p.state.exec, fuel, ExecAll(w, At(w, p.node).children, p.caller, p.state, fuel), Do(w, p, fuel));
    }
  }

  lemma {:induction false} StackKeptAll(w: Program, children: seq<nat>, caller: int, s: State, fuel: nat)
    requires Sound(s.chain)
    ensures Disciplined(s.exec, fuel, ExecAll(w, children, caller, s, fuel))
    decreases fuel, 1, |children|
  {
    hide Kept, Sound, Exec, Disciplined;
    var e := ExecAll(w, children, caller, s, fuel);
    if children == [] {
      NothingRan(s.exec, fuel, e);
    } else {
      StackKept(w, children[0], caller, s, fuel);
      var r := Exec(w, children[0], caller, s, fuel);
      if r.outcome.Stuck? {
        NothingRan(s.exec, fuel, e);
      } else if r.outcome.Done? {
        KeptSound(s.chain, r.state.chain);
        StackKeptAll(w, children[1..], caller, r.state, fuel);
        var later := ExecAll(w, children[1..], caller, r.state, fuel);
        if later.outcome.Stuck? {
          NothingRan(s.exec, fuel, e);
        } else {
          DisciplinedThen(s.exec, fuel, r, later, e);
        }
      }
    }
  }

  /** The call stack is restored, on normal and other ends, exactly by the runs in which no
      exception passed an execute tag; and until one does, every block runs with the
      stack of its call. The stack is taken to be deep enough not to run empty; on a
      shallower one a loss can go unnoticed, but no run that loses nothing changes it. */
  lemma StackRestored(w: Program, n: nat, caller: int, s: State, fuel: nat)
    requires Sound(s.chain)
    ensures var r := Exec(w, n, caller, s, fuel);
      && (Lost !in r.log ==> r.state.exec == s.exec)
      && (|s.exec| >= fuel ==> (r.state.exec == s.exec <==> Lost !in r.log))
      && (Faithful(s.exec) ==> BlocksRight(r.log))
  {
    hide Exec, Sound, Faithful, BlocksRight;
    StackKept(w, n, caller, s, fuel);
  }

  // -------- when only cases end switches --------

  /** Down to some depth, no execute tag and no call of a custom tag. */
  predicate NoCalls(w: Program, n: nat, depth: nat)
    decreases depth
  {
    depth == 0 ||
    (!At(w, n).kind.Execute? && !IsCall(w, n) && forall c :: c in At(w, n).children ==> NoCalls(w, c, depth - 1))
  }

  /** There is no execute tag and no call at the tag or below it. */
  ghost predicate CallFree(w: Program, n: nat) {
    forall depth: nat :: NoCalls(w, n, depth)
  }

  ghost predicate Quietly(w: Program, children: seq<nat>) {
    forall c :: c in children ==> At(w, c).kind.Catch? || CallFree(w, c)
  }

  /** Nothing in the program takes an exception on its way out of an execute tag, but a
      switch that of its own cases: a try that has a catch has no execute tag and no call
      under it but in the catch, cases stand directly in switches and nowhere else, and
      evaluating an expression or a code does not raise what a case raises. */
  ghost predicate Tidy(w: Program) {
    && (forall n: nat :: TidyTag(w, n))
    && (forall text: string, chain: Chain :: Eval(w, text, chain) != Fault(CaseDone))
    && (forall text: string :: Number(w, text) != Fault(CaseDone))
  }

  ghost predicate TidyTag(w: Program, n: nat) {
    var t := At(w, n);
    && (t.kind.Try? ==> Child(w, n, "catch").None? || Quietly(w, t.children))
    && (t.kind.Switch? ==> t.name != "catch")
    && (t.kind.Case? ==> !("@" <= t.name))
    && (t.link >= 0 ==> !At(w, t.link).kind.Case?)
    && (t.kind.Switch? || NoCases(w, t.children))
  }

  predicate NoCases(w: Program, children: seq<nat>) {
    forall c :: c in children ==> !At(w, c).kind.Case?
  }

  /** The stack holds calls of custom tags, as it does when they put themselves there. */
  predicate CallsOnly(w: Program, exec: seq<Call>) {
    forall i :: 0 <= i < |exec| ==> IsCall(w, exec[i].tag)
  }

  predicate IsCall(w: Program, n: nat) {
    At(w, n).kind.Usr? || At(w, n).kind.CallByName?
  }

  /** A call is lost only when an exception other than a case's passes; `ended` says whether
      a case's exception may end the run. */
  predicate Orderly(w: Program, ended: bool, r: Result) {
    && (Lost in r.log ==> r.outcome.Raised? && r.outcome.error != CaseDone)
    && (r.outcome == Raised(CaseDone) ==> ended)
    && CallsOnly(w, r.state.exec)
  }

  lemma {:induction false} ChildNamed(w: Program, children: seq<nat>, name: string)
    ensures var c := ChildAmong(w, children, name); c.Some? ==> At(w, c.value).name == name
  {
    if children != [] {
      ChildNamed(w, children[1..], name);
    }
  }

  lemma {:induction false} ScopedNoCase(w: Program, n: int, name: string)
    requires Tidy(w)
    ensures var d := Scoped(w, n, name); d.Some? ==> !At(w, d.value).kind.Case?
    decreases n
  {
    hide Eval, Number;
    if n >= 0 {
      var c := Child(w, n, "@" + name);
      if c.Some? {
        NamedNoCase(w, n, name);
      } else {
        ScopedNoCase(w, At(w, n).parent, name);
      }
    }
  }

  lemma NamedNoCase(w: Program, n: nat, name: string)
    requires Tidy(w)
    ensures var c := Child(w, n, "@" + name); c.Some? ==> !At(w, c.value).kind.Case?
  {
    hide Eval, Number;
    ChildNamed(w, At(w, n).children, "@" + name);
    var c := Child(w, n, "@" + name);
    if c.Some? {
      assert TidyTag(w, c.value);
    }
  }

  /** Whether a case's exception may end what a plan runs. */
  predicate MayEnd(w: Program, p: Plan)
    requires !p.Stop?
  {
    if p.Run? then At(w, p.node).kind.Case? else At(w, p.node).kind.Switch?
  }

  lemma ParameterTidy(w: Program, n: nat, name: string, chain: Chain)
    requires Tidy(w)
    ensures Parameter(w, n, name, chain) != Fault(CaseDone)
  {
    hide Eval, TidyTag, ParamText;
  }

  lemma {:induction false} AddVarsTidy(w: Program, n: nat, names: seq<string>, chain: Chain)
    requires Sound(chain) && Tidy(w)
    ensures AddVars(w, n, names, chain).error != Some(CaseDone)
    decreases |names|
  {
    hide Tidy, Parameter, AddValue, Filled;
    ParameterTidy(w, n, "type", chain);
    ParameterTidy(w, n, "value", chain);
    if names != [] {
      var kind, value := Parameter(w, n, "type", chain), Parameter(w, n, "value", chain);
      if kind.Value? && value.Value? {
        var added := Add(w, chain, names[0], value.value, if kind.value == "" then "local" else kind.value);
        FilledSound(chain, added.chain);
        AddVarsTidy(w, n, names[1..], added.chain);
      }
    }
  }

  lemma {:induction false} AddParamsTidy(w: Program, params: seq<(string, string)>, chain: Chain)
    requires Sound(chain) && Tidy(w)
    ensures AddParams(w, params, chain).error != Some(CaseDone)
    decreases |params|
  {
    hide AddValue, Filled, TidyTag;
    if params != [] {
      assert Eval(w, params[0].1, chain) != Fault(CaseDone);
      var value := Eval(w, params[0].1, chain);
      if value.Value? {
        var added := Add(w, chain, params[0].0, value.value, "");
        FilledSound(chain, added.chain);
        AddParamsTidy(w, params[1..], added.chain);
      }
    }
  }

  lemma ThrowTidy(w: Program, n: nat, s: State, message: string)
    requires Tidy(w)
    ensures ThrowWith(w, n, s, message).outcome != Raised(CaseDone)
  {
    hide Parameter, Eval, Number, TidyTag;
    ParameterTidy(w, n, "code", s.chain);
  }

  /** What a tag raises before it runs anything is not what a case raises. */
  lemma StartRaises(w: Program, n: nat, caller: int, s: State)
    requires Sound(s.chain) && Tidy(w)
    ensures var p := Start(w, n, caller, s); p.Stop? ==> p.result.outcome != Raised(CaseDone)
  {
    hide Filled, Kept, AddParams, AddVars, AddValue, Enter, Leave;
    hide Parameter, Eval, Number, Child, Scoped, Others, GetValue;
    hide ThrowWith, Tidy;
    EnterSound(s.chain);
    var entered, t := Enter(s.chain), At(w, n);
    assert Eval(w, t.text, s.chain) != Fault(CaseDone) by { EvalTidy(w, t.text, s.chain); }
    AddParamsTidy(w, t.params, entered);
    AddParamsTidy(w, Others(t.params), entered);
    forall name: string, chain: Chain ensures Parameter(w, n, name, chain) != Fault(CaseDone) {
      ParameterTidy(w, n, name, chain);
    }
    forall names: seq<string> ensures AddVars(w, n, names, entered).error != Some(CaseDone) {
      AddVarsTidy(w, n, names, entered);
    }
    forall message: string ensures ThrowWith(w, n, s, message).outcome != Raised(CaseDone) {
      ThrowTidy(w, n, s, message);
    }
  }

  lemma EvalTidy(w: Program, text: string, chain: Chain)
    requires Tidy(w)
    ensures Eval(w, text, chain) != Fault(CaseDone)
  {
    hide Eval;
  }

  /** What a tag runs: what it contains, the block of the last call, or a definition. */
  lemma StartTargets(w: Program, n: nat, caller: int, s: State)
    requires Sound(s.chain) && Tidy(w)
    ensures var p := Start(w, n, caller, s);
      && (p.Body? ==> p.node == n || (At(w, n).kind.Execute? && s.exec != [] && p.node == s.exec[|s.exec| - 1].tag))
      && (p.Run? ==> !At(w, p.node).kind.Case?)
  {
    hide Sound, Filled, Kept, AddParams, AddVars, Add, Enter;
    hide Leave, Parameter, Eval, Number, Child, Scoped, Others, GetValue;
    hide ThrowWith, Tidy;
    var t := At(w, n);
    LinkNoCase(w, n);
    ScopedNoCase(w, t.parent, t.name);
    forall name: string ensures var d := Scoped(w, t.parent, name); d.Some? ==> !At(w, d.value).kind.Case? {
      ScopedNoCase(w, t.parent, name);
    }
    if s.exec != [] {
      forall name: string
        ensures var c := Child(w, s.exec[|s.exec| - 1].tag, "@" + name); c.Some? ==> !At(w, c.value).kind.Case?
      {
        NamedNoCase(w, s.exec[|s.exec| - 1].tag, name);
      }
    }
  }

  lemma LinkNoCase(w: Program, n: nat)
    requires Tidy(w)
    ensures At(w, n).link >= 0 ==> !At(w, At(w, n).link).kind.Case?
  {
    hide Eval, Number;
    assert TidyTag(w, n);
  }

  lemma StartTidy(w: Program, n: nat, caller: int, s: State)
    requires Sound(s.chain) && Tidy(w) && CallsOnly(w, s.exec)
    ensures var p := Start(w, n, caller, s);
      if p.Stop? then Orderly(w, false, p.result)
      else (MayEnd(w, p) ==> At(w, n).kind.Switch?) && CallsOnly(w, p.state.exec)
  {
    hide Sound, Start, Tidy, At;
    StartRaises(w, n, caller, s);
    StartTargets(w, n, caller, s);
    StartStack(w, n, caller, s);
    var p := Start(w, n, caller, s);
    if s.exec != [] {
      PoppedCalls(w, s.exec);
    }
    if IsCall(w, n) {
      PushedCalls(w, s.exec, n);
    }
    if p.Stop? {
      StartLost(w, n, caller, s);
    }
  }

  lemma StartLost(w: Program, n: nat, caller: int, s: State)
    requires Sound(s.chain)
    ensures var p := Start(w, n, caller, s); p.Stop? && Lost in p.result.log ==> p.result.outcome.Raised?
  {
    hide Sound, Filled, Kept, AddParams, AddVars, Add, Enter;
    hide Leave, Parameter, Eval, Number, Child, Scoped, Others, GetValue;
  }

  lemma PoppedCalls(w: Program, exec: seq<Call>)
    requires CallsOnly(w, exec) && exec != []
    ensures CallsOnly(w, Popped(exec)) && IsCall(w, exec[|exec| - 1].tag)
  {
    hide At;
  }

  lemma PushedCalls(w: Program, exec: seq<Call>, n: nat)
    requires CallsOnly(w, exec) && IsCall(w, n)
    ensures forall under :: CallsOnly(w, exec + [Call(n, under)])
  {
    hide At;
  }

  lemma SetTidy(names: seq<string>, value: string, chain: Chain)
    requires |chain| > 0
    ensures SetVars(names, value, chain).error != Some(CaseDone)
    decreases |names|
  {
    hide SetValue, Kept;
    if names != [] {
      var r := SetValue(chain, names[0], value);
      if r.Ok? {
        SetKeeps(chain, names[0], value);
        SetTidy(names[1..], value, r.chain);
      }
    }
  }

  // -------- tags without calls --------

  lemma BelowFree(w: Program, n: nat)
    requires CallFree(w, n)
    ensures !At(w, n).kind.Execute? && !IsCall(w, n) && Quietly(w, At(w, n).children)
  {
    assert NoCalls(w, n, 1);
    forall c | c in At(w, n).children ensures CallFree(w, c) {
      forall depth: nat ensures NoCalls(w, c, depth) {
        assert NoCalls(w, n, depth + 1);
      }
    }
  }

  lemma {:induction false} ChildThere(w: Program, children: seq<nat>, name: string)
    ensures var c := ChildAmong(w, children, name); c.Some? ==> c.value in children
  {
    if children != [] {
      ChildThere(w, children[1..], name);
    }
  }

  lemma FreeStart(w: Program, n: nat, caller: int, s: State)
    requires Sound(s.chain) && !At(w, n).kind.Execute? && !IsCall(w, n)
    ensures var p := Start(w, n, caller, s);
      if p.Stop? then p.result.log == [] else p.Body? && p.node == n && !At(w, n).kind.Catch?
  {
    hide Sound, Filled, Kept, AddVars, Add, Enter, Leave, Parameter, Eval, Child, GetValue, ThrowWith;
    forall message: string ensures ThrowWith(w, n, s, message).log == [] {
      ThrowKeepsState(w, n, s, message);
    }
  }

  lemma FreeNext(w: Program, n: nat, caller: int, s: State, r: Result)
    requires Sound(s.chain) && Sound(r.state.chain) && Opened(At(w, n).kind, s.chain, r.state.chain)
    requires !At(w, n).kind.Execute? && !IsCall(w, n)
    ensures var q := Next(w, n, caller, s, r);
      if q.Stop? then q.result.log == r.log
      else if At(w, n).kind.Try? then q.Body? && Child(w, n, "catch") == Some(q.node)
      else q == Run(n, caller, r.state)
  {
    hide Filled, Kept, AddError, SetVars, Add, Enter, Leave, Parameter, Eval, ThrowWith;
  }

  /** Tags without calls and execute tags note nothing. */
  lemma {:induction false} FreeRun(w: Program, n: nat, caller: int, s: State, fuel: nat)
    requires Sound(s.chain) && (At(w, n).kind.Catch? || CallFree(w, n))
    ensures Exec(w, n, caller, s, fuel).log == []
    decreases fuel, 0
  {
    hide Start, Next, Finish, Kept, Filled, Do, At, CallFree, Quietly;
    var kind := At(w, n).kind;
    if fuel > 0 {
      if CallFree(w, n) {
        BelowFree(w, n);
      }
      FreeStart(w, n, caller, s);
      var p := Start(w, n, caller, s);
      if !p.Stop? {
        OpenedSound(kind, s.chain, p.state.chain);
        FreeDo(w, p, fuel - 1);
        var r := Do(w, p, fuel - 1);
        OpenedKept(kind, s.chain, p.state.chain, r.state.chain);
        OpenedSound(kind, s.chain, r.state.chain);
        if !r.outcome.Stuck? {
          FreeNext(w, n, caller, s, r);
          var q := Next(w, n, caller, s, r);
          if !q.Stop? {
            FreeAgain(w, n, q);
            var kind2 := if kind.Try? then Var else Group;
            OpenedSound(kind2, r.state.chain, q.state.chain);
            FreeDo(w, q, fuel - 1);
            OpenedKept(kind2, r.state.chain, q.state.chain, Do(w, q, fuel - 1).state.chain);
            FinishStack(w, n, r, Do(w, q, fuel - 1));
          }
        }
      }
    }
  }

  /** What a plan runs has no calls. */
  ghost predicate FreePlan(w: Program, p: Plan)
    requires !p.Stop?
  {
    if p.Run? then CallFree(w, p.node) else Quietly(w, At(w, p.node).children)
  }

  lemma FreeAgain(w: Program, n: nat, q: Plan)
    requires !q.Stop? && CallFree(w, n)
    requires if q.Run? then q.node == n else Child(w, n, "catch") == Some(q.node)
    ensures FreePlan(w, q)
  {
    hide CallFree;
    if q.Body? {
      ChildThere(w, At(w, n).children, "catch");
      FreeChild(w, n, q.node);
    }
  }

  lemma FreeChild(w: Program, n: nat, c: nat)
    requires CallFree(w, n) && c in At(w, n).children
    ensures CallFree(w, c) && Quietly(w, At(w, c).children)
  {
    forall depth: nat ensures NoCalls(w, c, depth) {
      assert NoCalls(w, n, depth + 1);
    }
    BelowFree(w, c);
  }

  lemma {:induction false} FreeDo(w: Program, p: Plan, fuel: nat)
    requires !p.Stop? && Sound(p.state.chain) && FreePlan(w, p)
    ensures Do(w, p, fuel).log == []
    decreases fuel, 2
  {
    hide Kept, Sound, Exec, ExecAll, At, CallFree, Quietly;
    if p.Run? {
      FreeRun(w, p.node, p.caller, p.state, fuel);
    } else {
      FreeAll(w, At(w, p.node).children, p.caller, p.state, fuel);
    }
  }

  lemma {:induction false} FreeAll(w: Program, children: seq<nat>, caller: int, s: State, fuel: nat)
    requires Sound(s.chain) && Quietly(w, children)
    ensures ExecAll(w, children, caller, s, fuel).log == []
    decreases fuel, 1, |children|
  {
    hide Kept, Sound, Exec, At, CallFree;
    if children != [] {
      assert children[0] in children && forall c :: c in children[1..] ==> c in children;
      FreeRun(w, children[0], caller, s, fuel);
      var r := Exec(w, children[0], caller, s, fuel);
      if r.outcome.Done? {
        KeptSound(s.chain, r.state.chain);
        FreeAll(w, children[1..], caller, r.state, fuel);
      }
    }
  }

  // -------- tidy programs --------

  lemma ErrorsArePlain(w: Program, e: Exception, chain: Chain)
    requires Sound(chain)
    ensures var f := AddError(w, e, chain); f.error.Some? ==> f.error.value.Plain?
  {
    hide Filled, AddValue;
  }

  /** What follows a run that is orderly is so too. */
  lemma NextTidy(w: Program, n: nat, caller: int, s: State, r: Result)
    requires Sound(s.chain) && Sound(r.state.chain) && Opened(At(w, n).kind, s.chain, r.state.chain)
    requires Tidy(w) && Orderly(w, At(w, n).kind.Switch?, r) && !r.outcome.Stuck?
    requires At(w, n).kind.Execute? ==> s.exec != [] && IsCall(w, s.exec[|s.exec| - 1].tag)
    requires At(w, n).kind.Try? && Child(w, n, "catch").Some? ==> r.log == []
    ensures var q := Next(w, n, caller, s, r);
      if q.Stop? then Orderly(w, At(w, n).kind.Case?, q.result)
      else
        && Lost !in r.log && q.state.exec == r.state.exec
        && if At(w, n).kind.Try? then q.Body? && Child(w, n, "catch") == Some(q.node)
           else At(w, n).kind.While? && q == Run(n, caller, r.state)
  {
    hide Filled, Kept, AddError, SetVars, Add, Enter, Leave, Parameter, Eval, Number, ThrowWith, Tidy, CallsOnly;
    hide Child, Quietly;
    assert TidyTag(w, n) by { TagTidy(w, n); }
    forall name: string, chain: Chain ensures Parameter(w, n, name, chain) != Fault(CaseDone) {
      ParameterTidy(w, n, name, chain);
    }
    forall names: seq<string> ensures SetVars(names, r.out, r.state.chain).error != Some(CaseDone) {
      SetTidy(names, r.out, r.state.chain);
    }
    EnterSound(r.state.chain);
    if r.outcome.Raised? {
      ErrorsArePlain(w, r.outcome.error, Enter(r.state.chain));
    }
    ThrowTidy(w, n, r.state, r.out);
    assert r.state.exec != [] ==> CallsOnly(w, Popped(r.state.exec)) by {
      if r.state.exec != [] {
        PoppedCalls(w, r.state.exec);
      }
    }
    if At(w, n).kind.Execute? {
      PushedCalls(w, r.state.exec, s.exec[|s.exec| - 1].tag);
    }
    assert ThrowWith(w, n, r.state, r.out).state == r.state by { ThrowKeepsState(w, n, r.state, r.out); }
  }

  lemma ThrowKeepsState(w: Program, n: nat, s: State, message: string)
    ensures var r := ThrowWith(w, n, s, message); r.state == s && r.log == []
  {
  }

  lemma TagTidy(w: Program, n: nat)
    requires Tidy(w)
    ensures TidyTag(w, n)
  {
  }

  lemma {:induction false} RunTidy(w: Program, n: nat, caller: int, s: State, fuel: nat)
    requires Sound(s.chain) && Tidy(w) && CallsOnly(w, s.exec)
    ensures Orderly(w, At(w, n).kind.Case?, Exec(w, n, caller, s, fuel))
    decreases fuel, 0
  {
    hide Start, Next, Finish, Kept, Filled, Do, Tidy, At, CallsOnly;
    var kind := At(w, n).kind;
    if fuel > 0 {
      StartTidy(w, n, caller, s);
      StartStack(w, n, caller, s);
      var p := Start(w, n, caller, s);
      if !p.Stop? {
        OpenedSound(kind, s.chain, p.state.chain);
        DoTidy(w, p, fuel - 1);
        var r := Do(w, p, fuel - 1);
        OpenedKept(kind, s.chain, p.state.chain, r.state.chain);
        OpenedSound(kind, s.chain, r.state.chain);
        if !r.outcome.Stuck? {
          if kind.Execute? {
            PoppedCalls(w, s.exec);
          }
          if kind.Try? {
            TryQuiet(w, n, caller, s, p, fuel - 1);
          }
          NextTidy(w, n, caller, s, r);
          var q := Next(w, n, caller, s, r);
          if !q.Stop? {
            if kind.Try? {
              CatchEnds(w, n, q.node);
            }
            var kind2 := if kind.Try? then Var else Group;
            OpenedSound(kind2, r.state.chain, q.state.chain);
            DoTidy(w, q, fuel - 1);
            OpenedKept(kind2, r.state.chain, q.state.chain, Do(w, q, fuel - 1).state.chain);
            FinishStack(w, n, r, Do(w, q, fuel - 1));
            FinishOutcome(w, n, r, Do(w, q, fuel - 1));
          }
        }
      }
    }
  }

  /** The body of a try that has a catch notes nothing. */
  lemma TryQuiet(w: Program, n: nat, caller: int, s: State, p: Plan, fuel: nat)
    requires Sound(s.chain) && Tidy(w) && At(w, n).kind.Try?
    requires p == Start(w, n, caller, s) && !p.Stop? && Sound(p.state.chain)
    ensures Child(w, n, "catch").Some? ==> Do(w, p, fuel).log == []
  {
    hide Kept, Filled, Do, Tidy, Quietly, Child;
    TagTidy(w, n);
    if Child(w, n, "catch").Some? {
      FreeDo(w, p, fuel);
    }
  }

  lemma CatchEnds(w: Program, n: nat, c: nat)
    requires Tidy(w) && Child(w, n, "catch") == Some(c)
    ensures !At(w, c).kind.Switch?
  {
    hide Eval, Number;
    ChildNamed(w, At(w, n).children, "catch");
    assert TidyTag(w, c);
  }

  lemma FinishOutcome(w: Program, n: nat, r: Result, r2: Result)
    requires |r.state.chain| > 0
    requires if At(w, n).kind.Try? then Filled(Enter(r.state.chain), r2.state.chain)
        else Kept(r.state.chain, r2.state.chain)
    ensures Finish(w, n, r, r2).outcome == r2.outcome
  {
    hide Filled, Kept;
  }

  lemma {:induction false} DoTidy(w: Program, p: Plan, fuel: nat)
    requires !p.Stop? && Sound(p.state.chain) && Tidy(w) && CallsOnly(w, p.state.exec)
    ensures Orderly(w, MayEnd(w, p), Do(w, p, fuel))
    decreases fuel, 2
  {
    hide Kept, Sound, Exec, ExecAll, Tidy, At, CallsOnly;
    if p.Run? {
      RunTidy(w, p.node, p.caller, p.state, fuel);
    } else {
      TagTidy(w, p.node);
      AllTidy(w, At(w, p.node).children, p.caller, p.state, fuel);
    }
  }

  lemma {:induction false} AllTidy(w: Program, children: seq<nat>, caller: int, s: State, fuel: nat)
    requires Sound(s.chain) && Tidy(w) && CallsOnly(w, s.exec)
    ensures Orderly(w, !NoCases(w, children), ExecAll(w, children, caller, s, fuel))
    decreases fuel, 1, |children|
  {
    hide Kept, Sound, Exec, Tidy, At, CallsOnly;
    if children != [] {
      RunTidy(w, children[0], caller, s, fuel);
      assert children[0] in children && forall c :: c in children[1..] ==> c in children;
      var r := Exec(w, children[0], caller, s, fuel);
      if r.outcome.Done? {
        KeptSound(s.chain, r.state.chain);
        AllTidy(w, children[1..], caller, r.state, fuel);
      }
    }
  }

  /** In a tidy program a call is lost only if the run ends with an exception that is not a
      case's: every run that ends normally restores the call stack, and each block in it
      ran with the stack of its call. */
  lemma NormalRunRestores(w: Program, n: nat, caller: int, s: State, fuel: nat)
    requires Sound(s.chain) && Tidy(w) && CallsOnly(w, s.exec) && Faithful(s.exec)
    ensures var r := Exec(w, n, caller, s, fuel);
      && (Lost in r.log ==> r.outcome.Raised? && r.outcome.error != CaseDone)
      && (r.outcome.Done? || r.outcome == Raised(CaseDone) ==>
            && r.state.exec == s.exec
            && forall i :: 0 <= i < |r.log| ==> r.log[i].Ran? && r.log[i].call.under == r.log[i].stack)
  {
    hide Exec, Sound, Tidy, Faithful, At, CallsOnly;
    RunTidy(w, n, caller, s, fuel);
    StackKept(w, n, caller, s, fuel);
    var r := Exec(w, n, caller, s, fuel);
    if Lost !in r.log {
      forall i | 0 <= i < |r.log| ensures r.log[i].Ran? && r.log[i].call.under == r.log[i].stack {
        assert r.log[i] in r.log && Lost !in r.log[..i];
      }
    }
  }

  // -------- a run that loses a call --------

  /** A try with a catch around a call of the custom tag "box", whose definition runs the
      block of its call, in which an exception is raised. */
  function BoxNode(n: nat): Node {
    if n == 1 then Node(Definition, "@box", "", [], 0, [3], NULL)
    else if n == 2 then Node(Try, "try", "", [], 0, [4, 5], NULL)
    else if n == 3 then Node(Execute, "execute", "", [], 1, [], NULL)
    else if n == 4 then Node(Usr, "box", "", [], 2, [6], 1)
    else if n == 5 then Node(Catch, "catch", "", [], 2, [], NULL)
    else if n == 6 then Node(Throw, "throw", "", [("message", "m")], 4, [], NULL)
    else Node(Group, "", "", [], NULL, [], NULL)
  }

  function Box(): Program {
    World((n: nat) => BoxNode(n), (t, c) => Value(t), s => [s], (a, b) => a == b, s => Value(s))
  }

  lemma BoxThrows(caller: int, s: State)
    requires Sound(s.chain)
    ensures Exec(Box(), 6, caller, s, 2) == Fail(s, Plain("m"))
  {
    var w := Box();
    assert At(w, 6) == BoxNode(6);
    assert ParamText(At(w, 6).params, "code") == ParamText([], "code") == None;
    assert Start(w, 6, caller, s) == Stop(Fail(s, Plain("m")));
  }

  lemma BoxLoses(exec: seq<Call>, chain: Chain, call: Call)
    requires Sound(chain) && call.tag == 4
    ensures var r := Exec(Box(), 3, 4, State(chain, exec + [call]), 3);
      r.state == State(chain, exec) && r.outcome == Raised(Plain("m"))
  {
    var w := Box();
    var s := State(chain, exec + [call]);
    assert s.exec[..|s.exec| - 1] == exec;
    var rest := State(chain, exec);
    assert Start(w, 3, 4, s) == Body(4, 3, rest);
    BoxThrows(3, rest);
    assert At(w, 4).children == [6];
    var r := Do(w, Body(4, 3, rest), 2);
    assert ExecAll(w, [6], 3, rest, 2) == Fail(rest, Plain("m"));
  }

  lemma BoxDefinition(s: State, r: Result)
    requires Sound(s.chain) && r == ExecAll(Box(), [3], 4, s, 3) && r.outcome.Raised?
    ensures var e := Exec(Box(), 1, 4, s, 4); e.state == r.state && e.outcome == r.outcome
  {
    hide ExecAll, Kept, Filled, Start, Next, Box;
    var w := Box();
    KeptSound(s.chain, r.state.chain);
    BoxDefines(s, r);
    assert Do(w, Body(1, 4, s), 3).outcome == r.outcome;
  }

  lemma BoxDefines(s: State, r: Result)
    requires Sound(s.chain) && Sound(r.state.chain) && Kept(s.chain, r.state.chain)
    ensures var w := Box();
      && At(w, 1).kind.Definition? && At(w, 1).children == [3]
      && Start(w, 1, 4, s) == Body(1, 4, s) && Next(w, 1, 4, s, r) == Stop(r)
  {
    hide Kept, Filled;
  }

  lemma BoxStarts(s: State)
    requires Sound(s.chain)
    ensures Start(Box(), 4, NULL, s) == Run(1, 4, State(Enter(s.chain), s.exec + [Call(4, Tags(s.exec))]))
    ensures Sound(Enter(s.chain)) && Leave(Enter(s.chain)) == s.chain
    ensures At(Box(), 4).kind.Usr? && At(Box(), 1).children == [3]
  {
    hide Kept, Filled;
    EnterSound(s.chain);
  }

  lemma BoxCalled(exec: seq<Call>, chain: Chain)
    requires Sound(chain)
    ensures var r := Exec(Box(), 4, NULL, State(chain, exec), 5);
      r.state == State(chain, Popped(exec)) && r.outcome == Raised(Plain("m"))
  {
    hide Start, ExecAll, Kept, Filled, Enter, Leave, Box;
    var w := Box();
    var s := State(chain, exec);
    var call := Call(4, Tags(exec));
    BoxStarts(s);
    var inner := State(Enter(chain), exec + [call]);
    BoxLoses(exec, Enter(chain), call);
    OneRaises(w, 3, 4, inner, 3);
    BoxDefinition(inner, ExecAll(w, [3], 4, inner, 3));
  }

  lemma OneRaises(w: Program, c: nat, caller: int, s: State, fuel: nat)
    requires Sound(s.chain) && Exec(w, c, caller, s, fuel).outcome.Raised?
    ensures ExecAll(w, [c], caller, s, fuel) == Exec(w, c, caller, s, fuel)
  {
    hide Exec;
  }

  lemma BoxTry()
    ensures var w := Box(); At(w, 2).children == [4, 5] && Child(w, 2, "catch") == Some(5)
    ensures var w := Box(); At(w, 2).kind.Try? && At(w, 2).text == "" && At(w, 5).children == [] && At(w, 5).text == ""
  {
    var w := Box();
    assert At(w, 4).name == "box" && At(w, 5).name == "catch";
    assert |"box"| != |"catch"|;
    assert ChildAmong(w, [5], "catch") == Some(5);
    assert ChildAmong(w, [4, 5], "catch") == ChildAmong(w, [4, 5][1..], "catch");
    assert [4, 5][1..] == [5];
  }

  lemma Added(w: Program, chain: Chain, name: string, value: string)
    requires Sound(chain) && w.same(chain[0].kind, chain[0].kind)
    ensures Add(w, chain, name, value, "").error.None?
  {
  }

  /** A run that ends normally need not restore the call stack: the try ends as it should,
      and the call on the stack before it is gone. */
  lemma CaughtRunLoses(chain: Chain, call: Call)
    requires Sound(chain) && chain[0].kind == "local"
    ensures var r := Exec(Box(), 2, NULL, State(chain, [call]), 6);
      r.outcome.Done? && r.state.exec == []
  {
    hide Add, Kept, Filled, Exec;
    var w := Box();
    var s := State(chain, [call]);
    BoxCalled([call], chain);
    BoxTry();
    var r := Do(w, Body(2, NULL, s), 5);
    assert ExecAll(w, [4, 5], NULL, s, 5) == Exec(w, 4, NULL, s, 5);
    assert r.state == State(chain, []) && r.outcome == Raised(Plain("m"));
    EnterSound(chain);
    assert w.same(chain[0].kind, chain[0].kind);
    Added(w, Enter(chain), "error_message", "m");
    var f := AddError(w, Plain("m"), Enter(chain));
    FilledSound(Enter(chain), f.chain);
    var q := Body(5, NULL, State(f.chain, []));
    assert Do(w, q, 5) == Quiet(State(f.chain, []), "");
    TryCatches(w, 2, NULL, s, 6, 5);
  }

  // -------- try --------

  /** A try adds to the output all that its body wrote or nothing of it: what a body wrote
      before it raised is dropped, and if there is a catch, the output is the catch's. */
  lemma TryAllOrNothing(w: Program, n: nat, caller: int, s: State, fuel: nat)
    requires Sound(s.chain) && At(w, n).kind.Try? && fuel > 0
    requires !Exec(w, n, caller, s, fuel).outcome.Stuck?
    ensures var body := Do(w, Body(n, caller, s), fuel - 1); var e := Exec(w, n, caller, s, fuel);
      match body.outcome
      case Stuck => false
      case Done => e.outcome.Done? && e.out == body.out && e.state == body.state
      case Raised(error) =>
        (match Child(w, n, "catch")
         case None => e.outcome == body.outcome && e.out == "" && e.state == body.state
         case Some(c) =>
           Sound(Enter(body.state.chain)) &&
           (var f := AddError(w, error, Enter(body.state.chain));
            if f.error.Some? then e.outcome == Raised(f.error.value) && e.out == ""
            else Sound(f.chain) &&
                 (var caught := Do(w, Body(c, caller, State(f.chain, body.state.exec)), fuel - 1);
                  e.out == caught.out && e.outcome == caught.outcome && e.state.exec == caught.state.exec)))
  {
    hide Do, Filled, Kept, AddError;
    var body := Do(w, Body(n, caller, s), fuel - 1);
    KeptSelf(s.chain);
    KeptSound(s.chain, body.state.chain);
    EnterSound(body.state.chain);
    if body.outcome.Raised? && Child(w, n, "catch").Some? {
      FilledSound(Enter(body.state.chain), AddError(w, body.outcome.error, Enter(body.state.chain)).chain);
    }
  }

  lemma TryCatches(w: Program, n: nat, caller: int, s: State, fuel: nat, c: nat)
    requires Sound(s.chain) && At(w, n).kind.Try? && fuel > 0 && Child(w, n, "catch") == Some(c)
    requires Do(w, Body(n, caller, s), fuel - 1).outcome.Raised?
    ensures var body := Do(w, Body(n, caller, s), fuel - 1);
      Sound(Enter(body.state.chain)) &&
      (var f := AddError(w, body.outcome.error, Enter(body.state.chain));
       Sound(f.chain) && f.chain[0].layers != [] && (f.error.None? ==>
         var caught := Do(w, Body(c, caller, State(f.chain, body.state.exec)), fuel - 1);
         caught.state.chain != [] && caught.state.chain[0].layers != [] && (!caught.outcome.Stuck? ==>
           Exec(w, n, caller, s, fuel) == Result(Left(caught.state), caught.out, caught.outcome,
                                                 body.log + caught.log))))
  {
    hide Do, Filled, Kept, AddError;
    var body := Do(w, Body(n, caller, s), fuel - 1);
    KeptSelf(s.chain);
    KeptSound(s.chain, body.state.chain);
    EnterSound(body.state.chain);
    var entered := Enter(body.state.chain);
    var f := AddError(w, body.outcome.error, entered);
    FilledSound(entered, f.chain);
    var caught := Do(w, Body(c, caller, State(f.chain, body.state.exec)), fuel - 1);
    OpenedKept(Var, body.state.chain, f.chain, caught.state.chain);
    LeaveKeeps(body.state.chain, caught.state.chain);
  }

  /** A try with a catch takes the exception by which a case in it ends: the switch around
      the try does not see it and goes on behind the try. */
  lemma TryTakesCase(w: Program, n: nat, caller: int, s: State, fuel: nat, c: nat)
    requires Sound(s.chain) && At(w, n).kind.Try? && fuel > 0 && Child(w, n, "catch") == Some(c)
    requires At(w, c).children == [] && At(w, c).text == "" && w.same(s.chain[0].kind, s.chain[0].kind)
    requires Do(w, Body(n, caller, s), fuel - 1).outcome == Raised(CaseDone)
    ensures var e := Exec(w, n, caller, s, fuel); e.outcome == Done && e.out == ""
  {
    hide Do, Filled, Sound, AddValue;
    TryCatches(w, n, caller, s, fuel, c);
    var body := Do(w, Body(n, caller, s), fuel - 1);
    var entered := Enter(body.state.chain);
    assert w.same(entered[0].kind, entered[0].kind);
    Added(w, entered, "error_message", "");
    var f := AddError(w, CaseDone, entered);
    NothingInside(w, c, caller, State(f.chain, body.state.exec), fuel - 1);
  }

  lemma NothingInside(w: Program, c: nat, caller: int, s: State, fuel: nat)
    requires Sound(s.chain) && At(w, c).children == [] && At(w, c).text == ""
    ensures Do(w, Body(c, caller, s), fuel) == Quiet(s, "")
  {
  }

  // -------- switch --------

  predicate Matches(w: Program, n: nat, chain: Chain) {
    var p := Parameter(w, n, "match", chain);
    p.Fault? || p.value == "" || GetValue(chain, SWITCH) == p.value
  }

  /** The first case that matches (or whose test cannot be evaluated). */
  function FirstMatch(w: Program, cases: seq<nat>, chain: Chain): (k: nat)
    ensures k <= |cases|
    ensures k < |cases| ==> Matches(w, cases[k], chain)
    ensures forall i :: 0 <= i < k ==> !Matches(w, cases[i], chain)
  {
    if cases == [] || Matches(w, cases[0], chain) then 0 else 1 + FirstMatch(w, cases[1..], chain)
  }

  /** Of any number of cases only the first one that matches runs. */
  lemma {:induction false} OneCaseRuns(w: Program, cases: seq<nat>, caller: int, s: State, fuel: nat)
    requires Sound(s.chain) && fuel > 0 && forall c :: c in cases ==> At(w, c).kind.Case?
    ensures var k := FirstMatch(w, cases, s.chain);
      ExecAll(w, cases, caller, s, fuel) == if k == |cases| then Quiet(s, "") else Exec(w, cases[k], caller, s, fuel)
  {
    hide Kept, Filled, Do;
    if cases != [] {
      KeptSelf(s.chain);
      if Matches(w, cases[0], s.chain) {
        CaseEnds(w, cases[0], caller, s, fuel);
      } else {
        assert Start(w, cases[0], caller, s) == Stop(Quiet(s, ""));
        OneCaseRuns(w, cases[1..], caller, s, fuel);
        assert forall r: Result :: r.log == [] + r.log && r.out == "" + r.out;
      }
    }
  }

  /** A case that matches never ends normally. */
  lemma CaseEnds(w: Program, n: nat, caller: int, s: State, fuel: nat)
    requires Sound(s.chain) && fuel > 0 && At(w, n).kind.Case? && Matches(w, n, s.chain)
    ensures !Exec(w, n, caller, s, fuel).outcome.Done?
    ensures Exec(w, n, caller, s, fuel).outcome.Stuck? ==> Exec(w, n, caller, s, fuel) == Spent(s)
  {
    hide Kept, Filled, Do;
    KeptSelf(s.chain);
  }

  /** The test's value is what the cases of a switch are compared with. */
  lemma TestSeen(w: Program, chain: Chain, test: string)
    requires Sound(chain) && w.same(chain[0].kind, chain[0].kind)
    ensures Sound(Enter(chain))
    ensures var f := Add(w, Enter(chain), SWITCH, test, "");
      f.error.None? && GetValue(f.chain, SWITCH) == test && f.chain[0].layers != [] && Leave(f.chain) == chain
  {
    hide Upper;
    AddedToLayer(w.same, chain, SWITCH, test, SWITCH);
  }

  /** A switch over cases gives the output of the body of its first matching case, and
      that body alone decides what else happens. */
  lemma SwitchRunsOneCase(w: Program, n: nat, caller: int, s: State, test: string, fuel: nat)
    requires Sound(s.chain) && At(w, n).kind.Switch? && fuel > 1 && At(w, n).text == ""
    requires w.same(s.chain[0].kind, s.chain[0].kind)
    requires Parameter(w, n, "test", Enter(s.chain)) == Value(test)
    requires forall c :: c in At(w, n).children ==> At(w, c).kind.Case?
    requires !Exec(w, n, caller, s, fuel).outcome.Stuck?
    ensures Sound(Enter(s.chain))
    ensures var e := Exec(w, n, caller, s, fuel); var cases := At(w, n).children;
      var inner := State(Add(w, Enter(s.chain), SWITCH, test, "").chain, s.exec);
      var k := FirstMatch(w, cases, inner.chain);
      && GetValue(inner.chain, SWITCH) == test
      && if k == |cases| then e == Quiet(s, "")
         else Sound(inner.chain) &&
              (var chosen := Exec(w, cases[k], caller, inner, fuel - 1);
               chosen.outcome.Raised? && e.out == chosen.out && e.log == chosen.log && e.state.exec == chosen.state.exec
               && e.outcome == if chosen.outcome == Raised(CaseDone) then Done else chosen.outcome)
  {
    hide Kept, Filled, Exec, Add;
    EnterSound(s.chain);
    TestSeen(w, s.chain, test);
    var f := Add(w, Enter(s.chain), SWITCH, test, "");
    FilledSound(Enter(s.chain), f.chain);
    var inner := State(f.chain, s.exec);
    OneCaseRuns(w, At(w, n).children, caller, inner, fuel - 1);
    SwitchBody(w, n, caller, s, test, fuel);
    var k := FirstMatch(w, At(w, n).children, f.chain);
    if k < |At(w, n).children| {
      assert At(w, n).children[k] in At(w, n).children;
      CaseEnds(w, At(w, n).children[k], caller, inner, fuel - 1);
    }
  }

  lemma SwitchBody(w: Program, n: nat, caller: int, s: State, test: string, fuel: nat)
    requires Sound(s.chain) && At(w, n).kind.Switch? && fuel > 0 && At(w, n).text == ""
    requires w.same(s.chain[0].kind, s.chain[0].kind)
    requires Parameter(w, n, "test", Enter(s.chain)) == Value(test)
    ensures Sound(Enter(s.chain))
    ensures var f := Add(w, Enter(s.chain), SWITCH, test, ""); var e := Exec(w, n, caller, s, fuel);
      && f.error.None? && Sound(f.chain)
      && var r := ExecAll(w, At(w, n).children, caller, State(f.chain, s.exec), fuel - 1);
         (if r.outcome.Stuck? then e == Spent(s)
          else r.state.chain != [] && r.state.chain[0].layers != [] && e == SwitchEnd(r.(state := Left(r.state))))
  {
    hide Kept, Filled, ExecAll, Add;
    EnterSound(s.chain);
    TestSeen(w, s.chain, test);
    var f := Add(w, Enter(s.chain), SWITCH, test, "");
    FilledSound(Enter(s.chain), f.chain);
    var inner := State(f.chain, s.exec);
    var r := ExecAll(w, At(w, n).children, caller, inner, fuel - 1);
    assert Start(w, n, caller, s) == Body(n, caller, inner);
    OpenedKept(Switch, s.chain, f.chain, r.state.chain);
    LeaveKeeps(s.chain, r.state.chain);
    assert r.out + "" == r.out;
    assert Do(w, Body(n, caller, inner), fuel - 1) == r;
  }
}
