/** What scripts see of each other, in terms of looking variables up: the parameters of a
    call, the variables of var, set and catch, the rounds of a loop, definitions in scope. */
module Scripts {
  import opened Basics
  import opened Variables
  import opened Interpreter
  import opened Runs

  // -------- one variable --------

  /** In `b` the variable has the value, and all others have theirs from `a`. */
  ghost predicate Binds(a: Chain, b: Chain, name: string, value: string) {
    forall other: string ::
      GetValue(b, other) == if Upper(other) == Upper(name) then value else GetValue(a, other)
  }

  lemma EnterSees(chain: Chain, name: string)
    requires |chain| > 0
    ensures GetValue(Enter(chain), name) == GetValue(chain, name)
  {
    hide Upper;
    var e := Enter(chain);
    assert e[0].layers[..|chain[0].layers|] == chain[0].layers && e[1..] == chain[1..];
  }

  lemma TopBinds(own: Frame, parents: Chain, name: string, value: string)
    requires own.layers != []
    ensures Binds([own] + parents, [own.(layers := OnTop(own.layers, Upper(name), value))] + parents, name, value)
  {
    hide Upper;
    var layers := OnTop(own.layers, Upper(name), value);
    var n := |layers| - 1;
    assert layers[..n] == own.layers[..n];
    var a, b := [own] + parents, [own.(layers := layers)] + parents;
    assert a[1..] == parents && b[1..] == parents;
  }

  /** Adding a variable puts it into the first context of its type, in front of those
      further out. */
  lemma {:induction false} AddedThere(w: Program, chain: Chain, name: string, value: string, kind: string)
    returns (i: nat)
    requires Sound(chain) && kind != ""
    ensures match AddValue(w.same, chain, name, value, kind)
      case Err(_) => true
      case Ok(c) =>
        && i < |chain| && |c| == |chain| && w.same(kind, chain[i].kind)
        && (forall j :: 0 <= j < i ==> !w.same(kind, chain[j].kind))
        && c[..i] == chain[..i] && Binds(chain[i..], c[i..], name, value)
  {
    hide Upper, Binds, OnTop;
    i := 0;
    var own, parents := chain[0], chain[1..];
    assert chain == [own] + parents;
    if w.same(kind, own.kind) {
      TopBinds(own, parents, name, value);
    } else if parents != [] {
      SoundParents(chain);
      var k := AddedThere(w, parents, name, value, kind);
      i := k + 1;
      var r := AddValue(w.same, parents, name, value, kind);
      if r.Ok? {
        var c := [own] + r.chain;
        assert c[i..] == r.chain[k..] && chain[i..] == parents[k..];
        assert c[..i] == [own] + r.chain[..k] && chain[..i] == [own] + parents[..k];
        forall j | 0 <= j < i ensures !w.same(kind, chain[j].kind) {
          assert j > 0 ==> chain[j] == parents[j - 1];
        }
      }
    }
  }

  lemma AddedHere(w: Program, chain: Chain, name: string, value: string)
    requires Sound(chain) && w.same(chain[0].kind, chain[0].kind)
    ensures var f := Add(w, chain, name, value, ""); f.error.None? && Binds(chain, f.chain, name, value)
    ensures var f := Add(w, chain, name, value, ""); |f.chain| > 0 && f.chain[0].kind == chain[0].kind
  {
    hide Upper, Binds, OnTop, Filled;
    TopBinds(chain[0], chain[1..], name, value);
    assert chain == [chain[0]] + chain[1..];
  }

  // -------- the parameters of a call --------

  /** The parameter that a call by name takes for itself. */
  predicate Skipped(byName: bool, param: (string, string)) { byName && param.0 == "name" }

  /** From the first to the last of the chains the parameters are evaluated and bound, one
      after the other. */
  ghost predicate Declares(w: Program, params: seq<(string, string)>, byName: bool, chains: seq<Chain>,
                           values: seq<string>)
  {
    && |values| == |params| && |chains| == |params| + 1
    && forall k :: 0 <= k < |params| ==>
         if Skipped(byName, params[k]) then chains[k + 1] == chains[k]
         else Eval(w, params[k].1, chains[k]) == Value(values[k])
              && Binds(chains[k], chains[k + 1], params[k].0, values[k])
  }

  lemma {:induction false} AddParamsDeclares(w: Program, params: seq<(string, string)>, chain: Chain)
    returns (chains: seq<Chain>, values: seq<string>)
    requires Sound(chain) && w.same(chain[0].kind, chain[0].kind)
    ensures var f := AddParams(w, params, chain);
      f.error.None? ==> Declares(w, params, false, chains, values)
                        && chains[0] == chain && chains[|params|] == f.chain
  {
    hide Add, Eval, Binds, Filled, Sound;
    chains, values := [chain], [];
    if params != [] {
      var v := Eval(w, params[0].1, chain);
      if v.Value? {
        AddedHere(w, chain, params[0].0, v.value);
        var added := Add(w, chain, params[0].0, v.value, "");
        FilledSound(chain, added.chain);
        var cs, vs := AddParamsDeclares(w, params[1..], added.chain);
        chains, values := [chain] + cs, [v.value] + vs;
        if AddParams(w, params, chain).error.None? {
          DeclaresOneMore(w, params, false, chain, cs, v.value, vs);
        }
      }
    }
  }

  lemma DeclaresOneMore(w: Program, params: seq<(string, string)>, byName: bool, chain: Chain, cs: seq<Chain>,
                        v: string, vs: seq<string>)
    requires params != [] && Declares(w, params[1..], byName, cs, vs)
    requires if Skipped(byName, params[0]) then cs[0] == chain
             else Eval(w, params[0].1, chain) == Value(v) && Binds(chain, cs[0], params[0].0, v)
    ensures Declares(w, params, byName, [chain] + cs, [v] + vs)
  {
    hide Eval, Binds;
    var chains, values := [chain] + cs, [v] + vs;
    forall k | 0 <= k < |params|
      ensures if Skipped(byName, params[k]) then chains[k + 1] == chains[k]
              else Eval(w, params[k].1, chains[k]) == Value(values[k])
                   && Binds(chains[k], chains[k + 1], params[k].0, values[k])
    {
      if k > 0 {
        assert params[k] == params[1..][k - 1] && chains[k] == cs[k - 1] && chains[k + 1] == cs[k];
        assert values[k] == vs[k - 1];
      }
    }
  }

  /** Leaving the skipped parameters out is passing over them. */
  lemma {:induction false} OthersDeclare(w: Program, params: seq<(string, string)>, chains: seq<Chain>,
                                         values: seq<string>) returns (cs: seq<Chain>, vs: seq<string>)
    requires Declares(w, Others(params), false, chains, values)
    ensures Declares(w, params, true, cs, vs) && cs[0] == chains[0] && cs[|params|] == chains[|Others(params)|]
  {
    hide Eval, Binds;
    if params == [] {
      return chains, values;
    }
    var others := Others(params);
    var later := Others(params[1..]);
    if params[0].0 == "name" {
      assert others == later;
      cs, vs := OthersDeclare(w, params[1..], chains, values);
      DeclaresOneMore(w, params, true, chains[0], cs, "", vs);
      cs, vs := [chains[0]] + cs, [""] + vs;
    } else {
      assert others == [params[0]] + later && others[1..] == later && others[0] == params[0];
      assert !Skipped(false, others[0]);
      DeclaresLater(w, others, false, chains, values);
      cs, vs := OthersDeclare(w, params[1..], chains[1..], values[1..]);
      DeclaresOneMore(w, params, true, chains[0], cs, values[0], vs);
      cs, vs := [chains[0]] + cs, [values[0]] + vs;
    }
  }

  lemma DeclaresLater(w: Program, params: seq<(string, string)>, byName: bool, chains: seq<Chain>, values: seq<string>)
    requires params != [] && Declares(w, params, byName, chains, values)
    ensures Declares(w, params[1..], byName, chains[1..], values[1..])
  {
    hide Eval, Binds;
    forall k | 0 <= k < |params| - 1
      ensures if Skipped(byName, params[1..][k]) then chains[1..][k + 1] == chains[1..][k]
              else Eval(w, params[1..][k].1, chains[1..][k]) == Value(values[1..][k])
                   && Binds(chains[1..][k], chains[1..][k + 1], params[1..][k].0, values[1..][k])
    {
      assert params[1..][k] == params[k + 1] && chains[1..][k] == chains[k + 1] && chains[1..][k + 1] == chains[k + 2];
    }
  }

  /** No parameter from the `k`-th on binds the name. */
  predicate Unbound(params: seq<(string, string)>, byName: bool, k: nat, name: string) {
    forall j :: k <= j < |params| && !Skipped(byName, params[j]) ==> Upper(params[j].0) != Upper(name)
  }

  /** No later parameter has the name of the `k`-th. */
  predicate LastBinding(params: seq<(string, string)>, byName: bool, k: nat)
    requires k < |params|
  {
    !Skipped(byName, params[k]) && Unbound(params, byName, k + 1, params[k].0)
  }

  /** Names that are not bound later keep their value. */
  lemma {:induction false} StaysBound(w: Program, params: seq<(string, string)>, byName: bool, chains: seq<Chain>,
                                      values: seq<string>, k: nat, name: string)
    requires Declares(w, params, byName, chains, values) && k <= |params| && Unbound(params, byName, k, name)
    ensures GetValue(chains[|params|], name) == GetValue(chains[k], name)
    decreases |params| - k
  {
    hide Eval, GetValue;
    if k < |params| {
      StaysBound(w, params, byName, chains, values, k + 1, name);
      assert !Skipped(byName, params[k]) ==> Binds(chains[k], chains[k + 1], params[k].0, values[k]);
    }
  }

  /** The definition that a call runs sees each parameter with the value it was given,
      unless a later one has the same name, and every other variable as the caller does.
      A parameter's value is what its text evaluates to behind the parameters before it. */
  lemma CallSees(w: Program, n: nat, caller: int, s: State) returns (chains: seq<Chain>, values: seq<string>)
    requires Sound(s.chain) && w.same(s.chain[0].kind, s.chain[0].kind)
    requires (At(w, n).kind.Usr? || At(w, n).kind.CallByName?) && Start(w, n, caller, s).Run?
    ensures var c := Start(w, n, caller, s).state.chain;
      var params, byName := At(w, n).params, At(w, n).kind.CallByName?;
      && Declares(w, params, byName, chains, values) && chains[0] == Enter(s.chain) && chains[|params|] == c
      && (forall k :: 0 <= k < |params| && LastBinding(params, byName, k) ==> GetValue(c, params[k].0) == values[k])
      && (forall other :: Unbound(params, byName, 0, other) ==> GetValue(c, other) == GetValue(s.chain, other))
    ensures var t, d := At(w, n), Start(w, n, caller, s).node;
      if t.kind.Usr? then if t.link >= 0 then d == t.link else Scoped(w, t.parent, t.name) == Some(d)
      else exists name :: Parameter(w, n, "name", s.chain) == Value(name) && Scoped(w, t.parent, name) == Some(d)
    ensures var p := Start(w, n, caller, s);
      p.caller == n && |p.state.exec| == |s.exec| + 1 && s.exec <= p.state.exec && p.state.exec[|s.exec|].tag == n
  {
    hide Eval, GetValue, Filled, AddParams, Parameter, Scoped, Unbound, Declares, Others, Binds;
    var params, byName, entered := At(w, n).params, At(w, n).kind.CallByName?, Enter(s.chain);
    var c := Start(w, n, caller, s).state.chain;
    EnterSound(s.chain);
    if byName {
      chains, values := AddParamsDeclares(w, Others(params), entered);
      chains, values := OthersDeclare(w, params, chains, values);
    } else {
      chains, values := AddParamsDeclares(w, params, entered);
    }
    ParamsSeen(w, params, byName, chains, values);
    forall other ensures GetValue(entered, other) == GetValue(s.chain, other) {
      EnterSees(s.chain, other);
    }
  }

  lemma ParamsSeen(w: Program, params: seq<(string, string)>, byName: bool, chains: seq<Chain>, values: seq<string>)
    requires Declares(w, params, byName, chains, values)
    ensures var c := chains[|params|];
      && (forall k :: 0 <= k < |params| && LastBinding(params, byName, k) ==> GetValue(c, params[k].0) == values[k])
      && (forall other :: Unbound(params, byName, 0, other) ==> GetValue(c, other) == GetValue(chains[0], other))
  {
    hide Eval, GetValue, Unbound;
    var c := chains[|params|];
    forall k | 0 <= k < |params| && LastBinding(params, byName, k)
      ensures GetValue(c, params[k].0) == values[k]
    {
      StaysBound(w, params, byName, chains, values, k + 1, params[k].0);
      assert Binds(chains[k], chains[k + 1], params[k].0, values[k]);
    }
    forall other | Unbound(params, byName, 0, other) ensures GetValue(c, other) == GetValue(chains[0], other) {
      StaysBound(w, params, byName, chains, values, 0, other);
    }
  }

  // -------- the variables of var --------

  /** The names are declared one after the other, each in the first context of its type with
      the value that the parameter "value" has behind the names before it. */
  ghost predicate DeclaresVars(w: Program, n: nat, names: seq<string>, chains: seq<Chain>, values: seq<string>,
                               frames: seq<nat>)
  {
    && |values| == |frames| == |names| && |chains| == |names| + 1
    && forall k :: 0 <= k < |names| ==> Declared(w, n, names[k], chains[k], chains[k + 1], values[k], frames[k])
  }

  ghost predicate Declared(w: Program, n: nat, name: string, a: Chain, b: Chain, value: string, i: nat) {
    && Parameter(w, n, "value", a) == Value(value)
    && i < |a| && |b| == |a| && b[..i] == a[..i] && Binds(a[i..], b[i..], name, value)
    && exists kind ::
         && Parameter(w, n, "type", a) == Value(kind) && w.same(if kind == "" then "local" else kind, a[i].kind)
         && forall j :: 0 <= j < i ==> !w.same(if kind == "" then "local" else kind, a[j].kind)
  }

  lemma {:induction false} AddVarsDeclares(w: Program, n: nat, names: seq<string>, chain: Chain)
    returns (chains: seq<Chain>, values: seq<string>, frames: seq<nat>)
    requires Sound(chain)
    ensures var f := AddVars(w, n, names, chain);
      f.error.None? ==> DeclaresVars(w, n, names, chains, values, frames)
                        && chains[0] == chain && chains[|names|] == f.chain
    decreases |names|
  {
    hide Parameter, Binds, Filled, Sound, AddValue;
    chains, values, frames := [chain], [], [];
    if names != [] {
      var kind, v := Parameter(w, n, "type", chain), Parameter(w, n, "value", chain);
      if kind.Value? && v.Value? {
        var wanted := if kind.value == "" then "local" else kind.value;
        var i := AddedThere(w, chain, names[0], v.value, wanted);
        var added := Add(w, chain, names[0], v.value, wanted);
        FilledSound(chain, added.chain);
        var cs, vs, fs := AddVarsDeclares(w, n, names[1..], added.chain);
        chains, values, frames := [chain] + cs, [v.value] + vs, [i] + fs;
        if AddVars(w, n, names, chain).error.None? {
          assert Declared(w, n, names[0], chain, cs[0], v.value, i);
          VarsOneMore(w, n, names, chain, cs, v.value, vs, i, fs);
        }
      }
    }
  }

  lemma VarsOneMore(w: Program, n: nat, names: seq<string>, chain: Chain, cs: seq<Chain>, v: string, vs: seq<string>,
                    i: nat, fs: seq<nat>)
    requires names != [] && DeclaresVars(w, n, names[1..], cs, vs, fs)
    requires Declared(w, n, names[0], chain, cs[0], v, i)
    ensures DeclaresVars(w, n, names, [chain] + cs, [v] + vs, [i] + fs)
  {
    hide Declared;
    var chains, values, frames := [chain] + cs, [v] + vs, [i] + fs;
    forall k | 0 <= k < |names|
      ensures Declared(w, n, names[k], chains[k], chains[k + 1], values[k], frames[k])
    {
      if k > 0 {
        assert names[k] == names[1..][k - 1] && chains[k] == cs[k - 1] && chains[k + 1] == cs[k];
        assert values[k] == vs[k - 1] && frames[k] == fs[k - 1];
      }
    }
  }

  /** What the body of var sees: its names declared in a new layer, or in the contexts of
      their types. Where all of them are the context's own, each name has its value unless
      it is declared again, and every other variable is as it was. */
  lemma VarSees(w: Program, n: nat, caller: int, s: State)
    returns (names: seq<string>, chains: seq<Chain>, values: seq<string>, frames: seq<nat>)
    requires Sound(s.chain) && At(w, n).kind.Var? && Start(w, n, caller, s).Body?
    ensures exists list ::
      Parameter(w, n, "name", Enter(s.chain)) == Value(list) && names == Names(w, list)
    ensures var c := Start(w, n, caller, s).state.chain;
      && DeclaresVars(w, n, names, chains, values, frames)
      && chains[0] == Enter(s.chain) && chains[|names|] == c
      && ((forall k :: 0 <= k < |names| ==> frames[k] == 0) ==>
            && (forall k :: 0 <= k < |names| && Undeclared(names, k + 1, names[k]) ==>
                  GetValue(c, names[k]) == values[k])
            && (forall other :: Undeclared(names, 0, other) ==> GetValue(c, other) == GetValue(s.chain, other)))
  {
    hide GetValue, Filled, AddVars, Parameter, Undeclared, Declared;
    var entered := Enter(s.chain);
    EnterSound(s.chain);
    var list := Parameter(w, n, "name", entered);
    names := Names(w, list.value);
    chains, values, frames := AddVarsDeclares(w, n, names, entered);
    if |frames| == |names| && forall k :: 0 <= k < |names| ==> frames[k] == 0 {
      VarsSeen(w, n, names, chains, values, frames);
    }
    forall other ensures GetValue(entered, other) == GetValue(s.chain, other) {
      EnterSees(s.chain, other);
    }
  }

  predicate Undeclared(names: seq<string>, k: nat, name: string) {
    forall j :: k <= j < |names| ==> Upper(names[j]) != Upper(name)
  }

  lemma DeclaredHere(w: Program, n: nat, name: string, a: Chain, b: Chain, value: string)
    requires Declared(w, n, name, a, b, value, 0)
    ensures Binds(a, b, name, value)
  {
    assert a[0..] == a && b[0..] == b;
  }

  lemma {:induction false} StaysDeclared(w: Program, n: nat, names: seq<string>, chains: seq<Chain>,
                                         values: seq<string>, frames: seq<nat>, k: nat, name: string)
    requires DeclaresVars(w, n, names, chains, values, frames) && forall k :: 0 <= k < |names| ==> frames[k] == 0
    requires k <= |names| && Undeclared(names, k, name)
    ensures GetValue(chains[|names|], name) == GetValue(chains[k], name)
    decreases |names| - k
  {
    hide Declared, GetValue;
    if k < |names| {
      StaysDeclared(w, n, names, chains, values, frames, k + 1, name);
      DeclaredHere(w, n, names[k], chains[k], chains[k + 1], values[k]);
    }
  }

  lemma VarsSeen(w: Program, n: nat, names: seq<string>, chains: seq<Chain>, values: seq<string>, frames: seq<nat>)
    requires DeclaresVars(w, n, names, chains, values, frames) && forall k :: 0 <= k < |names| ==> frames[k] == 0
    ensures var c := chains[|names|];
      && (forall k :: 0 <= k < |names| && Undeclared(names, k + 1, names[k]) ==> GetValue(c, names[k]) == values[k])
      && (forall other :: Undeclared(names, 0, other) ==> GetValue(c, other) == GetValue(chains[0], other))
  {
    hide Declared, GetValue, Undeclared;
    var c := chains[|names|];
    forall k | 0 <= k < |names| && Undeclared(names, k + 1, names[k]) ensures GetValue(c, names[k]) == values[k] {
      StaysDeclared(w, n, names, chains, values, frames, k + 1, names[k]);
      DeclaredHere(w, n, names[k], chains[k], chains[k + 1], values[k]);
    }
    forall other | Undeclared(names, 0, other) ensures GetValue(c, other) == GetValue(chains[0], other) {
      StaysDeclared(w, n, names, chains, values, frames, 0, other);
    }
  }

  // -------- set --------

  lemma {:induction false} SetVarsHolds(names: seq<string>, value: string, chain: Chain, name: string)
    requires |chain| > 0
    ensures var f := SetVars(names, value, chain);
      f.error.None? ==>
        GetValue(f.chain, name) == if Undeclared(names, 0, name) then GetValue(chain, name) else value
    decreases |names|
  {
    hide GetValue, Upper, SetValue, Kept;
    if names != [] {
      var r := SetValue(chain, names[0], value);
      if r.Ok? {
        SetThenGet(chain, names[0], value, name);
        SetVarsHolds(names[1..], value, r.chain, name);
        if Undeclared(names, 0, name) {
          assert Upper(names[0]) != Upper(name);
          forall j | 0 <= j < |names| - 1 ensures Upper(names[1..][j]) != Upper(name) {
            assert names[1..][j] == names[j + 1];
          }
        } else {
          var j :| 0 <= j < |names| && Upper(names[j]) == Upper(name);
          assert j > 0 ==> names[1..][j - 1] == names[j];
        }
      }
    }
  }

  /** After set each of its names has the body's output as its value, every other variable its
      own, and nothing is written. */
  lemma SetHolds(w: Program, n: nat, caller: int, s: State, r: Result)
    requires Sound(s.chain) && Sound(r.state.chain) && Kept(s.chain, r.state.chain) && At(w, n).kind.Set?
    requires r.outcome.Done? && Next(w, n, caller, s, r).result.outcome.Done?
    ensures var e := Next(w, n, caller, s, r).result;
      && e.out == ""
      && exists list :: Parameter(w, n, "name", r.state.chain) == Value(list)
           && forall name :: GetValue(e.state.chain, name) ==
                if Undeclared(Names(w, list), 0, name) then GetValue(r.state.chain, name) else r.out
  {
    hide GetValue, Kept, SetVars, Parameter, Undeclared;
    var list := Parameter(w, n, "name", r.state.chain).value;
    var e := Next(w, n, caller, s, r).result;
    forall name ensures GetValue(e.state.chain, name) ==
      if Undeclared(Names(w, list), 0, name) then GetValue(r.state.chain, name) else r.out
    {
      SetVarsHolds(Names(w, list), r.out, r.state.chain, name);
    }
  }

  // -------- throw and catch --------

  /** What a throw raises: its parameter "message", or what its body writes if that is empty,
      and the number of its parameter "code" if it has one. */
  lemma ThrowRaises(w: Program, n: nat, caller: int, s: State, fuel: nat)
    requires Sound(s.chain) && At(w, n).kind.Throw? && fuel > 0
    requires Parameter(w, n, "message", s.chain).Value?
    requires !Exec(w, n, caller, s, fuel).outcome.Stuck?
    ensures var m := Parameter(w, n, "message", s.chain).value; var e := Exec(w, n, caller, s, fuel);
      var body := Do(w, Body(n, caller, s), fuel - 1);
      e.out == "" && e.outcome.Raised? &&
      (m == "" && body.outcome.Raised? ==> e.outcome == body.outcome) &&
      (m != "" || body.outcome.Done? ==>
         var at := if m != "" then s else body.state;
         match Parameter(w, n, "code", at.chain)
         case Fault(f) => e.outcome == Raised(f)
         case Value(code) =>
           var message := if m != "" then m else body.out;
           if code == "" then e.outcome == Raised(Plain(message))
           else
             match Number(w, code)
             case Fault(f) => e.outcome == Raised(f)
             case Value(number) => e.outcome == Raised(App(message, number)))
  {
    hide Do, Kept, Parameter;
    KeptSelf(s.chain);
    KeptSound(s.chain, Do(w, Body(n, caller, s), fuel - 1).state.chain);
  }

  /** What the catch of a try sees of the exception it takes: the message, and the code if the
      exception has one; every other variable is as the body left it. */
  lemma CatchSees(w: Program, n: nat, caller: int, s: State, r: Result)
    requires Sound(s.chain) && Sound(r.state.chain) && Kept(s.chain, r.state.chain) && At(w, n).kind.Try?
    requires r.outcome.Raised? && !Next(w, n, caller, s, r).Stop?
    requires w.same(r.state.chain[0].kind, r.state.chain[0].kind)
    ensures var q := Next(w, n, caller, s, r); var e := r.outcome.error;
      && q.Body? && Child(w, n, "catch") == Some(q.node)
      && GetValue(q.state.chain, "error_message") == (if e.CaseDone? then "" else e.message)
      && (e.App? ==> GetValue(q.state.chain, "error_code") == e.code)
      && forall other :: Upper(other) != Upper("error_message") && (e.App? ==> Upper(other) != Upper("error_code")) ==>
           GetValue(q.state.chain, other) == GetValue(r.state.chain, other)
  {
    hide GetValue, Upper, Kept, Filled, Child, Add;
    var e, entered := r.outcome.error, Enter(r.state.chain);
    EnterSound(r.state.chain);
    forall other ensures GetValue(entered, other) == GetValue(r.state.chain, other) {
      EnterSees(r.state.chain, other);
    }
    if e.App? {
      AddedHere(w, entered, "error_code", e.code);
      var coded := Add(w, entered, "error_code", e.code, "");
      FilledSound(entered, coded.chain);
      AddedHere(w, coded.chain, "error_message", e.message);
      NamesDiffer();
    } else {
      AddedHere(w, entered, "error_message", Message(e));
    }
  }

  lemma NamesDiffer()
    ensures Upper("error_message") != Upper("error_code")
  {
    assert |Upper("error_message")| != |Upper("error_code")|;
  }

  // -------- what a tag contains --------

  /** An expression writes its value and changes nothing. */
  lemma ExpressionWrites(w: Program, n: nat, caller: int, s: State, fuel: nat, value: string)
    requires Sound(s.chain) && At(w, n).kind.Expression? && fuel > 0 && Eval(w, At(w, n).text, s.chain) == Value(value)
    ensures Exec(w, n, caller, s, fuel) == Quiet(s, value)
  {
    hide Kept;
    KeptSelf(s.chain);
  }

  /** One child after the other, each from where the one before it ended. */
  ghost predicate InOrder(w: Program, children: seq<nat>, caller: int, states: seq<State>, outs: seq<string>,
                          fuel: nat)
  {
    && |states| == |children| + 1 && |outs| == |children|
    && forall i :: 0 <= i < |children| ==> ChildRuns(w, children[i], caller, states[i], states[i + 1], outs[i], fuel)
  }

  predicate ChildRuns(w: Program, c: nat, caller: int, a: State, b: State, out: string, fuel: nat) {
    && Sound(a.chain)
    && var r := Exec(w, c, caller, a, fuel); r.outcome.Done? && r.state == b && r.out == out
  }

  lemma {:induction false} ChildrenInOrder(w: Program, children: seq<nat>, caller: int, s: State, fuel: nat)
    returns (states: seq<State>, outs: seq<string>)
    requires Sound(s.chain) && ExecAll(w, children, caller, s, fuel).outcome.Done?
    ensures var e := ExecAll(w, children, caller, s, fuel);
      && InOrder(w, children, caller, states, outs, fuel)
      && states[0] == s && states[|children|] == e.state && e.out == Concat(outs)
    decreases |children|
  {
    hide Kept, Sound, Exec;
    states, outs := [s], [];
    if children != [] {
      var r := Exec(w, children[0], caller, s, fuel);
      KeptSound(s.chain, r.state.chain);
      var later, laterOuts := ChildrenInOrder(w, children[1..], caller, r.state, fuel);
      states, outs := [s] + later, [r.out] + laterOuts;
      assert outs[1..] == laterOuts;
      assert ChildRuns(w, children[0], caller, s, r.state, r.out, fuel);
      forall i | 0 <= i < |children|
        ensures ChildRuns(w, children[i], caller, states[i], states[i + 1], outs[i], fuel)
      {
        if i > 0 {
          assert ChildRuns(w, children[1..][i - 1], caller, later[i - 1], later[i], laterOuts[i - 1], fuel);
        }
      }
    }
  }

  /** What a tag contains runs in order and writes what its children write, and its text behind. */
  lemma BodyRuns(w: Program, n: nat, caller: int, s: State, fuel: nat) returns (states: seq<State>, outs: seq<string>)
    requires Sound(s.chain) && Do(w, Body(n, caller, s), fuel).outcome.Done?
    ensures var e, children := Do(w, Body(n, caller, s), fuel), At(w, n).children;
      && InOrder(w, children, caller, states, outs, fuel)
      && states[0] == s && states[|children|] == e.state && e.out == Concat(outs) + At(w, n).text
  {
    hide Kept, Sound, ExecAll, InOrder;
    states, outs := ChildrenInOrder(w, At(w, n).children, caller, s, fuel);
  }

  /** An execute tag writes what the block of the last call writes, or the part of the block
      that has its name, running without that call on the stack. */
  lemma BlockWrites(w: Program, n: nat, caller: int, s: State, fuel: nat, name: string)
    requires Sound(s.chain) && At(w, n).kind.Execute? && fuel > 0 && Parameter(w, n, "name", s.chain) == Value(name)
    requires !Exec(w, n, caller, s, fuel).outcome.Stuck?
    ensures var e := Exec(w, n, caller, s, fuel);
      if s.exec == [] then e == Quiet(s, "")
      else
        var tag, inner := s.exec[|s.exec| - 1].tag, State(s.chain, s.exec[..|s.exec| - 1]);
        if name == "" then
          var r := Do(w, Body(tag, n, inner), fuel - 1);
          e.out == r.out && e.outcome == r.outcome && e.state.chain == r.state.chain
        else match Child(w, tag, "@" + name)
          case None => e == Quiet(s, "")
          case Some(part) =>
            (var r := Do(w, Run(part, tag, inner), fuel - 1);
             e.out == r.out && e.outcome == r.outcome && e.state.chain == r.state.chain)
  {
    hide Kept, Parameter, Do, Child;
    KeptSelf(s.chain);
  }

  /** A definition does nothing where it stands; it runs for a call. */
  lemma DefinitionWaits(w: Program, n: nat, caller: int, s: State, fuel: nat)
    requires Sound(s.chain) && At(w, n).kind.Definition? && fuel > 0
    ensures !(caller >= 0 && IsCall(w, caller)) ==> Exec(w, n, caller, s, fuel) == Quiet(s, "")
    ensures caller >= 0 && IsCall(w, caller) && !Exec(w, n, caller, s, fuel).outcome.Stuck? ==>
      Exec(w, n, caller, s, fuel) == Do(w, Body(n, caller, s), fuel - 1)
  {
    hide Kept, Do;
    KeptSelf(s.chain);
  }

  // -------- while --------

  /** The body runs from `a` to `b`, the test being "1" before. */
  predicate Round(w: Program, n: nat, caller: int, a: State, b: State, out: string, fuel: nat) {
    && Sound(a.chain) && Parameter(w, n, "test", a.chain) == Value("1")
    && var r := Do(w, Body(n, caller, a), fuel); r.outcome.Done? && r.state == b && r.out == out
  }

  /** A loop that ends normally has run its body as long as its test was "1" and not longer,
      and has written what the rounds wrote. */
  lemma {:induction false} WhileRounds(w: Program, n: nat, caller: int, s: State, fuel: nat)
    returns (states: seq<State>, outs: seq<string>)
    requires Sound(s.chain) && At(w, n).kind.While? && Exec(w, n, caller, s, fuel).outcome.Done?
    ensures var e := Exec(w, n, caller, s, fuel); var k := |outs|;
      && |states| == k + 1 && states[0] == s && states[k] == e.state && e.out == Concat(outs) && k < fuel
      && Parameter(w, n, "test", states[k].chain).Value? && Parameter(w, n, "test", states[k].chain) != Value("1")
      && forall i :: 0 <= i < k ==> Round(w, n, caller, states[i], states[i + 1], outs[i], fuel - 1 - i)
    decreases fuel
  {
    hide Kept, Filled, Exec, Do, Parameter;
    states, outs := [s], [];
    if Parameter(w, n, "test", s.chain) == Value("1") {
      var r := WhileOnce(w, n, caller, s, fuel);
      var later, laterOuts := WhileRounds(w, n, caller, r.state, fuel - 1);
      states, outs := [s] + later, [r.out] + laterOuts;
      assert outs[1..] == laterOuts;
      assert Round(w, n, caller, s, r.state, r.out, fuel - 1);
      forall i | 0 <= i < |outs| ensures Round(w, n, caller, states[i], states[i + 1], outs[i], fuel - 1 - i) {
        if i > 0 {
          assert Round(w, n, caller, later[i - 1], later[i], laterOuts[i - 1], fuel - 1 - 1 - (i - 1));
        }
      }
    } else {
      WhileStops(w, n, caller, s, fuel);
    }
  }

  lemma WhileStops(w: Program, n: nat, caller: int, s: State, fuel: nat)
    requires Sound(s.chain) && At(w, n).kind.While? && Exec(w, n, caller, s, fuel).outcome.Done?
    requires Parameter(w, n, "test", s.chain) != Value("1")
    ensures fuel > 0 && Parameter(w, n, "test", s.chain).Value?
    ensures var e := Exec(w, n, caller, s, fuel); e.state == s && e.out == ""
  {
    hide Kept, Filled, Do, Parameter;
  }

  lemma WhileOnce(w: Program, n: nat, caller: int, s: State, fuel: nat) returns (r: Result)
    requires Sound(s.chain) && At(w, n).kind.While? && Exec(w, n, caller, s, fuel).outcome.Done?
    requires Parameter(w, n, "test", s.chain) == Value("1")
    ensures fuel > 1 && r == Do(w, Body(n, caller, s), fuel - 1) && r.outcome.Done? && Kept(s.chain, r.state.chain)
    ensures Sound(r.state.chain)
    ensures var e, later := Exec(w, n, caller, s, fuel), Exec(w, n, caller, r.state, fuel - 1);
      later.outcome.Done? && e.state == later.state && e.out == r.out + later.out
  {
    hide Kept, Filled, ExecAll, Parameter;
    KeptSelf(s.chain);
    r := Do(w, Body(n, caller, s), fuel - 1);
    KeptSound(s.chain, r.state.chain);
  }

  // -------- definitions, children and parameters --------

  /** The k-th ancestor, or NULL. */
  function Ancestor(w: Program, n: int, k: nat): (a: int)
    ensures a < 0 || a <= n
    decreases k
  {
    if k == 0 || n < 0 then n else Ancestor(w, At(w, n).parent, k - 1)
  }

  /** The definition in scope is that of the nearest tag, here or further out, that has one. */
  lemma {:induction false} ScopedNearest(w: Program, n: int, name: string) returns (k: nat)
    ensures match Scoped(w, n, name)
      case Some(d) =>
        && Ancestor(w, n, k) >= 0 && Child(w, Ancestor(w, n, k), "@" + name) == Some(d)
        && forall j :: 0 <= j < k ==> Ancestor(w, n, j) >= 0 && Child(w, Ancestor(w, n, j), "@" + name).None?
      case None =>
        Ancestor(w, n, k) < 0
        && forall j :: 0 <= j < k ==> Ancestor(w, n, j) >= 0 && Child(w, Ancestor(w, n, j), "@" + name).None?
    decreases n
  {
    hide Child;
    k := 0;
    if n >= 0 && Child(w, n, "@" + name).None? {
      var m := ScopedNearest(w, At(w, n).parent, name);
      k := m + 1;
      forall j | 0 <= j < k ensures Ancestor(w, n, j) >= 0 && Child(w, Ancestor(w, n, j), "@" + name).None? {
        assert j > 0 ==> Ancestor(w, n, j) == Ancestor(w, At(w, n).parent, j - 1);
      }
    }
  }

  /** The child of a name is the first that has it. */
  lemma {:induction false} ChildFirst(w: Program, children: seq<nat>, name: string) returns (i: nat)
    ensures match ChildAmong(w, children, name)
      case Some(c) =>
        && i < |children| && children[i] == c && At(w, c).name == name
        && forall j :: 0 <= j < i ==> At(w, children[j]).name != name
      case None => forall j :: 0 <= j < |children| ==> At(w, children[j]).name != name
  {
    i := 0;
    if children != [] && At(w, children[0]).name != name {
      var k := ChildFirst(w, children[1..], name);
      i := k + 1;
      assert forall j :: 0 < j < |children| ==> children[j] == children[1..][j - 1];
    }
  }

  /** A parameter's text is that of the first parameter of its name. */
  lemma {:induction false} ParamFirst(params: seq<(string, string)>, name: string) returns (i: nat)
    ensures match ParamText(params, name)
      case Some(text) =>
        i < |params| && params[i] == (name, text) && forall j :: 0 <= j < i ==> params[j].0 != name
      case None => forall j :: 0 <= j < |params| ==> params[j].0 != name
  {
    i := 0;
    if params != [] && params[0].0 != name {
      var k := ParamFirst(params[1..], name);
      i := k + 1;
      assert forall j :: 0 < j < |params| ==> params[j] == params[1..][j - 1];
    }
  }
}
