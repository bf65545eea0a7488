/** Scripts as the program runs them: each kind of tag changes the context it is given and
    writes to an output. Every method is proved to do what the meaning of its tag says. */
module Engine {
  import opened Basics
  import opened Variables
  import opened Contexts
  import opened Interpreter

  ghost function Now(ctx: Context): State
    requires ctx.Valid()
    reads ctx.Repr
  {
    State(ctx.Frames(), ctx.exec)
  }

  ghost predicate Ready(ctx: Context)
    reads ctx.Repr
  {
    ctx.Valid() && ctx in ctx.Repr && Sound(ctx.Frames())
  }

  /** The context, the output and the way of ending are those of `r`. */
  ghost predicate Agrees(ctx: Context, out: string, outcome: Outcome, log: seq<Note>, r: Result)
    reads ctx.Repr
  {
    && ctx.Valid() && ctx in ctx.Repr && outcome == r.outcome
    && (!outcome.Stuck? ==> Result(Now(ctx), out, outcome, log) == r)
  }

  // -------- looking things up --------

  method GetParameter(w: Program, n: nat, name: string, ctx: Context) returns (v: Value)
    requires ctx.Valid()
    ensures v == Parameter(w, n, name, ctx.Frames())
  {
    var text := ParamText(At(w, n).params, name);
    v := if text.None? then Value("") else Eval(w, text.value, ctx.Frames());
  }

  method GetChild(w: Program, n: nat, name: string) returns (c: Option<nat>)
    ensures c == Child(w, n, name)
  {
    var children := At(w, n).children;
    var i := 0;
    while i < |children|
      invariant 0 <= i <= |children|
      invariant Child(w, n, name) == ChildAmong(w, children[i..], name)
    {
      if At(w, children[i]).name == name {
        return Some(children[i]);
      }
      i := i + 1;
    }
    c := None;
  }

  /** Walks up the parents. */
  method FindDefinition(w: Program, n: int, name: string) returns (d: Option<nat>)
    ensures d == Scoped(w, n, name)
  {
    var p := n;
    while p >= 0
      invariant Scoped(w, n, name) == Scoped(w, p, name)
      decreases p
    {
      d := GetChild(w, p, "@" + name);
      if d.Some? {
        return;
      }
      p := At(w, p).parent;
    }
    d := None;
  }

  // -------- filling a layer --------

  method AddOne(w: Program, ctx: Context, name: string, value: string, kind: string) returns (error: Option<Exception>)
    requires Ready(ctx)
    modifies ctx.Repr
    ensures Ready(ctx) && ctx.exec == old(ctx.exec)
    ensures Filling(ctx.Frames(), error) == Add(w, old(ctx.Frames()), name, value, kind)
  {
    ghost var chain := ctx.Frames();
    var e := ctx.AddValue(w.same, name, value, kind);
    error := if e.None? then None else Some(Plain(e.value));
    FilledSound(chain, Add(w, chain, name, value, kind).chain);
  }

  method DeclareVars(w: Program, n: nat, names: seq<string>, ctx: Context) returns (error: Option<Exception>)
    requires Ready(ctx)
    modifies ctx.Repr
    ensures Ready(ctx) && ctx.exec == old(ctx.exec)
    ensures Filling(ctx.Frames(), error) == AddVars(w, n, names, old(ctx.Frames()))
  {
    hide Add, Filled, At, Eval, Names, Number, Context.Valid, Context.Frames;
    error := None;
    var i := 0;
    while i < |names|
      invariant 0 <= i <= |names|
      invariant Ready(ctx) && ctx.exec == old(ctx.exec) && error.None?
      invariant AddVars(w, n, names, old(ctx.Frames())) == AddVars(w, n, names[i..], ctx.Frames())
    {
      assert names[i..][1..] == names[i + 1..];
      var kind := GetParameter(w, n, "type", ctx);
      if kind.Fault? {
        return Some(kind.error);
      }
      var value := GetParameter(w, n, "value", ctx);
      if value.Fault? {
        return Some(value.error);
      }
      ghost var chain := ctx.Frames();
      error := AddOne(w, ctx, names[i], value.value, if kind.value == "" then "local" else kind.value);
      assert Add(w, chain, names[i], value.value, if kind.value == "" then "local" else kind.value)
          == Filling(ctx.Frames(), error);
      if error.Some? {
        return;
      }
      i := i + 1;
    }
  }

  method DeclareParams(w: Program, params: seq<(string, string)>, ctx: Context) returns (error: Option<Exception>)
    requires Ready(ctx)
    modifies ctx.Repr
    ensures Ready(ctx) && ctx.exec == old(ctx.exec)
    ensures Filling(ctx.Frames(), error) == AddParams(w, params, old(ctx.Frames()))
  {
    hide Add, Filled, At, Eval, Names, Number, Context.Valid, Context.Frames;
    error := None;
    var i := 0;
    while i < |params|
      invariant 0 <= i <= |params|
      invariant Ready(ctx) && ctx.exec == old(ctx.exec) && error.None?
      invariant AddParams(w, params, old(ctx.Frames())) == AddParams(w, params[i..], ctx.Frames())
    {
      assert params[i..][1..] == params[i + 1..];
      var value := Eval(w, params[i].1, ctx.Frames());
      if value.Fault? {
        return Some(value.error);
      }
      ghost var chain := ctx.Frames();
      error := AddOne(w, ctx, params[i].0, value.value, "");
      assert Add(w, chain, params[i].0, value.value, "") == Filling(ctx.Frames(), error);
      if error.Some? {
        return;
      }
      i := i + 1;
    }
  }

  method AssignVars(names: seq<string>, value: string, ctx: Context) returns (error: Option<Exception>)
    requires Ready(ctx)
    modifies ctx.Repr
    ensures Ready(ctx) && ctx.exec == old(ctx.exec)
    ensures Filling(ctx.Frames(), error) == SetVars(names, value, old(ctx.Frames()))
  {
    hide SetValue, Kept, At, Eval, Names, Number, Context.Valid, Context.Frames;
    error := None;
    var i := 0;
    while i < |names|
      invariant 0 <= i <= |names|
      invariant Ready(ctx) && ctx.exec == old(ctx.exec)
      invariant SetVars(names, value, old(ctx.Frames())) == SetVars(names[i..], value, ctx.Frames())
    {
      assert names[i..][1..] == names[i + 1..];
      ghost var chain := ctx.Frames();
      SetKeeps(chain, names[i], value);
      var e := ctx.SetValue(names[i], value);
      if e.Some? {
        return Some(Plain(e.value));
      }
      KeptSound(chain, ctx.Frames());
      i := i + 1;
    }
  }

  // -------- running --------

  method RunChildren(w: Program, children: seq<nat>, caller: int, ctx: Context, fuel: nat)
    returns (out: string, outcome: Outcome, ghost log: seq<Note>)
    requires Ready(ctx)
    modifies ctx.Repr
    ensures Agrees(ctx, out, outcome, log, ExecAll(w, children, caller, old(Now(ctx)), fuel))
    decreases fuel, 3, 0
  {
    hide Exec, Kept, At, Eval, Names, Number, Context.Valid, Context.Frames;
    ghost var s := Now(ctx);
    out, outcome, log := "", Done, [];
    var i := 0;
    while i < |children|
      invariant 0 <= i <= |children| && Ready(ctx) && outcome == Done
      invariant Continues(ExecAll(w, children, caller, s, fuel), out, log,
                          ExecAll(w, children[i..], caller, Now(ctx), fuel))
    {
      ghost var before := Now(ctx);
      assert children[i..][1..] == children[i + 1..];
      var o, e, l := Execute(w, children[i], caller, ctx, fuel);
      ghost var r := Exec(w, children[i], caller, before, fuel);
      if e.Stuck? {
        return o, e, l;
      }
      KeptSound(before.chain, r.state.chain);
      ghost var next := if e.Done? then ExecAll(w, children[i + 1..], caller, Now(ctx), fuel) else r;
      ContinuesAfter(ExecAll(w, children, caller, s, fuel), out, log,
                     ExecAll(w, children[i..], caller, before, fuel), r, next);
      out, log := out + o, log + l;
      if e.Raised? {
        return out, e, log;
      }
      i := i + 1;
    }
  }

  /** The whole run `e` is the output and the notes so far and then what `rest` is. */
  ghost predicate Continues(e: Result, out: string, log: seq<Note>, rest: Result) {
    && e.outcome == rest.outcome
    && (!e.outcome.Stuck? ==> e == Result(rest.state, out + rest.out, rest.outcome, log + rest.log))
  }

  lemma ContinuesAfter(e: Result, out: string, log: seq<Note>, all: Result, r: Result, rest: Result)
    requires Continues(e, out, log, all)
    requires r.outcome.Raised? ==> all == r
    requires r.outcome.Done? ==> Continues(all, r.out, r.log, rest)
    requires !r.outcome.Stuck?
    ensures r.outcome.Raised? ==> e == Result(r.state, out + r.out, r.outcome, log + r.log)
    ensures r.outcome.Done? ==> Continues(e, out + r.out, log + r.log, rest)
  {
    if r.outcome.Done? {
      assert out + (r.out + rest.out) == out + r.out + rest.out;
      assert log + (r.log + rest.log) == log + r.log + rest.log;
    }
  }

  /** What every tag has in common: its children run, then its text is written. */
  method RunBody(w: Program, n: nat, caller: int, ctx: Context, fuel: nat)
    returns (out: string, outcome: Outcome, ghost log: seq<Note>)
    requires Ready(ctx)
    modifies ctx.Repr
    ensures Agrees(ctx, out, outcome, log, Do(w, Body(n, caller, old(Now(ctx))), fuel))
    ensures Ready(ctx) || outcome.Stuck?
    decreases fuel, 4, 0
  {
    hide ExecAll, Kept, At, Eval, Names, Number, Context.Valid, Context.Frames;
    ghost var s := Now(ctx);
    out, outcome, log := RunChildren(w, At(w, n).children, caller, ctx, fuel);
    if outcome.Done? {
      out := out + At(w, n).text;
    }
    KeptSound(s.chain, Do(w, Body(n, caller, s), fuel).state.chain);
  }

  method Execute(w: Program, n: nat, caller: int, ctx: Context, fuel: nat)
    returns (out: string, outcome: Outcome, ghost log: seq<Note>)
    requires Ready(ctx)
    modifies ctx.Repr
    ensures Agrees(ctx, out, outcome, log, Exec(w, n, caller, old(Now(ctx)), fuel))
    ensures Ready(ctx) || outcome.Stuck?
    decreases fuel, 2, 0
  {
    hide Kept, Sound, Start, Next, Do, At, Eval, Names, Number, Context.Valid, Context.Frames;
    ghost var s := Now(ctx);
    KeptSound(s.chain, Exec(w, n, caller, s, fuel).state.chain);
    if fuel == 0 {
      return "", Stuck, [];
    }
    match At(w, n).kind
    case Group => out, outcome, log := ExecuteGroup(w, n, caller, ctx, fuel);
    case Expression => out, outcome, log := ExecuteExpression(w, n, caller, ctx, fuel);
    case Var => out, outcome, log := ExecuteVar(w, n, caller, ctx, fuel);
    case Set => out, outcome, log := ExecuteSet(w, n, caller, ctx, fuel);
    case Switch => out, outcome, log := ExecuteSwitch(w, n, caller, ctx, fuel);
    case Case => out, outcome, log := ExecuteCase(w, n, caller, ctx, fuel);
    case Try => out, outcome, log := ExecuteTry(w, n, caller, ctx, fuel);
    case Catch => out, outcome, log := ExecuteCatch(w, n, caller, ctx, fuel);
    case Throw => out, outcome, log := ExecuteThrow(w, n, caller, ctx, fuel);
    case While => out, outcome, log := ExecuteWhile(w, n, caller, ctx, fuel);
    case Usr => out, outcome, log := ExecuteUsr(w, n, caller, ctx, fuel);
    case CallByName => out, outcome, log := ExecuteCallByName(w, n, caller, ctx, fuel);
    case Definition => out, outcome, log := ExecuteDefinition(w, n, caller, ctx, fuel);
    case Execute => out, outcome, log := ExecuteBlock(w, n, caller, ctx, fuel);
  }

  method ExecuteGroup(w: Program, n: nat, caller: int, ctx: Context, fuel: nat)
    returns (out: string, outcome: Outcome, ghost log: seq<Note>)
    requires Ready(ctx) && fuel > 0 && At(w, n).kind.Group?
    modifies ctx.Repr
    ensures Agrees(ctx, out, outcome, log, Exec(w, n, caller, old(Now(ctx)), fuel))
    decreases fuel, 1
  {
    hide Kept, Do, At, Eval, Names, Number, Context.Valid, Context.Frames;
    out, outcome, log := RunBody(w, n, caller, ctx, fuel - 1);
  }

  method ExecuteExpression(w: Program, n: nat, caller: int, ctx: Context, fuel: nat)
    returns (out: string, outcome: Outcome, ghost log: seq<Note>)
    requires Ready(ctx) && fuel > 0 && At(w, n).kind.Expression?
    ensures Agrees(ctx, out, outcome, log, Exec(w, n, caller, old(Now(ctx)), fuel))
  {
    hide Kept, Do, At, Eval, Names, Number, Context.Valid, Context.Frames;
    var v := Eval(w, At(w, n).text, ctx.Frames());
    log := [];
    match v
    case Value(text) => out, outcome := text, Done;
    case Fault(e) => out, outcome := "", Raised(e);
  }

  method ExecuteCatch(w: Program, n: nat, caller: int, ctx: Context, fuel: nat)
    returns (out: string, outcome: Outcome, ghost log: seq<Note>)
    requires Ready(ctx) && fuel > 0 && At(w, n).kind.Catch?
    ensures Agrees(ctx, out, outcome, log, Exec(w, n, caller, old(Now(ctx)), fuel))
  {
    hide Kept, Do, At, Eval, Names, Number, Context.Valid, Context.Frames;
    out, outcome, log := "", Done, [];
  }

  /** What `var` makes of its new layer. */
  ghost function Declared(w: Program, n: nat, chain: Chain): (f: Filling)
    requires Sound(chain)
    ensures Filled(chain, f.chain)
  {
    hide Filled, At, Eval, Names, Number;
    KeptSelf(chain);
    match Parameter(w, n, "name", chain)
    case Fault(e) => Filling(chain, Some(e))
    case Value(names) => AddVars(w, n, Names(w, names), chain)
  }

  lemma VarEnds(w: Program, n: nat, caller: int, s: State, fuel: nat)
    requires Sound(s.chain) && fuel > 0 && At(w, n).kind.Var?
    ensures Sound(Enter(s.chain))
    ensures LayerEnds(Declared(w, n, Enter(s.chain)), w, n, caller, s, fuel, Exec(w, n, caller, s, fuel))
  {
    hide Kept, Filled, Do, AddVars, At, Eval, Names, Number;
    EnterSound(s.chain);
    var f := Declared(w, n, Enter(s.chain));
    FilledSound(Enter(s.chain), f.chain);
    LeaveKeeps(s.chain, f.chain);
    var r := Do(w, Body(n, caller, State(f.chain, s.exec)), fuel - 1);
    OpenedKept(Var, s.chain, f.chain, r.state.chain);
    LeaveKeeps(s.chain, r.state.chain);
  }

  /** A tag that fills a new layer, runs what it contains and leaves the layer. */
  ghost predicate LayerEnds(f: Filling, w: Program, n: nat, caller: int, s: State, fuel: nat, e: Result)
    requires fuel > 0
  {
    && Sound(f.chain)
    && var r := Do(w, Body(n, caller, State(f.chain, s.exec)), fuel - 1);
       Leavable(f.chain) && Leavable(r.state.chain)
       && if f.error.Some? then e == Fail(State(Leave(f.chain), s.exec), f.error.value)
          else if r.outcome.Stuck? then e.outcome.Stuck?
          else e == r.(state := Left(r.state))
  }

  predicate Leavable(chain: Chain) {
    |chain| > 0 && chain[0].layers != []
  }

  method ExecuteVar(w: Program, n: nat, caller: int, ctx: Context, fuel: nat)
    returns (out: string, outcome: Outcome, ghost log: seq<Note>)
    requires Ready(ctx) && fuel > 0 && At(w, n).kind.Var?
    modifies ctx.Repr
    ensures Agrees(ctx, out, outcome, log, Exec(w, n, caller, old(Now(ctx)), fuel))
    decreases fuel, 1
  {
    hide Kept, Filled, Sound, Do, AddVars, Exec, At, Eval, Names, Number, Context.Valid, Context.Frames;
    ghost var s := Now(ctx);
    EnterSound(s.chain);
    VarEnds(w, n, caller, s, fuel);
    out, log := "", [];
    ctx.Enter();
    var error: Option<Exception> := None;
    var names := GetParameter(w, n, "name", ctx);
    if names.Fault? {
      error := Some(names.error);
    } else {
      error := DeclareVars(w, n, Names(w, names.value), ctx);
    }
    if error.Some? {
      ctx.Leave();
      return out, Raised(error.value), log;
    }
    out, outcome, log := RunBody(w, n, caller, ctx, fuel - 1);
    if !outcome.Stuck? {
      ctx.Leave();
    }
  }

  /** What its children write is not output but the value assigned. */
  method ExecuteSet(w: Program, n: nat, caller: int, ctx: Context, fuel: nat)
    returns (out: string, outcome: Outcome, ghost log: seq<Note>)
    requires Ready(ctx) && fuel > 0 && At(w, n).kind.Set?
    modifies ctx.Repr
    ensures Agrees(ctx, out, outcome, log, Exec(w, n, caller, old(Now(ctx)), fuel))
    decreases fuel, 1
  {
    hide Kept, Filled, Do, SetVars, At, Eval, Names, Number, Context.Valid, Context.Frames;
    ghost var s := Now(ctx);
    var value, e, l := RunBody(w, n, caller, ctx, fuel - 1);
    out, outcome, log := "", e, l;
    if e.Done? {
      var names := GetParameter(w, n, "name", ctx);
      if names.Fault? {
        return out, Raised(names.error), log;
      }
      var error := AssignVars(Names(w, names.value), value, ctx);
      if error.Some? {
        outcome := Raised(error.value);
      }
    }
  }

  /** What `switch` makes of its new layer. */
  ghost function WithTest(w: Program, n: nat, chain: Chain): (f: Filling)
    requires Sound(chain)
    ensures Filled(chain, f.chain)
  {
    hide Filled, At, Eval, Names, Number;
    KeptSelf(chain);
    match Parameter(w, n, "test", chain)
    case Fault(e) => Filling(chain, Some(e))
    case Value(test) => Add(w, chain, SWITCH, test, "")
  }

  lemma SwitchEnds(w: Program, n: nat, caller: int, s: State, fuel: nat)
    requires Sound(s.chain) && fuel > 0 && At(w, n).kind.Switch?
    ensures Sound(Enter(s.chain))
    ensures exists e ::
      LayerEnds(WithTest(w, n, Enter(s.chain)), w, n, caller, s, fuel, e) && Exec(w, n, caller, s, fuel) == SwitchEnd(e)
  {
    hide Kept, Filled, Do, Add, At, Eval, Names, Number;
    EnterSound(s.chain);
    var f := WithTest(w, n, Enter(s.chain));
    FilledSound(Enter(s.chain), f.chain);
    LeaveKeeps(s.chain, f.chain);
    var r := Do(w, Body(n, caller, State(f.chain, s.exec)), fuel - 1);
    OpenedKept(Switch, s.chain, f.chain, r.state.chain);
    LeaveKeeps(s.chain, r.state.chain);
    var e := if f.error.Some? then Fail(State(Leave(f.chain), s.exec), f.error.value)
             else if r.outcome.Stuck? then Spent(s) else r.(state := Left(r.state));
    assert LayerEnds(f, w, n, caller, s, fuel, e);
  }

  method ExecuteSwitch(w: Program, n: nat, caller: int, ctx: Context, fuel: nat)
    returns (out: string, outcome: Outcome, ghost log: seq<Note>)
    requires Ready(ctx) && fuel > 0 && At(w, n).kind.Switch?
    modifies ctx.Repr
    ensures Agrees(ctx, out, outcome, log, Exec(w, n, caller, old(Now(ctx)), fuel))
    decreases fuel, 1
  {
    hide Kept, Filled, Sound, Do, Add, Exec, At, Eval, Names, Number, Context.Valid, Context.Frames;
    ghost var s := Now(ctx);
    EnterSound(s.chain);
    SwitchEnds(w, n, caller, s, fuel);
    out, log := "", [];
    ctx.Enter();
    var error: Option<Exception> := None;
    var test := GetParameter(w, n, "test", ctx);
    if test.Fault? {
      error := Some(test.error);
    } else {
      error := AddOne(w, ctx, SWITCH, test.value, "");
    }
    if error.Some? {
      ctx.Leave();
      return out, if error.value.CaseDone? then Done else Raised(error.value), log;
    }
    out, outcome, log := RunBody(w, n, caller, ctx, fuel - 1);
    if !outcome.Stuck? {
      if outcome == Raised(CaseDone) {
        outcome := Done;
      }
      ctx.Leave();
    }
  }

  method ExecuteCase(w: Program, n: nat, caller: int, ctx: Context, fuel: nat)
    returns (out: string, outcome: Outcome, ghost log: seq<Note>)
    requires Ready(ctx) && fuel > 0 && At(w, n).kind.Case?
    modifies ctx.Repr
    ensures Agrees(ctx, out, outcome, log, Exec(w, n, caller, old(Now(ctx)), fuel))
    decreases fuel, 1
  {
    hide Kept, Do, At, Eval, Names, Number, Context.Valid, Context.Frames;
    out, log := "", [];
    var p := GetParameter(w, n, "match", ctx);
    if p.Fault? {
      return out, Raised(p.error), log;
    }
    var test := ctx.GetValue(SWITCH);
    if p.value == "" || test == p.value {
      out, outcome, log := RunBody(w, n, caller, ctx, fuel - 1);
      if outcome.Done? {
        outcome := Raised(CaseDone);
      }
    } else {
      outcome := Done;
    }
  }

  /** The end of a throw: an exception with or without a code. */
  method Raise(w: Program, n: nat, message: string, ctx: Context) returns (outcome: Outcome)
    requires Ready(ctx)
    ensures Result(Now(ctx), "", outcome, []) == ThrowWith(w, n, Now(ctx), message)
  {
    var code := GetParameter(w, n, "code", ctx);
    if code.Fault? {
      return Raised(code.error);
    }
    if code.value == "" {
      return Raised(Plain(message));
    }
    var number := Number(w, code.value);
    match number
    case Value(v) => outcome := Raised(App(message, v));
    case Fault(e) => outcome := Raised(e);
  }

  method ExecuteThrow(w: Program, n: nat, caller: int, ctx: Context, fuel: nat)
    returns (out: string, outcome: Outcome, ghost log: seq<Note>)
    requires Ready(ctx) && fuel > 0 && At(w, n).kind.Throw?
    modifies ctx.Repr
    ensures Agrees(ctx, out, outcome, log, Exec(w, n, caller, old(Now(ctx)), fuel))
    decreases fuel, 1
  {
    hide Kept, Do, ThrowWith, At, Eval, Names, Number, Context.Valid, Context.Frames;
    out, log := "", [];
    var message := GetParameter(w, n, "message", ctx);
    if message.Fault? {
      return out, Raised(message.error), log;
    }
    if message.value != "" {
      outcome := Raise(w, n, message.value, ctx);
      return;
    }
    var written, e, l := RunBody(w, n, caller, ctx, fuel - 1);
    outcome, log := e, l;
    if e.Done? {
      outcome := Raise(w, n, written, ctx);
    }
  }

  /** The catch tag `c` deals with an exception. */
  ghost function Processed(w: Program, c: nat, e: Exception, caller: int, s: State, fuel: nat): Result
    requires Sound(s.chain)
  {
    hide Filled, Kept, AddError, Do, At, Eval, Names, Number;
    EnterSound(s.chain);
    var f := AddError(w, e, Enter(s.chain));
    FilledSound(Enter(s.chain), f.chain);
    if f.error.Some? then Result(State(Leave(f.chain), s.exec), "", Raised(f.error.value), [])
    else
      var r := Do(w, Body(c, caller, State(f.chain, s.exec)), fuel);
      OpenedKept(Var, s.chain, f.chain, r.state.chain);
      LeaveKeeps(s.chain, r.state.chain);
      if r.outcome.Stuck? then Spent(s) else r.(state := Left(r.state))
  }

  /** `process_exception` of the catch tag `c`. */
  method ProcessException(w: Program, c: nat, e: Exception, caller: int, ctx: Context, fuel: nat)
    returns (out: string, outcome: Outcome, ghost log: seq<Note>)
    requires Ready(ctx)
    modifies ctx.Repr
    ensures Agrees(ctx, out, outcome, log, Processed(w, c, e, caller, old(Now(ctx)), fuel))
    decreases fuel, 5
  {
    hide Kept, Filled, Sound, Do, AddError, At, Eval, Names, Number, Context.Valid, Context.Frames;
    ghost var s := Now(ctx);
    EnterSound(s.chain);
    ctx.Enter();
    ghost var f := AddError(w, e, Enter(s.chain));
    FilledSound(Enter(s.chain), f.chain);
    LeaveKeeps(s.chain, f.chain);
    var error := DeclareError(w, e, ctx);
    if error.Some? {
      ctx.Leave();
      return "", Raised(error.value), [];
    }
    out, outcome, log := RunBody(w, c, caller, ctx, fuel);
    if !outcome.Stuck? {
      ghost var r := Do(w, Body(c, caller, State(f.chain, s.exec)), fuel);
      OpenedKept(Var, s.chain, f.chain, r.state.chain);
      LeaveKeeps(s.chain, r.state.chain);
      ctx.Leave();
    }
  }

  method DeclareError(w: Program, e: Exception, ctx: Context) returns (error: Option<Exception>)
    requires Ready(ctx)
    modifies ctx.Repr
    ensures Ready(ctx) && ctx.exec == old(ctx.exec)
    ensures Filling(ctx.Frames(), error) == AddError(w, e, old(ctx.Frames()))
  {
    hide Add, Filled, At, Eval, Names, Number, Context.Valid, Context.Frames;
    if e.App? {
      error := AddOne(w, ctx, "error_code", e.code, "");
      if error.Some? {
        return;
      }
    }
    error := AddOne(w, ctx, "error_message", Message(e), "");
  }

  /** What its children write is held back and dropped when they raise. */
  method ExecuteTry(w: Program, n: nat, caller: int, ctx: Context, fuel: nat)
    returns (out: string, outcome: Outcome, ghost log: seq<Note>)
    requires Ready(ctx) && fuel > 0 && At(w, n).kind.Try?
    modifies ctx.Repr
    ensures Agrees(ctx, out, outcome, log, Exec(w, n, caller, old(Now(ctx)), fuel))
    decreases fuel, 1
  {
    hide Kept, Exec, Do, Processed, At, Eval, Names, Number, Context.Valid, Context.Frames;
    ghost var s := Now(ctx);
    TryEnds(w, n, caller, s, fuel);
    var written, e, l := RunBody(w, n, caller, ctx, fuel - 1);
    out, outcome, log := written, e, l;
    if e.Raised? {
      var c := GetChild(w, n, "catch");
      if c.None? {
        return "", e, l;
      }
      ghost var l2;
      out, outcome, l2 := ProcessException(w, c.value, e.error, caller, ctx, fuel - 1);
      log := l + l2;
    }
  }

  lemma TryEnds(w: Program, n: nat, caller: int, s: State, fuel: nat)
    requires Sound(s.chain) && At(w, n).kind.Try? && fuel > 0
    ensures var r := Do(w, Body(n, caller, s), fuel - 1); var e := Exec(w, n, caller, s, fuel);
      match r.outcome
      case Stuck => e.outcome.Stuck?
      case Done => e == r
      case Raised(error) =>
        (match Child(w, n, "catch")
         case None => e == r.(out := "")
         case Some(c) =>
           Sound(r.state.chain) &&
           (var caught := Processed(w, c, error, caller, r.state, fuel - 1);
            if caught.outcome.Stuck? then e.outcome.Stuck? else e == caught.(log := r.log + caught.log)))
  {
    hide Do, Filled, Kept, AddError, At, Eval, Names, Number;
    var r := Do(w, Body(n, caller, s), fuel - 1);
    KeptSelf(s.chain);
    KeptSound(s.chain, r.state.chain);
    if r.outcome.Raised? && Child(w, n, "catch").Some? {
      assert r.log + [] == r.log;
    }
  }

  method ExecuteWhile(w: Program, n: nat, caller: int, ctx: Context, fuel: nat)
    returns (out: string, outcome: Outcome, ghost log: seq<Note>)
    requires Ready(ctx) && fuel > 0 && At(w, n).kind.While?
    modifies ctx.Repr
    ensures Agrees(ctx, out, outcome, log, Exec(w, n, caller, old(Now(ctx)), fuel))
    decreases fuel, 1
  {
    hide Kept, Do, Exec, At, Eval, Names, Number, Context.Valid, Context.Frames;
    ghost var s := Now(ctx);
    out, outcome, log := "", Stuck, [];
    var left := fuel;
    while left > 0
      invariant 0 <= left <= fuel && Ready(ctx) && outcome == Stuck
      invariant Continues(Exec(w, n, caller, s, fuel), out, log, Exec(w, n, caller, Now(ctx), left))
    {
      ghost var before := Now(ctx);
      WhileRound(w, n, caller, before, left);
      var test := GetParameter(w, n, "test", ctx);
      if test.Fault? {
        return out, Raised(test.error), log;
      }
      if test.value != "1" {
        return out, Done, log;
      }
      var o, e, l := RunBody(w, n, caller, ctx, left - 1);
      if e.Stuck? {
        return;
      }
      ghost var r := Do(w, Body(n, caller, before), left - 1);
      ContinuesAfter(Exec(w, n, caller, s, fuel), out, log, Exec(w, n, caller, before, left), r,
                     if e.Done? then Exec(w, n, caller, Now(ctx), left - 1) else r);
      out, log := out + o, log + l;
      if e.Raised? {
        return out, e, log;
      }
      left := left - 1;
    }
    NoFuel(w, n, caller, Now(ctx));
  }

  lemma NoFuel(w: Program, n: nat, caller: int, s: State)
    requires Sound(s.chain)
    ensures Exec(w, n, caller, s, 0).outcome.Stuck?
  {
  }

  /** One round of a while, and then the rest of it. */
  lemma WhileRound(w: Program, n: nat, caller: int, s: State, fuel: nat)
    requires Sound(s.chain) && At(w, n).kind.While? && fuel > 0
    ensures var e := Exec(w, n, caller, s, fuel); var test := Parameter(w, n, "test", s.chain);
      match test
      case Fault(error) => e == Fail(s, error)
      case Value(t) =>
        if t != "1" then e == Quiet(s, "")
        else (var r := Do(w, Body(n, caller, s), fuel - 1);
              && (r.outcome.Stuck? ==> e.outcome.Stuck?)
              && (r.outcome.Raised? ==> e == r)
              && (r.outcome.Done? ==>
                    Sound(r.state.chain) && Continues(e, r.out, r.log, Exec(w, n, caller, r.state, fuel - 1))))
  {
    hide Kept, ExecAll;
    KeptSelf(s.chain);
    var r := Do(w, Body(n, caller, s), fuel - 1);
    KeptSound(s.chain, r.state.chain);
    hide Kept, At, Eval, Names, Number;
    if Parameter(w, n, "test", s.chain) == Value("1") && r.outcome.Done? {
      assert Do(w, Run(n, caller, r.state), fuel - 1) == Exec(w, n, caller, r.state, fuel - 1);
    }
  }

  /** Runs the definition `d` for the caller `n`, whose layer is open, with the call on the stack. */
  method RunDefinition(w: Program, n: nat, d: nat, ctx: Context, fuel: nat)
    returns (out: string, outcome: Outcome, ghost log: seq<Note>)
    requires Ready(ctx)
    modifies ctx.Repr
    ensures var s := old(Now(ctx)); var r := Exec(w, d, n, s.(exec := s.exec + [Call(n, Tags(s.exec))]), fuel);
      Agrees(ctx, out, outcome, log, r.(state := r.state.(exec := Popped(r.state.exec))))
    decreases fuel, 6
  {
    hide Exec, Kept, At, Eval, Names, Number, Context.Valid, Context.Frames;
    ctx.Push(Call(n, Tags(ctx.exec)));
    out, outcome, log := Execute(w, d, n, ctx, fuel);
    if !outcome.Stuck? {
      var _ := ctx.Pop();
    }
  }

  /** What calls have in common: parameters become variables of a new layer. */
  method CallCustom(w: Program, n: nat, name: string, params: seq<(string, string)>, target: Option<nat>,
                    ctx: Context, fuel: nat)
    returns (out: string, outcome: Outcome, ghost log: seq<Note>)
    requires Ready(ctx)
    modifies ctx.Repr
    ensures ctx.Valid()
    ensures Calls(w, StartCall(w, n, name, params, target, old(Now(ctx))), fuel, ctx, out, outcome, log)
    decreases fuel, 7
  {
    hide Kept, Filled, Exec, AddParams, At, Eval, Names, Number, Context.Valid, Context.Frames;
    ghost var s := Now(ctx);
    EnterSound(s.chain);
    out, log := "", [];
    ctx.Enter();
    ghost var f := AddParams(w, params, Enter(s.chain));
    LeaveKeeps(s.chain, f.chain);
    var error := DeclareParams(w, params, ctx);
    if error.None? && target.None? {
      error := Some(Plain("custom tag '" + name + "' is not defined at this scope"));
    }
    if error.Some? {
      ctx.Leave();
      return out, Raised(error.value), log;
    }
    out, outcome, log := RunDefinition(w, n, target.value, ctx, fuel);
    ghost var r := Exec(w, target.value, n, State(f.chain, s.exec + [Call(n, Tags(s.exec))]), fuel);
    OpenedKept(Usr, s.chain, f.chain, r.state.chain);
    LeaveKeeps(s.chain, r.state.chain);
    if !outcome.Stuck? {
      ctx.Leave();
    }
  }

  /** How a call ends that starts as `p` says. */
  ghost predicate Calls(w: Program, p: Plan, fuel: nat, ctx: Context, out: string, outcome: Outcome, log: seq<Note>)
    requires ctx.Valid()
    reads ctx.Repr
  {
    match p
    case Stop(r) => Result(Now(ctx), out, outcome, log) == r
    case Body(_, _, _) => false
    case Run(d, n, s) =>
      Sound(s.chain) &&
      (var r := Exec(w, d, n, s, fuel);
       |r.state.chain| > 0 && r.state.chain[0].layers != [] && Agrees(ctx, out, outcome, log, NextCall(r).result))
  }

  lemma CallEnds(w: Program, n: nat, caller: int, s: State, fuel: nat, p: Plan)
    requires Sound(s.chain) && fuel > 0 && (At(w, n).kind.Usr? || At(w, n).kind.CallByName?)
    requires p == Start(w, n, caller, s) && !p.Body?
    ensures var e := Exec(w, n, caller, s, fuel);
      if p.Stop? then e == p.result
      else Sound(p.state.chain) &&
           (var r := Exec(w, p.node, p.caller, p.state, fuel - 1);
            |r.state.chain| > 0 && r.state.chain[0].layers != [] &&
            e == if r.outcome.Stuck? then Spent(s) else NextCall(r).result)
  {
    hide Kept, Filled, Start, At, Eval, Names, Number;
    if p.Run? {
      OpenedSound(At(w, n).kind, s.chain, p.state.chain);
      var r := Do(w, p, fuel - 1);
      OpenedKept(At(w, n).kind, s.chain, p.state.chain, r.state.chain);
      LeaveKeeps(s.chain, r.state.chain);
    }
  }

  method ExecuteUsr(w: Program, n: nat, caller: int, ctx: Context, fuel: nat)
    returns (out: string, outcome: Outcome, ghost log: seq<Note>)
    requires Ready(ctx) && fuel > 0 && At(w, n).kind.Usr?
    modifies ctx.Repr
    ensures Agrees(ctx, out, outcome, log, Exec(w, n, caller, old(Now(ctx)), fuel))
    decreases fuel, 1
  {
    hide Kept, Exec, StartCall, At, Eval, Names, Number, Context.Valid, Context.Frames;
    ghost var s := Now(ctx);
    var t := At(w, n);
    var d: Option<nat> := None;
    if t.link >= 0 {
      d := Some(t.link);
    } else {
      d := FindDefinition(w, t.parent, t.name);
    }
    out, outcome, log := CallCustom(w, n, t.name, t.params, d, ctx, fuel - 1);
    CallEnds(w, n, caller, s, fuel, StartUsr(w, n, s));
  }

  method ExecuteCallByName(w: Program, n: nat, caller: int, ctx: Context, fuel: nat)
    returns (out: string, outcome: Outcome, ghost log: seq<Note>)
    requires Ready(ctx) && fuel > 0 && At(w, n).kind.CallByName?
    modifies ctx.Repr
    ensures Agrees(ctx, out, outcome, log, Exec(w, n, caller, old(Now(ctx)), fuel))
    decreases fuel, 1
  {
    hide Kept, Exec, StartCall, At, Eval, Names, Number, Context.Valid, Context.Frames;
    ghost var s := Now(ctx);
    var name := GetParameter(w, n, "name", ctx);
    if name.Fault? {
      out, outcome, log := "", Raised(name.error), [];
    } else {
      var d := FindDefinition(w, At(w, n).parent, name.value);
      out, outcome, log := CallCustom(w, n, name.value, Others(At(w, n).params), d, ctx, fuel - 1);
    }
    CallEnds(w, n, caller, s, fuel, StartCallByName(w, n, s));
  }

  /** A definition does nothing where it stands, only when it is called. */
  method ExecuteDefinition(w: Program, n: nat, caller: int, ctx: Context, fuel: nat)
    returns (out: string, outcome: Outcome, ghost log: seq<Note>)
    requires Ready(ctx) && fuel > 0 && At(w, n).kind.Definition?
    modifies ctx.Repr
    ensures Agrees(ctx, out, outcome, log, Exec(w, n, caller, old(Now(ctx)), fuel))
    decreases fuel, 1
  {
    hide Kept, Do, At, Eval, Names, Number, Context.Valid, Context.Frames;
    if caller >= 0 && (At(w, caller).kind.Usr? || At(w, caller).kind.CallByName?) {
      out, outcome, log := RunBody(w, n, caller, ctx, fuel - 1);
    } else {
      out, outcome, log := "", Done, [];
    }
  }

  /** What the block or part of a block that an execute tag runs makes of the whole. */
  lemma BlockRuns(w: Program, n: nat, caller: int, s: State, fuel: nat)
    requires Sound(s.chain) && fuel > 0 && At(w, n).kind.Execute? && s.exec != []
    ensures var e := Exec(w, n, caller, s, fuel);
      var call := s.exec[|s.exec| - 1]; var rest := State(s.chain, Popped(s.exec));
      match Parameter(w, n, "name", s.chain)
      case Fault(error) => e == Result(rest, "", Raised(error), [Lost])
      case Value(name) =>
        if name == "" then PutBack(call, [Ran(call, Tags(rest.exec))], Do(w, Body(call.tag, n, rest), fuel - 1), e)
        else (match Child(w, call.tag, "@" + name)
              case None => e == Quiet(s, "")
              case Some(t) => PutBack(call, [], Exec(w, t, call.tag, rest, fuel - 1), e))
  {
    hide Kept, ExecAll, At, Eval, Names, Number;
    KeptSelf(s.chain);
    var rest := State(s.chain, Popped(s.exec));
    match Start(w, n, caller, s)
    case Stop(_) =>
    case Body(c, _, _) =>
      var r := Do(w, Body(c, n, rest), fuel - 1);
    case Run(t, c, _) =>
      var r := Do(w, Run(t, c, rest), fuel - 1);
      assert forall log: seq<Note> :: [] + log == log;
  }

  lemma NoBlock(w: Program, n: nat, caller: int, s: State, fuel: nat)
    requires Sound(s.chain) && fuel > 0 && At(w, n).kind.Execute? && s.exec == []
    ensures Exec(w, n, caller, s, fuel) == Quiet(s, "")
  {
    hide Kept, Do, At, Eval, Names, Number;
  }

  ghost predicate PutBack(call: Call, ran: seq<Note>, r: Result, e: Result) {
    match r.outcome
    case Stuck => e.outcome.Stuck?
    case Done => e == r.(state := r.state.(exec := r.state.exec + [call]), log := ran + r.log)
    case Raised(_) => e == r.(log := ran + r.log + [Lost])
  }

  /** `tag_execute` and `execute_direct`: an exception passes without the call being put back. */
  method ExecuteBlock(w: Program, n: nat, caller: int, ctx: Context, fuel: nat)
    returns (out: string, outcome: Outcome, ghost log: seq<Note>)
    requires Ready(ctx) && fuel > 0 && At(w, n).kind.Execute?
    modifies ctx.Repr
    ensures Agrees(ctx, out, outcome, log, Exec(w, n, caller, old(Now(ctx)), fuel))
    decreases fuel, 1
  {
    hide Kept, Do, Exec, At, Eval, Names, Number, Context.Valid, Context.Frames;
    ghost var s := Now(ctx);
    if ctx.exec == [] {
      NoBlock(w, n, caller, s, fuel);
    } else {
      BlockRuns(w, n, caller, s, fuel);
    }
    out, outcome, log := "", Done, [];
    var c := ctx.Pop();
    if c.None? {
      return;
    }
    var call := c.value;
    assert s.exec == Popped(s.exec) + [call];
    var name := GetParameter(w, n, "name", ctx);
    if name.Fault? {
      return "", Raised(name.error), [Lost];
    }
    if name.value != "" {
      var t := GetChild(w, call.tag, "@" + name.value);
      if t.Some? {
        out, outcome, log := Execute(w, t.value, call.tag, ctx, fuel - 1);
      }
    } else {
      ghost var stack := Tags(ctx.exec);
      out, outcome, log := RunBody(w, call.tag, n, ctx, fuel - 1);
      log := [Ran(call, stack)] + log;
    }
    if outcome.Done? {
      ctx.Push(call);
    } else {
      log := log + [Lost];
    }
  }
}
