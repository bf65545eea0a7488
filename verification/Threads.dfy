/** Scripts step by step: a machine that does one thing at a time, assigning at most one
    variable in a step, as a thread that shares variables with other threads has to be
    seen. Run alone it does what the meaning of the script says. */
module Threads {
  import opened Basics
  import opened Variables
  import opened Interpreter

  datatype List<+T> = Nil | Cons(head: T, tail: List<T>)

  /** What a thread has still to do. */
  datatype Work =
    | Tag(n: nat, caller: int)
    | Children(children: seq<nat>, caller: int)
    | Text(n: nat)
    | Vars(n: nat, names: seq<string>, caller: int)
    | Params(n: nat, params: seq<(string, string)>, name: string, target: Option<nat>, caller: int)
    | After(n: nat, caller: int, call: Option<Call>)
    | Assign(names: seq<string>, value: string)
    | ErrorCode(c: nat, code: string, message: string, caller: int)
    | ErrorMessage(c: nat, message: string, caller: int)
    | Caught

  /** `out` is the buffer that is written to, `outs` are those outside it. While an
      exception is raised, work is dropped until some of it handles the exception. */
  datatype Config = Config(state: State, work: List<Work>, out: string, outs: List<string>, raised: Option<Exception>)

  function ErrorOf(o: Outcome): Option<Exception> {
    if o.Raised? then Some(o.error) else None
  }

  /** Where a run with the result `r` leaves a machine. */
  function Ended(r: Result, rest: List<Work>, out: string, outs: List<string>): Config {
    Config(r.state, rest, out + r.out, outs, ErrorOf(r.outcome))
  }

  function Raise(c: Config, rest: List<Work>, s: State, e: Exception): Config {
    Config(s, rest, c.out, c.outs, Some(e))
  }

  /** Opens a buffer. */
  function Opening(c: Config, s: State, work: List<Work>): Config {
    Config(s, work, "", Cons(c.out, c.outs), None)
  }

  /** Closes a buffer and writes what is in it to the next one. */
  function Flushed(c: Config, s: State, rest: List<Work>, raised: Option<Exception>): Config {
    match c.outs
    case Nil => Config(s, rest, c.out, Nil, raised)
    case Cons(out, outs) => Config(s, rest, out + c.out, outs, raised)
  }

  /** Closes a buffer and forgets what is in it. */
  function Dropped(c: Config, s: State, rest: List<Work>, raised: Option<Exception>): Config {
    match c.outs
    case Nil => Config(s, rest, "", Nil, raised)
    case Cons(out, outs) => Config(s, rest, out, outs, raised)
  }

  function LeftState(s: State): State {
    if |s.chain| > 0 && s.chain[0].layers != [] then Left(s) else s
  }

  function PlanWork(w: Program, p: Plan, rest: List<Work>): List<Work>
    requires !p.Stop?
  {
    if p.Run? then Cons(Tag(p.node, p.caller), rest)
    else Cons(Children(At(w, p.node).children, p.caller), Cons(Text(p.node), rest))
  }

  function LastCall(w: Program, n: nat, s: State): Option<Call> {
    if At(w, n).kind.Execute? && s.exec != [] then Some(s.exec[|s.exec| - 1]) else None
  }

  // -------- steps --------

  function Begin(w: Program, n: nat, caller: int, call: Option<Call>, c: Config, rest: List<Work>, p: Plan): Config {
    if p.Stop? then Ended(p.result, rest, c.out, c.outs)
    else Opening(c, p.state, PlanWork(w, p, Cons(After(n, caller, call), rest)))
  }

  function TagStep(w: Program, n: nat, caller: int, c: Config, rest: List<Work>): Config
    requires Sound(c.state.chain)
  {
    var s, t := c.state, At(w, n);
    var entered := s.(chain := Enter(s.chain));
    if t.kind.Var? then
      match Parameter(w, n, "name", entered.chain)
      case Fault(e) => Raise(c, rest, s, e)
      case Value(names) => c.(state := entered, work := Cons(Vars(n, Names(w, names), caller), rest))
    else if t.kind.Usr? then
      var target := if t.link >= 0 then Some(t.link) else Scoped(w, t.parent, t.name);
      c.(state := entered, work := Cons(Params(n, t.params, t.name, target, caller), rest))
    else if t.kind.CallByName? then
      match Parameter(w, n, "name", s.chain)
      case Fault(e) => Raise(c, rest, s, e)
      case Value(name) =>
        c.(state := entered, work := Cons(Params(n, Others(t.params), name, Scoped(w, t.parent, name), caller), rest))
    else Begin(w, n, caller, LastCall(w, n, s), c, rest, Start(w, n, caller, s))
  }

  function VarsStep(w: Program, n: nat, names: seq<string>, caller: int, c: Config, rest: List<Work>): Config
    requires Sound(c.state.chain)
  {
    var s := c.state;
    if names == [] then Begin(w, n, caller, None, c, rest, Body(n, caller, s))
    else
      match Parameter(w, n, "type", s.chain)
      case Fault(e) => Raise(c, rest, LeftState(s), e)
      case Value(kind) =>
        match Parameter(w, n, "value", s.chain)
        case Fault(e) => Raise(c, rest, LeftState(s), e)
        case Value(value) =>
          var f := Add(w, s.chain, names[0], value, if kind == "" then "local" else kind);
          var s' := s.(chain := f.chain);
          if f.error.Some? then Raise(c, rest, LeftState(s'), f.error.value)
          else c.(state := s', work := Cons(Vars(n, names[1..], caller), rest))
  }

  function ParamsStep(w: Program, p: Work, c: Config, rest: List<Work>): Config
    requires p.Params? && Sound(c.state.chain)
  {
    var s := c.state;
    if p.params == [] then
      match p.target
      case None => Raise(c, rest, LeftState(s), Plain("custom tag '" + p.name + "' is not defined at this scope"))
      case Some(d) =>
        var to := s.(exec := s.exec + [Call(p.n, Tags(s.exec))]);
        Begin(w, p.n, p.caller, None, c, rest, Run(d, p.n, to))
    else
      match Eval(w, p.params[0].1, s.chain)
      case Fault(e) => Raise(c, rest, LeftState(s), e)
      case Value(value) =>
        var f := Add(w, s.chain, p.params[0].0, value, "");
        var s' := s.(chain := f.chain);
        if f.error.Some? then Raise(c, rest, LeftState(s'), f.error.value)
        else c.(state := s', work := Cons(p.(params := p.params[1..]), rest))
  }

  function AssignStep(names: seq<string>, value: string, c: Config, rest: List<Work>): Config {
    if names == [] then c.(work := rest)
    else
      match SetValue(c.state.chain, names[0], value)
      case Err(message) => Raise(c, rest, c.state, Plain(message))
      case Ok(chain) => c.(state := c.state.(chain := chain), work := Cons(Assign(names[1..], value), rest))
  }

  /** One variable of a catch; the last one is followed by the catch's children. */
  function ErrorStep(w: Program, k: Work, c: Config, rest: List<Work>): Config
    requires (k.ErrorCode? || k.ErrorMessage?) && Sound(c.state.chain)
  {
    var s := c.state;
    var f := if k.ErrorCode? then Add(w, s.chain, "error_code", k.code, "")
             else Add(w, s.chain, "error_message", k.message, "");
    var s' := s.(chain := f.chain);
    if f.error.Some? then Raise(c, rest, LeftState(s'), f.error.value)
    else if k.ErrorCode? then c.(state := s', work := Cons(ErrorMessage(k.c, k.message, k.caller), rest))
    else Opening(c, s', PlanWork(w, Body(k.c, k.caller, s'), Cons(Caught, rest)))
  }

  function TryStep(w: Program, n: nat, caller: int, c: Config, rest: List<Work>): Config
    requires |c.state.chain| > 0
  {
    if c.raised.None? then Flushed(c, c.state, rest, None)
    else match Child(w, n, "catch")
      case None => Dropped(c, c.state, rest, c.raised)
      case Some(k) =>
        var e, s := c.raised.value, c.state.(chain := Enter(c.state.chain));
        var first := if e.App? then ErrorCode(k, e.code, Message(e), caller) else ErrorMessage(k, Message(e), caller);
        Dropped(c, s, Cons(first, rest), None)
  }

  /** The end of a tag, behind what it contains. */
  function AfterStep(w: Program, n: nat, caller: int, call: Option<Call>, c: Config, rest: List<Work>): Config
    requires Sound(c.state.chain)
  {
    var s := c.state;
    match At(w, n).kind
    case Var => Flushed(c, LeftState(s), rest, c.raised)
    case Switch => Flushed(c, LeftState(s), rest, if c.raised == Some(CaseDone) then None else c.raised)
    case Usr => Flushed(c, State(LeftState(s).chain, Popped(s.exec)), rest, c.raised)
    case CallByName => Flushed(c, State(LeftState(s).chain, Popped(s.exec)), rest, c.raised)
    case Set =>
      if c.raised.Some? then Dropped(c, s, rest, c.raised)
      else (match Parameter(w, n, "name", s.chain)
            case Fault(e) => Dropped(c, s, rest, Some(e))
            case Value(names) => Dropped(c, s, Cons(Assign(Names(w, names), c.out), rest), None))
    case Case => Flushed(c, s, rest, if c.raised.None? then Some(CaseDone) else c.raised)
    case Try => TryStep(w, n, caller, c, rest)
    case Throw => Dropped(c, s, rest, if c.raised.Some? then c.raised else ErrorOf(ThrowWith(w, n, s, c.out).outcome))
    case While => Flushed(c, s, if c.raised.None? then Cons(Tag(n, caller), rest) else rest, c.raised)
    case Execute =>
      var s' := if c.raised.None? && call.Some? then s.(exec := s.exec + [call.value]) else s;
      Flushed(c, s', rest, c.raised)
    case _ => Flushed(c, s, rest, c.raised)
  }

  /** One step; a machine with nothing left to do stands still. */
  function Step(w: Program, c: Config): Config {
    if c.work.Nil? || !Sound(c.state.chain) then c
    else
      var k, rest := c.work.head, c.work.tail;
      if c.raised.Some? && !k.After? && !k.Caught? then c.(work := rest)
      else match k
        case Tag(n, caller) => TagStep(w, n, caller, c, rest)
        case Children(children, caller) =>
          if children == [] then c.(work := rest)
          else c.(work := Cons(Tag(children[0], caller), Cons(Children(children[1..], caller), rest)))
        case Text(n) => c.(work := rest, out := c.out + At(w, n).text)
        case Vars(n, names, caller) => VarsStep(w, n, names, caller, c, rest)
        case Params(_, _, _, _, _) => ParamsStep(w, k, c, rest)
        case After(n, caller, call) => AfterStep(w, n, caller, call, c, rest)
        case Assign(names, value) => AssignStep(names, value, c, rest)
        case ErrorCode(_, _, _, _) => ErrorStep(w, k, c, rest)
        case ErrorMessage(_, _, _) => ErrorStep(w, k, c, rest)
        case Caught => Flushed(c, LeftState(c.state), rest, c.raised)
  }

  /** The machine alone after `k` steps. */
  function Solo(w: Program, c: Config, k: nat): Config
    decreases k
  {
    if k == 0 then c else Solo(w, Step(w, c), k - 1)
  }

  lemma {:induction false} SoloThen(w: Program, c: Config, a: nat, b: nat)
    ensures Solo(w, c, a + b) == Solo(w, Solo(w, c, a), b)
    decreases a
  {
    hide Step;
    if a > 0 {
      SoloThen(w, Step(w, c), a - 1, b);
    }
  }

  lemma SoloOne(w: Program, c: Config)
    ensures Solo(w, c, 1) == Step(w, c) && Solo(w, c, 0) == c
  {
    hide Step;
    assert Solo(w, Step(w, c), 0) == Step(w, c);
  }

  // -------- the loops of a tag --------

  /** Declares the names, or leaves the layer with the error, and begins the body. */
  lemma {:induction false} VarsSolo(w: Program, n: nat, names: seq<string>, caller: int, c: Config, rest: List<Work>)
    returns (k: nat)
    requires Sound(c.state.chain) && c.raised.None? && c.work == Cons(Vars(n, names, caller), rest)
    ensures var f := AddVars(w, n, names, c.state.chain); var s := c.state.(chain := f.chain);
      Solo(w, c, k) == if f.error.Some? then Raise(c, rest, LeftState(s), f.error.value)
                       else Begin(w, n, caller, None, c, rest, Body(n, caller, s))
    decreases |names|
  {
    hide Add, Filled, Parameter, Solo, LeftState, PlanWork;
    SoloOne(w, c);
    k := 1;
    var chain := c.state.chain;
    if names != [] && Parameter(w, n, "type", chain).Value? && Parameter(w, n, "value", chain).Value? {
      var kind, value := Parameter(w, n, "type", chain).value, Parameter(w, n, "value", chain).value;
      var f := Add(w, chain, names[0], value, if kind == "" then "local" else kind);
      if f.error.None? {
        FilledSound(chain, f.chain);
        var k' := VarsSolo(w, n, names[1..], caller, Step(w, c), rest);
        SoloThen(w, c, 1, k');
        k := 1 + k';
      }
    }
  }

  /** Declares the parameters, or leaves the layer with the error; then the definition. */
  lemma {:induction false} ParamsSolo(w: Program, p: Work, c: Config, rest: List<Work>) returns (k: nat)
    requires p.Params? && Sound(c.state.chain) && c.raised.None? && c.work == Cons(p, rest)
    ensures var f := AddParams(w, p.params, c.state.chain); var s := c.state.(chain := f.chain);
      Solo(w, c, k) ==
        if f.error.Some? then Raise(c, rest, LeftState(s), f.error.value)
        else if p.target.None? then
          Raise(c, rest, LeftState(s), Plain("custom tag '" + p.name + "' is not defined at this scope"))
        else
          var to := s.(exec := s.exec + [Call(p.n, Tags(s.exec))]);
          Begin(w, p.n, p.caller, None, c, rest, Run(p.target.value, p.n, to))
    decreases |p.params|
  {
    hide Add, Filled, Eval, Solo, LeftState, PlanWork;
    SoloOne(w, c);
    k := 1;
    var chain := c.state.chain;
    if p.params != [] && Eval(w, p.params[0].1, chain).Value? {
      var f := Add(w, chain, p.params[0].0, Eval(w, p.params[0].1, chain).value, "");
      if f.error.None? {
        FilledSound(chain, f.chain);
        var k' := ParamsSolo(w, p.(params := p.params[1..]), Step(w, c), rest);
        SoloThen(w, c, 1, k');
        k := 1 + k';
      }
    }
  }

  lemma {:induction false} AssignSolo(w: Program, names: seq<string>, value: string, c: Config, rest: List<Work>)
    returns (k: nat)
    requires Sound(c.state.chain) && c.raised.None? && c.work == Cons(Assign(names, value), rest)
    ensures var f := SetVars(names, value, c.state.chain);
      Solo(w, c, k) == c.(state := c.state.(chain := f.chain), work := rest, raised := f.error)
    decreases |names|
  {
    hide Variables.SetValue, Kept, Solo;
    SoloOne(w, c);
    k := 1;
    var chain := c.state.chain;
    if names != [] && SetValue(chain, names[0], value).Ok? {
      SetKeeps(chain, names[0], value);
      KeptSound(chain, SetValue(chain, names[0], value).chain);
      var k' := AssignSolo(w, names[1..], value, Step(w, c), rest);
      SoloThen(w, c, 1, k');
      k := 1 + k';
    }
  }

  /** The variables of a catch, and then its children. */
  lemma ErrorsSolo(w: Program, h: nat, e: Exception, caller: int, c: Config, rest: List<Work>) returns (k: nat)
    requires Sound(c.state.chain) && c.raised.None?
    requires c.work == Cons(if e.App? then ErrorCode(h, e.code, Message(e), caller)
                            else ErrorMessage(h, Message(e), caller), rest)
    ensures var f := AddError(w, e, c.state.chain); var s := c.state.(chain := f.chain);
      Solo(w, c, k) == if f.error.Some? then Raise(c, rest, LeftState(s), f.error.value)
                       else Opening(c, s, PlanWork(w, Body(h, caller, s), Cons(Caught, rest)))
  {
    hide Add, Filled, Solo, LeftState, PlanWork;
    SoloOne(w, c);
    k := 1;
    if e.App? {
      var f := Add(w, c.state.chain, "error_code", e.code, "");
      if f.error.None? {
        FilledSound(c.state.chain, f.chain);
        SoloOne(w, Step(w, c));
        SoloThen(w, c, 1, 1);
        k := 2;
      }
    }
  }

  // -------- a tag --------

  /** Up to where a tag runs something, or to its end. */
  lemma StartSolo(w: Program, n: nat, caller: int, c: Config, rest: List<Work>) returns (k: nat)
    requires Sound(c.state.chain) && c.raised.None? && c.work == Cons(Tag(n, caller), rest)
    ensures Solo(w, c, k) == Begin(w, n, caller, LastCall(w, n, c.state), c, rest, Start(w, n, caller, c.state))
  {
    hide Solo, PlanWork, Start, AddVars, AddParams, Parameter, Filled;
    SoloOne(w, c);
    k := 1;
    var s, t := c.state, At(w, n);
    EnterSound(s.chain);
    StartLayered(w, n, caller, s);
    var entered := s.(chain := Enter(s.chain));
    if t.kind.Var? {
      var names := Parameter(w, n, "name", entered.chain);
      if names.Value? {
        var k' := VarsSolo(w, n, Names(w, names.value), caller, Step(w, c), rest);
        SoloThen(w, c, 1, k');
        k := 1 + k';
      }
    } else if t.kind.Usr? || (t.kind.CallByName? && Parameter(w, n, "name", s.chain).Value?) {
      var k' := ParamsSolo(w, Step(w, c).work.head, Step(w, c), rest);
      SoloThen(w, c, 1, k');
      k := 1 + k';
    }
  }

  /** What `Start` is for the tags whose preparation takes several steps. */
  lemma StartLayered(w: Program, n: nat, caller: int, s: State)
    requires Sound(s.chain)
    ensures Sound(Enter(s.chain))
    ensures var t := At(w, n); var p := Start(w, n, caller, s); var entered := Enter(s.chain);
      && (t.kind.Var? ==> var names := Parameter(w, n, "name", entered);
            if names.Fault? then p == Stop(Fail(s, names.error))
            else Prepared(AddVars(w, n, Names(w, names.value), entered), s, p, Body(n, caller, s)))
      && (t.kind.Usr? ==>
            var target := if t.link >= 0 then Some(t.link) else Scoped(w, t.parent, t.name);
            ReadyToCall(w, n, t.name, t.params, target, s, p))
      && (t.kind.CallByName? ==> var name := Parameter(w, n, "name", s.chain);
            if name.Fault? then p == Stop(Fail(s, name.error))
            else ReadyToCall(w, n, name.value, Others(t.params), Scoped(w, t.parent, name.value), s, p))
  {
    hide AddVars, AddParams, Parameter, Filled, Kept, Scoped, Others;
    EnterSound(s.chain);
    LeaveEntered(s.chain);
    var t, entered := At(w, n), Enter(s.chain);
    if t.kind.Var? && Parameter(w, n, "name", entered).Value? {
      LeaveKeeps(s.chain, AddVars(w, n, Names(w, Parameter(w, n, "name", entered).value), entered).chain);
    } else if t.kind.Usr? {
      LeaveKeeps(s.chain, AddParams(w, t.params, entered).chain);
    } else if t.kind.CallByName? {
      LeaveKeeps(s.chain, AddParams(w, Others(t.params), entered).chain);
    }
  }

  lemma LeaveEntered(chain: Chain)
    requires |chain| > 0
    ensures Enter(chain)[0].layers != [] && Leave(Enter(chain)) == chain
  {
    assert Enter(chain)[0].layers[..|chain[0].layers|] == chain[0].layers;
  }

  /** The layer was filled: the tag goes on in it, or leaves it with the error. */
  ghost predicate Prepared(f: Filling, s: State, p: Plan, go: Plan)
    requires !go.Stop?
  {
    if f.error.Some? then p == Stop(Fail(LeftState(s.(chain := f.chain)), f.error.value))
    else
      var to := go.state.(chain := f.chain);
      p == if go.Run? then Run(go.node, go.caller, to) else Body(go.node, go.caller, to)
  }

  ghost predicate ReadyToCall(w: Program, n: nat, name: string, params: seq<(string, string)>, target: Option<nat>,
                              s: State, p: Plan)
    requires Sound(s.chain) && Sound(Enter(s.chain))
  {
    var f := AddParams(w, params, Enter(s.chain));
    if f.error.None? && target.None? then
      p == Stop(Fail(LeftState(s.(chain := f.chain)), Plain("custom tag '" + name + "' is not defined at this scope")))
    else
      var d := if target.Some? then target.value else 0;
      Prepared(f, s, p, Run(d, n, s.(exec := s.exec + [Call(n, Tags(s.exec))])))
  }

  // -------- whole runs --------

  lemma Leavable(kind: Kind, a: Chain, b: Chain)
    requires |a| > 0 && Opened(kind, a, b) && Layered(kind)
    ensures |b| > 0 && b[0].layers != []
  {
    hide Filled, Kept;
    LeaveKeeps(a, b);
  }

  /** What comes behind the contents of a tag: its end, its catch, or another round. */
  lemma NextSolo(w: Program, n: nat, caller: int, s: State, r: Result, rest: List<Work>, out: string,
                 outs: List<string>)
    returns (k: nat)
    requires Sound(s.chain) && Sound(r.state.chain) && Opened(At(w, n).kind, s.chain, r.state.chain)
    requires !r.outcome.Stuck? && (At(w, n).kind.Execute? ==> s.exec != [])
    ensures var q := Next(w, n, caller, s, r);
      var c := Config(r.state, Cons(After(n, caller, LastCall(w, n, s)), rest), r.out, Cons(out, outs),
                      ErrorOf(r.outcome));
      Solo(w, c, k) ==
        if q.Stop? then Ended(q.result, rest, out, outs)
        else if At(w, n).kind.Try? then Config(q.state, PlanWork(w, q, Cons(Caught, rest)), "", Cons(out, outs), None)
        else Config(q.state, PlanWork(w, q, rest), out + r.out, outs, None)
  {
    hide Solo, SetVars, AddError, Filled, Kept, Parameter, ThrowWith, Child, Enter, Leave;
    var kind := At(w, n).kind;
    var c := Config(r.state, Cons(After(n, caller, LastCall(w, n, s)), rest), r.out, Cons(out, outs),
                    ErrorOf(r.outcome));
    SoloOne(w, c);
    k := 1;
    assert out + "" == out;
    if Layered(kind) {
      Leavable(kind, s.chain, r.state.chain);
    } else if kind.Set? && r.outcome.Done? && Parameter(w, n, "name", r.state.chain).Value? {
      var k' := AssignSolo(w, Names(w, Parameter(w, n, "name", r.state.chain).value), r.out, Step(w, c), rest);
      SoloThen(w, c, 1, k');
      k := 1 + k';
    } else if kind.Try? && r.outcome.Raised? && Child(w, n, "catch").Some? {
      EnterSound(r.state.chain);
      CatchLeavable(w, r.outcome.error, r.state.chain);
      var k' := ErrorsSolo(w, Child(w, n, "catch").value, r.outcome.error, caller, Step(w, c), rest);
      SoloThen(w, c, 1, k');
      k := 1 + k';
    } else if kind.Throw? && r.outcome.Done? {
      ThrowSilent(w, n, r.state, r.out);
    }
  }

  lemma CatchLeavable(w: Program, e: Exception, chain: Chain)
    requires Sound(chain)
    ensures Sound(Enter(chain))
    ensures var f := AddError(w, e, Enter(chain)); |f.chain| > 0 && f.chain[0].layers != []
  {
    hide Filled, Kept, Add;
    EnterSound(chain);
    LeaveKeeps(chain, AddError(w, e, Enter(chain)).chain);
  }

  lemma ThrowSilent(w: Program, n: nat, s: State, message: string)
    ensures var r := ThrowWith(w, n, s, message); r.state == s && r.out == "" && r.outcome.Raised?
  {
  }

  /** Run alone, a tag ends as its meaning says, with what is behind it still to do. */
  lemma {:induction false} TagSolo(w: Program, n: nat, caller: int, s: State, fuel: nat, rest: List<Work>, out: string,
                                   outs: List<string>) returns (k: nat)
    requires Sound(s.chain) && !Exec(w, n, caller, s, fuel).outcome.Stuck?
    ensures Solo(w, Config(s, Cons(Tag(n, caller), rest), out, outs, None), k)
         == Ended(Exec(w, n, caller, s, fuel), rest, out, outs)
    decreases fuel, 0
  {
    hide Start, Next, Finish, Kept, Filled, Do, Solo, PlanWork, LastCall;
    var c := Config(s, Cons(Tag(n, caller), rest), out, outs, None);
    var kind, p, call := At(w, n).kind, Start(w, n, caller, s), LastCall(w, n, s);
    k := StartSolo(w, n, caller, c, rest);
    if p.Stop? {
      return;
    }
    OpenedSound(kind, s.chain, p.state.chain);
    var behind := Cons(After(n, caller, call), rest);
    var k1 := DoSolo(w, p, fuel - 1, behind, "", Cons(out, outs));
    var r := Do(w, p, fuel - 1);
    assert "" + r.out == r.out;
    SoloThen(w, c, k, k1);
    OpenedKept(kind, s.chain, p.state.chain, r.state.chain);
    OpenedSound(kind, s.chain, r.state.chain);
    ExecuteHasCall(w, n, caller, s);
    var k2 := NextSolo(w, n, caller, s, r, rest, out, outs);
    SoloThen(w, c, k + k1, k2);
    k := k + k1 + k2;
    var q := Next(w, n, caller, s, r);
    if !q.Stop? {
      var kind2 := if kind.Try? then Var else Group;
      OpenedSound(kind2, r.state.chain, q.state.chain);
      OpenedKept(kind2, r.state.chain, q.state.chain, Do(w, q, fuel - 1).state.chain);
      var k3 := SecondSolo(w, n, r, q, fuel - 1, rest, out, outs);
      SoloThen(w, c, k, k3);
      k := k + k3;
    }
  }

  lemma ExecuteHasCall(w: Program, n: nat, caller: int, s: State)
    requires Sound(s.chain)
    ensures !Start(w, n, caller, s).Stop? && At(w, n).kind.Execute? ==> s.exec != []
  {
    hide Filled, Kept;
  }

  /** The catch of a try, or another round of a while. */
  lemma {:induction false} SecondSolo(w: Program, n: nat, r: Result, q: Plan, fuel: nat, rest: List<Work>, out: string,
                                      outs: List<string>) returns (k: nat)
    requires |r.state.chain| > 0 && !q.Stop? && Sound(q.state.chain) && !Do(w, q, fuel).outcome.Stuck?
    requires Opened(if At(w, n).kind.Try? then Var else Group, r.state.chain, q.state.chain)
    requires Opened(if At(w, n).kind.Try? then Var else Group, r.state.chain, Do(w, q, fuel).state.chain)
    ensures
      var c := if At(w, n).kind.Try? then Config(q.state, PlanWork(w, q, Cons(Caught, rest)), "", Cons(out, outs), None)
               else Config(q.state, PlanWork(w, q, rest), out + r.out, outs, None);
      Solo(w, c, k) == Ended(Finish(w, n, r, Do(w, q, fuel)), rest, out, outs)
    decreases fuel, 3
  {
    hide Kept, Filled, Do, Solo, PlanWork;
    var r2 := Do(w, q, fuel);
    if At(w, n).kind.Try? {
      k := DoSolo(w, q, fuel, Cons(Caught, rest), "", Cons(out, outs));
      assert "" + r2.out == r2.out;
      var c := Config(q.state, PlanWork(w, q, Cons(Caught, rest)), "", Cons(out, outs), None);
      Leavable(Var, r.state.chain, r2.state.chain);
      OpenedStillSound(r.state.chain, r2.state.chain, q.state.chain);
      SoloThen(w, c, k, 1);
      SoloOne(w, Solo(w, c, k));
      k := k + 1;
    } else {
      k := DoSolo(w, q, fuel, rest, out + r.out, outs);
      Assoc(out, r.out, r2.out);
    }
  }

  lemma OpenedStillSound(a: Chain, b: Chain, c: Chain)
    requires |a| > 0 && Opened(Var, a, b) && Opened(Var, a, c) && Sound(c)
    ensures Sound(b)
  {
    forall i | 0 <= i < |b| ensures |b[i].layers| > 0 {
      assert Grown(Enter(a)[i].layers, b[i].layers) && Grown(Enter(a)[i].layers, c[i].layers);
    }
  }

  lemma {:induction false} DoSolo(w: Program, p: Plan, fuel: nat, rest: List<Work>, out: string, outs: List<string>)
    returns (k: nat)
    requires !p.Stop? && Sound(p.state.chain) && !Do(w, p, fuel).outcome.Stuck?
    ensures Solo(w, Config(p.state, PlanWork(w, p, rest), out, outs, None), k) == Ended(Do(w, p, fuel), rest, out, outs)
    decreases fuel, 2
  {
    hide Kept, Exec, ExecAll, Solo;
    var c := Config(p.state, PlanWork(w, p, rest), out, outs, None);
    if p.Run? {
      k := TagSolo(w, p.node, p.caller, p.state, fuel, rest, out, outs);
    } else {
      var children := At(w, p.node).children;
      k := AllSolo(w, children, p.caller, p.state, fuel, Cons(Text(p.node), rest), out, outs);
      var r := ExecAll(w, children, p.caller, p.state, fuel);
      KeptSound(p.state.chain, r.state.chain);
      SoloThen(w, c, k, 1);
      SoloOne(w, Solo(w, c, k));
      Assoc(out, r.out, At(w, p.node).text);
      k := k + 1;
    }
  }

  lemma {:induction false} AllSolo(w: Program, children: seq<nat>, caller: int, s: State, fuel: nat, rest: List<Work>,
                                   out: string,
                                   outs: List<string>) returns (k: nat)
    requires Sound(s.chain) && !ExecAll(w, children, caller, s, fuel).outcome.Stuck?
    ensures Solo(w, Config(s, Cons(Children(children, caller), rest), out, outs, None), k)
         == Ended(ExecAll(w, children, caller, s, fuel), rest, out, outs)
    decreases fuel, 1, |children|
  {
    hide Kept, Exec, Solo;
    var c := Config(s, Cons(Children(children, caller), rest), out, outs, None);
    SoloOne(w, c);
    k := 1;
    assert out + "" == out;
    if children != [] {
      var behind := Cons(Children(children[1..], caller), rest);
      var r := Exec(w, children[0], caller, s, fuel);
      KeptSound(s.chain, r.state.chain);
      var k1 := TagSolo(w, children[0], caller, s, fuel, behind, out, outs);
      SoloThen(w, c, 1, k1);
      k := 1 + k1;
      if r.outcome.Raised? {
        SoloThen(w, c, k, 1);
        SoloOne(w, Solo(w, c, k));
        k := k + 1;
      } else {
        var k2 := AllSolo(w, children[1..], caller, r.state, fuel, rest, out + r.out, outs);
        Assoc(out, r.out, ExecAll(w, children[1..], caller, r.state, fuel).out);
        SoloThen(w, c, k, k2);
        k := k + k2;
      }
    }
  }

  // -------- what a step does to the parents of the context --------

  lemma AddKeepsLength(w: Program, chain: Chain, name: string, value: string, kind: string)
    requires Sound(chain)
    ensures var f := Add(w, chain, name, value, kind); |f.chain| == |chain| && f.chain[0].kind == chain[0].kind
  {
    hide AddValue;
  }

  /** Whether adding a variable goes past the context itself. */
  predicate AddsToParent(w: Program, own: Frame, kind: string) {
    !w.same(if kind == "" then own.kind else kind, own.kind)
  }

  lemma AddToOwn(w: Program, chain: Chain, name: string, value: string, kind: string)
    requires Sound(chain) && !AddsToParent(w, chain[0], kind)
    ensures var f := Add(w, chain, name, value, kind); f.chain[1..] == chain[1..] && f.error.None?
  {
    hide OnTop, Upper;
  }

  lemma LayersOnly(s: State)
    requires |s.chain| > 0
    ensures |Enter(s.chain)| == |s.chain| && Enter(s.chain)[1..] == s.chain[1..]
        && Enter(s.chain)[0].kind == s.chain[0].kind
    ensures var l := LeftState(s);
      |l.chain| == |s.chain| && l.chain[1..] == s.chain[1..] && l.chain[0].kind == s.chain[0].kind
  {
  }

  /** Whether the next step assigns a variable of a context other than the thread's own. */
  predicate AssignsShared(w: Program, c: Config) {
    && c.work.Cons? && Sound(c.state.chain) && c.raised.None?
    && var chain := c.state.chain;
       match c.work.head
       case Tag(n, _) => At(w, n).kind.Switch? && AddsToParent(w, chain[0], "")
       case Vars(n, names, _) =>
         var kind := Parameter(w, n, "type", chain);
         names != [] && kind.Value? && AddsToParent(w, chain[0], if kind.value == "" then "local" else kind.value)
       case Params(_, params, _, _, _) => params != [] && AddsToParent(w, chain[0], "")
       case Assign(names, value) => names != [] && SetLayers(chain[0].layers, Upper(names[0]), value).None?
       case ErrorCode(_, _, _, _) => AddsToParent(w, chain[0], "")
       case ErrorMessage(_, _, _) => AddsToParent(w, chain[0], "")
       case _ => false
  }

  /** The state of a machine but for what only the thread itself sees. */
  predicate SameParents(a: State, b: State) {
    |a.chain| > 0 && |b.chain| == |a.chain| && b.chain[1..] == a.chain[1..] && b.chain[0].kind == a.chain[0].kind
  }

  predicate SameSize(a: State, b: State) {
    |a.chain| > 0 && |b.chain| == |a.chain| && b.chain[0].kind == a.chain[0].kind
  }

  lemma StartParents(w: Program, n: nat, caller: int, s: State)
    requires Sound(s.chain) && !At(w, n).kind.Var? && !At(w, n).kind.Usr? && !At(w, n).kind.CallByName?
    ensures var p := Start(w, n, caller, s); var s' := if p.Stop? then p.result.state else p.state;
      SameSize(s, s') && ((At(w, n).kind.Switch? && AddsToParent(w, s.chain[0], "")) || SameParents(s, s'))
  {
    hide Filled, Kept, Add, Parameter, ThrowWith, GetValue, Child, AddsToParent;
    if At(w, n).kind.Switch? {
      EnterSound(s.chain);
      LayersOnly(s);
      SwitchParents(w, n, caller, s);
    } else if At(w, n).kind.Throw? {
      forall message: string ensures ThrowWith(w, n, s, message).state == s {
        ThrowSilent(w, n, s, message);
      }
    }
  }

  lemma SwitchParents(w: Program, n: nat, caller: int, s: State)
    requires Sound(s.chain)
    ensures var p := StartSwitch(w, n, caller, s); var s' := if p.Stop? then p.result.state else p.state;
      SameSize(s, s') && (AddsToParent(w, s.chain[0], "") || SameParents(s, s'))
  {
    hide Filled, Kept, Add, Parameter, AddsToParent;
    EnterSound(s.chain);
    LayersOnly(s);
    LeaveEntered(s.chain);
    var test := Parameter(w, n, "test", Enter(s.chain));
    if test.Value? {
      var entered := Enter(s.chain);
      AddKeepsLength(w, entered, SWITCH, test.value, "");
      KindDecides(w, entered[0], s.chain[0], "");
      if !AddsToParent(w, entered[0], "") {
        AddToOwn(w, entered, SWITCH, test.value, "");
      }
      LeaveKeeps(s.chain, Add(w, entered, SWITCH, test.value, "").chain);
    }
  }

  lemma KindDecides(w: Program, a: Frame, b: Frame, kind: string)
    requires a.kind == b.kind
    ensures AddsToParent(w, a, kind) == AddsToParent(w, b, kind)
  {
  }

  /** A step keeps the chain's length, and its parents unless it assigns a variable of theirs. */
  lemma StepParents(w: Program, c: Config)
    requires |c.state.chain| > 0
    ensures var c' := Step(w, c); SameSize(c.state, c'.state) && (AssignsShared(w, c) || SameParents(c.state, c'.state))
  {
    hide Filled, Kept, Add, Parameter, Eval, ThrowWith, Start;
    hide AddsToParent, Scoped, Others, Child, PlanWork, LeftState, Enter, Sound;
    hide Variables.SetValue, SetLayers;
    if c.work.Cons? && Sound(c.state.chain) {
      var s := c.state;
      LayersOnly(s);
      match c.work.head
      case Tag(n, caller) =>
        if !At(w, n).kind.Var? && !At(w, n).kind.Usr? && !At(w, n).kind.CallByName? {
          StartParents(w, n, caller, s);
        }
      case Vars(n, names, _) =>
        var kind, value := Parameter(w, n, "type", s.chain), Parameter(w, n, "value", s.chain);
        if names != [] && kind.Value? && value.Value? {
          AddParents(w, s, names[0], value.value, if kind.value == "" then "local" else kind.value);
        }
      case Params(_, params, _, _, _) =>
        if params != [] && Eval(w, params[0].1, s.chain).Value? {
          AddParents(w, s, params[0].0, Eval(w, params[0].1, s.chain).value, "");
        }
      case Assign(names, value) =>
        if names != [] {
          SetParents(s, names[0], value);
        }
      case ErrorCode(_, code, _, _) => AddParents(w, s, "error_code", code, "");
      case ErrorMessage(_, message, _) => AddParents(w, s, "error_message", message, "");
      case _ =>
    }
  }

  lemma AddParents(w: Program, s: State, name: string, value: string, kind: string)
    requires Sound(s.chain)
    ensures var s' := s.(chain := Add(w, s.chain, name, value, kind).chain);
      && SameSize(s, s') && SameSize(s, LeftState(s'))
      && (AddsToParent(w, s.chain[0], kind) || (SameParents(s, s') && SameParents(s, LeftState(s'))))
  {
    hide Add, Filled, AddsToParent;
    AddKeepsLength(w, s.chain, name, value, kind);
    LayersOnly(s.(chain := Add(w, s.chain, name, value, kind).chain));
    if !AddsToParent(w, s.chain[0], kind) {
      AddToOwn(w, s.chain, name, value, kind);
    }
  }

  lemma SetParents(s: State, name: string, value: string)
    requires Sound(s.chain)
    ensures var r := SetValue(s.chain, name, value);
      r.Ok? ==> (SameSize(s, s.(chain := r.chain))
                 && (SetLayers(s.chain[0].layers, Upper(name), value).None? || SameParents(s, s.(chain := r.chain))))
  {
    hide SetLayers, Upper;
  }
}
