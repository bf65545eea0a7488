/** The meaning of scripts: what each kind of tag does to the variables, to the call
    stack of custom tags and to the output. Runs are cut off after `fuel` nested steps. */
module Interpreter {
  import opened Basics
  import opened Variables

  // -------- scripts --------

  /** `Group` stands for tags that only run what they contain. */
  datatype Kind =
    | Group | Expression | Var | Set | Switch | Case | Try | Catch | Throw | While
    | Usr | CallByName | Definition | Execute

  /** Tags are known by numbers, NULL being none. A definition of the custom tag "x" is
      called "@x". `link` is the definition found while parsing. */
  datatype Node = Node(kind: Kind, name: string, text: string, params: seq<(string, string)>,
                       parent: int, children: seq<nat>, link: int)

  const NULL := -1

  /** `CaseDone` is what a case raises to end its switch. */
  datatype Exception = App(message: string, code: string) | Plain(message: string) | CaseDone

  datatype Value = Value(value: string) | Fault(error: Exception)

  /** The tags, and what is not defined by them: the value of an expression, the names in
      a list of names, whether types of variables agree, and an error code's number. */
  datatype World = World(
    node: nat -> Node,
    eval: (string, Chain) -> Value,
    names: string -> seq<string>,
    same: (string, string) -> bool,
    number: string -> Value)

  /** A parent is created before its children. */
  type Program = w: World | forall n :: NULL <= w.node(n).parent < n
    witness World(n => Node(Group, "", "", [], NULL, [], NULL), (t, c) => Value(""), s => [], (a, b) => a == b,
                  s => Value(s))

  function At(w: Program, n: nat): (t: Node)
    ensures NULL <= t.parent < n
  {
    w.node(n)
  }

  function Eval(w: Program, text: string, chain: Chain): Value {
    w.eval(text, chain)
  }

  function Names(w: Program, list: string): seq<string> {
    w.names(list)
  }

  function Number(w: Program, text: string): Value {
    w.number(text)
  }

  function ParamText(params: seq<(string, string)>, name: string): Option<string> {
    if params == [] then None
    else if params[0].0 == name then Some(params[0].1)
    else ParamText(params[1..], name)
  }

  function Parameter(w: Program, n: nat, name: string, chain: Chain): Value {
    match ParamText(At(w, n).params, name)
    case None => Value("")
    case Some(text) => Eval(w, text, chain)
  }

  function ChildAmong(w: Program, children: seq<nat>, name: string): Option<nat> {
    if children == [] then None
    else if At(w, children[0]).name == name then Some(children[0])
    else ChildAmong(w, children[1..], name)
  }

  function Child(w: Program, n: nat, name: string): Option<nat> {
    ChildAmong(w, At(w, n).children, name)
  }

  /** The definition of a custom tag that is in scope at a tag or above it. */
  function Scoped(w: Program, n: int, name: string): Option<nat>
    decreases n
  {
    if n < 0 then None
    else match Child(w, n, "@" + name)
      case Some(d) => Some(d)
      case None => Scoped(w, At(w, n).parent, name)
  }

  // -------- states and results --------

  datatype State = State(chain: Chain, exec: seq<Call>)

  /** What a run notes about the call stack: that the block of a call ran, and what was
      on the stack then; that a call was taken off the stack and not put back. */
  datatype Note = Ran(call: Call, stack: seq<nat>) | Lost

  datatype Outcome = Done | Raised(error: Exception) | Stuck

  datatype Result = Result(state: State, out: string, outcome: Outcome, log: seq<Note>)

  function Quiet(s: State, out: string): Result {
    Result(s, out, Done, [])
  }

  function Fail(s: State, e: Exception): Result {
    Result(s, "", Raised(e), [])
  }

  function Spent(s: State): Result {
    Result(s, "", Stuck, [])
  }

  /** What a tag does next: it ends, it runs what a tag contains, or it runs a tag. */
  datatype Plan =
    | Stop(result: Result)
    | Body(node: nat, caller: int, state: State)
    | Run(node: nat, caller: int, state: State)

  // -------- filling a layer with variables --------

  datatype Filling = Filling(chain: Chain, error: Option<Exception>)

  function Add(w: Program, chain: Chain, name: string, value: string, kind: string): (r: Filling)
    requires Sound(chain)
    ensures Filled(chain, r.chain)
  {
    AddFills(w.same, chain, name, value, kind);
    KeptSelf(chain);
    match AddValue(w.same, chain, name, value, kind)
    case Ok(c) => Filling(c, None)
    case Err(message) => Filling(chain, Some(Plain(message)))
  }

  /** The loop of `var` over the names it declares. */
  function AddVars(w: Program, n: nat, names: seq<string>, chain: Chain): (r: Filling)
    requires Sound(chain)
    ensures Filled(chain, r.chain)
  {
    hide Filled;
    KeptSelf(chain);
    if names == [] then Filling(chain, None)
    else match Parameter(w, n, "type", chain)
      case Fault(e) => Filling(chain, Some(e))
      case Value(kind) =>
        match Parameter(w, n, "value", chain)
        case Fault(e) => Filling(chain, Some(e))
        case Value(value) =>
          var added := Add(w, chain, names[0], value, if kind == "" then "local" else kind);
          if added.error.Some? then added
          else
            FilledSound(chain, added.chain);
            var later := AddVars(w, n, names[1..], added.chain);
            FilledTrans(chain, added.chain, later.chain);
            later
  }

  /** The loop of a call over its parameters. */
  function AddParams(w: Program, params: seq<(string, string)>, chain: Chain): (r: Filling)
    requires Sound(chain)
    ensures Filled(chain, r.chain)
  {
    hide Filled;
    KeptSelf(chain);
    if params == [] then Filling(chain, None)
    else match Eval(w, params[0].1, chain)
      case Fault(e) => Filling(chain, Some(e))
      case Value(value) =>
        var added := Add(w, chain, params[0].0, value, "");
        if added.error.Some? then added
        else
          FilledSound(chain, added.chain);
          var later := AddParams(w, params[1..], added.chain);
          FilledTrans(chain, added.chain, later.chain);
          later
  }

  /** The loop of `set` over the names it assigns. */
  function SetVars(names: seq<string>, value: string, chain: Chain): (r: Filling)
    requires |chain| > 0
    ensures Kept(chain, r.chain)
  {
    hide Kept;
    KeptSelf(chain);
    if names == [] then Filling(chain, None)
    else
      SetKeeps(chain, names[0], value);
      match SetValue(chain, names[0], value)
      case Err(message) => Filling(chain, Some(Plain(message)))
      case Ok(c) =>
        var later := SetVars(names[1..], value, c);
        KeptTrans(chain, c, later.chain);
        later
  }

  function Others(params: seq<(string, string)>): seq<(string, string)> {
    if params == [] then []
    else (if params[0].0 != "name" then [params[0]] else []) + Others(params[1..])
  }

  const SWITCH := "@DBP:SWITCH@"

  function Message(e: Exception): string {
    if e.CaseDone? then "" else e.message
  }

  /** The variables of a catch. */
  function AddError(w: Program, e: Exception, chain: Chain): (r: Filling)
    requires Sound(chain)
    ensures Filled(chain, r.chain)
  {
    hide Filled;
    if !e.App? then Add(w, chain, "error_message", Message(e), "")
    else
      var coded := Add(w, chain, "error_code", e.code, "");
      if coded.error.Some? then coded
      else
        FilledSound(chain, coded.chain);
        var r := Add(w, coded.chain, "error_message", Message(e), "");
        FilledTrans(chain, coded.chain, r.chain);
        r
  }

  // -------- layers a tag opens --------

  predicate Layered(kind: Kind) {
    kind.Var? || kind.Switch? || kind.Usr? || kind.CallByName?
  }

  /** The chain `b` while the tag runs what it contains, `a` being the chain before. */
  predicate Opened(kind: Kind, a: Chain, b: Chain)
    requires |a| > 0
  {
    if Layered(kind) then Filled(Enter(a), b) else Kept(a, b)
  }

  predicate Starts(p: Plan, kind: Kind, a: Chain)
    requires |a| > 0
  {
    if p.Stop? then Kept(a, p.result.state.chain) else Opened(kind, a, p.state.chain)
  }

  function Left(s: State): (r: State)
    requires |s.chain| > 0 && s.chain[0].layers != []
  {
    s.(chain := Leave(s.chain))
  }

  /** Goes on with the layer that was entered and filled, or leaves it with the error. */
  function WithLayer(a: Chain, f: Filling, exec: seq<Call>, go: Plan): (p: Plan)
    requires |a| > 0 && Filled(Enter(a), f.chain) && !go.Stop?
    requires go.state.chain == f.chain
    ensures p.Stop? ==> Kept(a, p.result.state.chain)
    ensures !p.Stop? ==> p == go
  {
    LeaveKeeps(a, f.chain);
    match f.error
    case Some(e) => Stop(Fail(State(Leave(f.chain), exec), e))
    case None => go
  }

  function StartVar(w: Program, n: nat, caller: int, s: State): (p: Plan)
    requires Sound(s.chain)
    ensures p.Stop? ==> Kept(s.chain, p.result.state.chain)
    ensures !p.Stop? ==> Filled(Enter(s.chain), p.state.chain)
  {
    hide Filled, Kept;
    EnterSound(s.chain);
    var entered := Enter(s.chain);
    KeptSelf(entered);
    var f := match Parameter(w, n, "name", entered)
      case Fault(e) => Filling(entered, Some(e))
      case Value(names) => AddVars(w, n, Names(w, names), entered);
    WithLayer(s.chain, f, s.exec, Body(n, caller, State(f.chain, s.exec)))
  }

  /** The end of a switch: it takes the exception by which a case ends it. */
  function SwitchEnd(r: Result): Result {
    if r.outcome == Raised(CaseDone) then r.(outcome := Done) else r
  }

  function StartSwitch(w: Program, n: nat, caller: int, s: State): (p: Plan)
    requires Sound(s.chain)
    ensures p.Stop? ==> Kept(s.chain, p.result.state.chain)
    ensures !p.Stop? ==> Filled(Enter(s.chain), p.state.chain)
  {
    hide Filled, Kept;
    EnterSound(s.chain);
    var entered := Enter(s.chain);
    KeptSelf(entered);
    var f := match Parameter(w, n, "test", entered)
      case Fault(e) => Filling(entered, Some(e))
      case Value(test) => Add(w, entered, SWITCH, test, "");
    var p := WithLayer(s.chain, f, s.exec, Body(n, caller, State(f.chain, s.exec)));
    if p.Stop? then Stop(SwitchEnd(p.result)) else p
  }

  function StartCase(w: Program, n: nat, caller: int, s: State): Plan {
    match Parameter(w, n, "match", s.chain)
    case Fault(e) => Stop(Fail(s, e))
    case Value(p) => if p == "" || GetValue(s.chain, SWITCH) == p then Body(n, caller, s) else Stop(Quiet(s, ""))
  }

  function ThrowWith(w: Program, n: nat, s: State, message: string): Result {
    match Parameter(w, n, "code", s.chain)
    case Fault(e) => Fail(s, e)
    case Value(code) =>
      if code == "" then Fail(s, Plain(message))
      else match Number(w, code)
        case Fault(e) => Fail(s, e)
        case Value(number) => Fail(s, App(message, number))
  }

  function StartThrow(w: Program, n: nat, caller: int, s: State): Plan {
    match Parameter(w, n, "message", s.chain)
    case Fault(e) => Stop(Fail(s, e))
    case Value(message) => if message == "" then Body(n, caller, s) else Stop(ThrowWith(w, n, s, message))
  }

  function StartWhile(w: Program, n: nat, caller: int, s: State): Plan {
    match Parameter(w, n, "test", s.chain)
    case Fault(e) => Stop(Fail(s, e))
    case Value(test) => if test == "1" then Body(n, caller, s) else Stop(Quiet(s, ""))
  }

  /** Calls a custom tag: its parameters become variables, then its definition runs with
      the call on the stack. */
  function StartCall(w: Program, n: nat, name: string, params: seq<(string, string)>, target: Option<nat>,
                     s: State): (p: Plan)
    requires Sound(s.chain)
    ensures p.Stop? ==> Kept(s.chain, p.result.state.chain)
    ensures !p.Stop? ==> Filled(Enter(s.chain), p.state.chain)
  {
    hide Filled, Kept;
    EnterSound(s.chain);
    var f := AddParams(w, params, Enter(s.chain));
    match target
    case Some(d) => WithLayer(s.chain, f, s.exec, Run(d, n, State(f.chain, s.exec + [Call(n, Tags(s.exec))])))
    case None =>
      var error := if f.error.Some? then f.error.value
          else Plain("custom tag '" + name + "' is not defined at this scope");
      WithLayer(s.chain, f.(error := Some(error)), s.exec, Body(n, NULL, State(f.chain, s.exec)))
  }

  function StartUsr(w: Program, n: nat, s: State): (p: Plan)
    requires Sound(s.chain)
    ensures p.Stop? ==> Kept(s.chain, p.result.state.chain)
    ensures !p.Stop? ==> Filled(Enter(s.chain), p.state.chain)
  {
    var t := At(w, n);
    StartCall(w, n, t.name, t.params, if t.link >= 0 then Some(t.link) else Scoped(w, t.parent, t.name), s)
  }

  function StartCallByName(w: Program, n: nat, s: State): (p: Plan)
    requires Sound(s.chain)
    ensures p.Stop? ==> Kept(s.chain, p.result.state.chain)
    ensures !p.Stop? ==> Filled(Enter(s.chain), p.state.chain)
  {
    hide Filled, Kept;
    KeptSelf(s.chain);
    match Parameter(w, n, "name", s.chain)
    case Fault(e) => Stop(Fail(s, e))
    case Value(name) => StartCall(w, n, name, Others(At(w, n).params), Scoped(w, At(w, n).parent, name), s)
  }

  function StartDefinition(w: Program, n: nat, caller: int, s: State): Plan {
    if caller >= 0 && (At(w, caller).kind.Usr? || At(w, caller).kind.CallByName?) then Body(n, caller, s)
    else Stop(Quiet(s, ""))
  }

  /** Takes the call off the stack and runs its block, or the part of it that has the
      given name. */
  function StartExecute(w: Program, n: nat, s: State): Plan {
    if s.exec == [] then Stop(Quiet(s, ""))
    else
      var c, rest := s.exec[|s.exec| - 1].tag, State(s.chain, s.exec[..|s.exec| - 1]);
      match Parameter(w, n, "name", s.chain)
      case Fault(e) => Stop(Result(rest, "", Raised(e), [Lost]))
      case Value(name) =>
        if name == "" then Body(c, n, rest)
        else match Child(w, c, "@" + name)
          case None => Stop(Quiet(s, ""))
          case Some(t) => Run(t, c, rest)
  }

  function Start(w: Program, n: nat, caller: int, s: State): (p: Plan)
    requires Sound(s.chain)
    ensures Starts(p, At(w, n).kind, s.chain)
  {
    hide Filled, Kept;
    KeptSelf(s.chain);
    match At(w, n).kind
    case Group => Body(n, caller, s)
    case Expression =>
      (match Eval(w, At(w, n).text, s.chain)
       case Value(v) => Stop(Quiet(s, v))
       case Fault(e) => Stop(Fail(s, e)))
    case Var => StartVar(w, n, caller, s)
    case Set => Body(n, caller, s)
    case Switch => StartSwitch(w, n, caller, s)
    case Case => StartCase(w, n, caller, s)
    case Try => Body(n, caller, s)
    case Catch => Stop(Quiet(s, ""))
    case Throw => StartThrow(w, n, caller, s)
    case While => StartWhile(w, n, caller, s)
    case Usr => StartUsr(w, n, s)
    case CallByName => StartCallByName(w, n, s)
    case Definition => StartDefinition(w, n, caller, s)
    case Execute => StartExecute(w, n, s)
  }

  // -------- after what a tag contains has run --------

  function NextSet(w: Program, n: nat, r: Result): (p: Plan)
    requires |r.state.chain| > 0
    ensures p.Stop? && Kept(r.state.chain, p.result.state.chain)
  {
    hide Kept;
    KeptSelf(r.state.chain);
    if !r.outcome.Done? then Stop(r.(out := ""))
    else match Parameter(w, n, "name", r.state.chain)
      case Fault(e) => Stop(Result(r.state, "", Raised(e), r.log))
      case Value(names) =>
        var f := SetVars(Names(w, names), r.out, r.state.chain);
        Stop(Result(r.state.(chain := f.chain), "", if f.error.Some? then Raised(f.error.value) else Done, r.log))
  }

  function NextTry(w: Program, n: nat, caller: int, r: Result): (p: Plan)
    requires Sound(r.state.chain)
    ensures p.Stop? ==> Kept(r.state.chain, p.result.state.chain)
    ensures !p.Stop? ==> Filled(Enter(r.state.chain), p.state.chain)
  {
    hide Kept, Filled;
    KeptSelf(r.state.chain);
    if !r.outcome.Raised? then Stop(r)
    else match Child(w, n, "catch")
      case None => Stop(r.(out := ""))
      case Some(c) =>
        EnterSound(r.state.chain);
        var f := AddError(w, r.outcome.error, Enter(r.state.chain));
        var p := WithLayer(r.state.chain, f, r.state.exec, Body(c, caller, State(f.chain, r.state.exec)));
        if p.Stop? then Stop(p.result.(log := r.log)) else p
  }

  function NextThrow(w: Program, n: nat, r: Result): (p: Plan)
    requires |r.state.chain| > 0
    ensures p.Stop? && Kept(r.state.chain, p.result.state.chain)
  {
    hide Kept;
    KeptSelf(r.state.chain);
    if !r.outcome.Done? then Stop(r.(out := ""))
    else Stop(ThrowWith(w, n, r.state, r.out).(log := r.log))
  }

  function NextCall(r: Result): Plan
    requires |r.state.chain| > 0 && r.state.chain[0].layers != []
  {
    Stop(r.(state := State(Leave(r.state.chain), Popped(r.state.exec))))
  }

  function Popped(exec: seq<Call>): seq<Call> {
    if exec == [] then [] else exec[..|exec| - 1]
  }

  /** `s` is the state before: its last call is put back unless an exception passes. */
  function NextExecute(w: Program, n: nat, s: State, r: Result): Plan {
    if s.exec == [] then Stop(r)
    else
      var call := s.exec[|s.exec| - 1];
      var ran := if Parameter(w, n, "name", s.chain) == Value("") then [Ran(call, Tags(Popped(s.exec)))] else [];
      if r.outcome.Done? then Stop(r.(state := r.state.(exec := r.state.exec + [call]), log := ran + r.log))
      else Stop(r.(log := ran + r.log + [Lost]))
  }

  function Next(w: Program, n: nat, caller: int, s: State, r: Result): (p: Plan)
    requires Sound(s.chain) && Sound(r.state.chain) && Opened(At(w, n).kind, s.chain, r.state.chain)
    ensures if p.Stop? then Kept(s.chain, p.result.state.chain)
      else Kept(s.chain, r.state.chain) && if At(w, n).kind.Try? then Filled(Enter(r.state.chain), p.state.chain)
                                           else Kept(r.state.chain, p.state.chain)
  {
    hide Kept, Filled;
    KeptSelf(r.state.chain);
    var kind := At(w, n).kind;
    if Layered(kind) then
      LeaveKeeps(s.chain, r.state.chain);
      if kind.Var? then Stop(r.(state := Left(r.state)))
      else if kind.Switch? then Stop(SwitchEnd(r.(state := Left(r.state))))
      else NextCall(r)
    else if kind.While? then
      if r.outcome.Done? then Run(n, caller, r.state) else Stop(r)
    else
      var p := match kind
        case Set => NextSet(w, n, r)
        case Case => Stop(if r.outcome.Done? then r.(outcome := Raised(CaseDone)) else r)
        case Try => NextTry(w, n, caller, r)
        case Throw => NextThrow(w, n, r)
        case Execute => NextExecute(w, n, s, r)
        case _ => Stop(r);
      if p.Stop? then
        KeptTrans(s.chain, r.state.chain, p.result.state.chain);
        p
      else p
  }

  /** The end of a tag that runs something twice: try its catch, while itself. */
  function Finish(w: Program, n: nat, r: Result, r2: Result): (e: Result)
    requires |r.state.chain| > 0
    requires if At(w, n).kind.Try? then Filled(Enter(r.state.chain), r2.state.chain)
        else Kept(r.state.chain, r2.state.chain)
    ensures Kept(r.state.chain, e.state.chain)
  {
    hide Kept, Filled;
    if At(w, n).kind.Try? then
      LeaveKeeps(r.state.chain, r2.state.chain);
      Result(Left(r2.state), r2.out, r2.outcome, r.log + r2.log)
    else Result(r2.state, r.out + r2.out, r2.outcome, r.log + r2.log)
  }

  // -------- runs --------

  /** Runs a tag. Whatever way it ends, the layers of the context and the names in them
      are what they were. */
  function Exec(w: Program, n: nat, caller: int, s: State, fuel: nat): (r: Result)
    requires Sound(s.chain)
    ensures Kept(s.chain, r.state.chain)
    decreases fuel, 0
  {
    hide Kept, Filled;
    KeptSelf(s.chain);
    if fuel == 0 then Spent(s)
    else
      var p := Start(w, n, caller, s);
      if p.Stop? then p.result
      else
        OpenedSound(At(w, n).kind, s.chain, p.state.chain);
        var r := Do(w, p, fuel - 1);
        OpenedKept(At(w, n).kind, s.chain, p.state.chain, r.state.chain);
        if r.outcome.Stuck? then Spent(s)
        else
          OpenedSound(At(w, n).kind, s.chain, r.state.chain);
          var q := Next(w, n, caller, s, r);
          if q.Stop? then q.result
          else
            var kind2 := if At(w, n).kind.Try? then Var else Group;
            OpenedSound(kind2, r.state.chain, q.state.chain);
            var r2 := Do(w, q, fuel - 1);
            OpenedKept(kind2, r.state.chain, q.state.chain, r2.state.chain);
            if r2.outcome.Stuck? then Spent(s)
            else
              var e := Finish(w, n, r, r2);
              KeptTrans(s.chain, r.state.chain, e.state.chain);
              e
  }

  function Do(w: Program, p: Plan, fuel: nat): (r: Result)
    requires !p.Stop? && Sound(p.state.chain)
    ensures Kept(p.state.chain, r.state.chain)
    decreases fuel, 2
  {
    hide Kept;
    if p.Run? then Exec(w, p.node, p.caller, p.state, fuel)
    else
      var r := ExecAll(w, At(w, p.node).children, p.caller, p.state, fuel);
      if r.outcome.Done? then r.(out := r.out + At(w, p.node).text) else r
  }

  function ExecAll(w: Program, children: seq<nat>, caller: int, s: State, fuel: nat): (r: Result)
    requires Sound(s.chain)
    ensures Kept(s.chain, r.state.chain)
    decreases fuel, 1, |children|
  {
    hide Kept;
    KeptSelf(s.chain);
    if children == [] then Quiet(s, "")
    else
      var r := Exec(w, children[0], caller, s, fuel);
      if r.outcome.Stuck? then Spent(s)
      else if r.outcome.Raised? then r
      else
        KeptSound(s.chain, r.state.chain);
        var later := ExecAll(w, children[1..], caller, r.state, fuel);
        KeptTrans(s.chain, r.state.chain, later.state.chain);
        if later.outcome.Stuck? then Spent(s)
        else Result(later.state, r.out + later.out, later.outcome, r.log + later.log)
  }

  lemma OpenedSound(kind: Kind, a: Chain, b: Chain)
    requires Sound(a) && Opened(kind, a, b)
    ensures Sound(b)
  {
    hide Kept, Filled;
    if Layered(kind) {
      EnterSound(a);
      FilledSound(Enter(a), b);
    } else {
      KeptSound(a, b);
    }
  }

  lemma OpenedKept(kind: Kind, a: Chain, b: Chain, c: Chain)
    requires |a| > 0 && Opened(kind, a, b) && Kept(b, c)
    ensures Opened(kind, a, c)
  {
    hide Kept, Filled;
    if Layered(kind) {
      KeptIsFilled(b, c);
      FilledTrans(Enter(a), b, c);
    } else {
      KeptTrans(a, b, c);
    }
  }
}
