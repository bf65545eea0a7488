/** The async tag: its children run in threads of their own, each with a local context on
    top of the shared ones; their outputs are put together in the order of the children. */
module Async {
  import opened Basics
  import opened Variables
  import opened Contexts
  import opened Interpreter
  import opened Threads
  import Engine

  // -------- threads taking turns --------

  /** What a thread has to itself: its own context and what it has still to do. A thread
      that fails has no output. */
  datatype Private = Private(own: Frame, exec: seq<Call>, work: List<Work>, out: string, outs: List<string>,
                             raised: Option<Exception>)

  datatype Thread = Running(own: Private) | Finished(out: string) | Failed

  /** All threads and the contexts they share. */
  datatype System = System(threads: seq<Thread>, shared: Chain)

  function Together(p: Private, shared: Chain): Config {
    Config(State([p.own] + shared, p.exec), p.work, p.out, p.outs, p.raised)
  }

  function ThreadOf(c: Config): Thread {
    if c.work.Nil? then if c.raised.Some? then Failed else Finished(c.out)
    else if c.state.chain == [] then Failed
    else Running(Private(c.state.chain[0], c.state.exec, c.work, c.out, c.outs, c.raised))
  }

  function SharedOf(c: Config): Chain {
    if c.state.chain == [] then [] else c.state.chain[1..]
  }

  lemma Apart(c: Config)
    requires |c.state.chain| > 0 && c.work.Cons?
    ensures ThreadOf(c).Running? && Together(ThreadOf(c).own, SharedOf(c)) == c
  {
    assert [c.state.chain[0]] + c.state.chain[1..] == c.state.chain;
  }

  /** One step of the i-th thread. */
  function Turn(w: Program, sys: System, i: nat): (r: System)
    ensures |r.threads| == |sys.threads|
  {
    if i >= |sys.threads| || !sys.threads[i].Running? then sys
    else
      var c := Step(w, Together(sys.threads[i].own, sys.shared));
      System(sys.threads[i := ThreadOf(c)], SharedOf(c))
  }

  function Interleaved(w: Program, sys: System, turns: seq<nat>): (r: System)
    ensures |r.threads| == |sys.threads|
    decreases |turns|
  {
    if turns == [] then sys else Interleaved(w, Turn(w, sys, turns[0]), turns[1..])
  }

  function Turns(turns: seq<nat>, i: nat): nat {
    if turns == [] then 0 else (if turns[0] == i then 1 else 0) + Turns(turns[1..], i)
  }

  /** The first configuration of a child's thread: a new local context on top of the shared ones. */
  function ChildState(chain: Chain): (s: State)
    requires Sound(chain)
    ensures Sound(s.chain) && s.chain[1..] == chain
  {
    State([Frame("local", [map[]])] + chain, [])
  }

  function ChildConfig(n: nat, caller: int, chain: Chain): (c: Config)
    requires Sound(chain)
  {
    Config(ChildState(chain), Cons(Tag(n, caller), Nil), "", Nil, None)
  }

  // -------- threads that only read what they share --------

  /** No step that the machine alone ever takes assigns a shared variable. */
  ghost predicate Reader(w: Program, c: Config) {
    forall k: nat :: !AssignsShared(w, Solo(w, c, k))
  }

  lemma ReaderStep(w: Program, c: Config)
    requires Reader(w, c)
    ensures !AssignsShared(w, c) && Reader(w, Step(w, c))
  {
    hide AssignsShared, Step;
    assert Solo(w, c, 0) == c;
    forall k: nat ensures !AssignsShared(w, Solo(w, Step(w, c), k)) {
      assert Solo(w, c, k + 1) == Solo(w, Step(w, c), k);
    }
  }

  lemma {:induction false} ReaderParents(w: Program, c: Config, k: nat)
    requires Reader(w, c) && |c.state.chain| > 0
    ensures SameParents(c.state, Solo(w, c, k).state)
    decreases k
  {
    hide Reader, AssignsShared, Step;
    if k == 0 {
      assert Solo(w, c, 0) == c;
    } else {
      ReaderStep(w, c);
      StepParents(w, c);
      ReaderParents(w, Step(w, c), k - 1);
      assert Solo(w, c, k) == Solo(w, Step(w, c), k - 1);
    }
  }

  /** The configuration a thread is in, seen with the shared contexts. */
  ghost predicate IsIn(t: Thread, shared: Chain, c: Config) {
    |c.state.chain| > 0 && t == ThreadOf(c) && SharedOf(c) == shared
  }

  /** A thread with nothing left to do stands still. */
  lemma {:induction false} Still(w: Program, c: Config, k: nat)
    requires c.work.Nil?
    ensures Solo(w, c, k) == c
    decreases k
  {
    if k > 0 {
      Still(w, c, k - 1);
    }
  }

  /** Threads that only read what they share do not notice each other: in every interleaving
      each one is where it would be alone after as many steps of its own. */
  lemma {:induction false} NoInterference(w: Program, sys: System, turns: seq<nat>, cs: seq<Config>, i: nat)
    requires |cs| == |sys.threads| && i < |cs|
    requires forall j :: 0 <= j < |cs| ==> IsIn(sys.threads[j], sys.shared, cs[j]) && Reader(w, cs[j])
    ensures var r := Interleaved(w, sys, turns);
      r.shared == sys.shared && r.threads[i] == ThreadOf(Solo(w, cs[i], Turns(turns, i)))
    decreases |turns|
  {
    hide Reader, Step, Solo;
    if turns == [] {
      SoloOne(w, cs[i]);
    } else {
      var t := turns[0];
      var sys' := Turn(w, sys, t);
      if t < |cs| && sys.threads[t].Running? {
        var c := cs[t];
        Apart(c);
        ReaderStep(w, c);
        StepParents(w, c);
        var c' := Step(w, c);
        assert sys' == System(sys.threads[t := ThreadOf(c')], SharedOf(c'));
        var cs' := cs[t := c'];
        NoInterference(w, sys', turns[1..], cs', i);
        SoloThen(w, c, 1, Turns(turns[1..], t));
        SoloOne(w, c);
      } else {
        NoInterference(w, sys', turns[1..], cs, i);
        if t == i {
          Still(w, cs[i], Turns(turns, i));
          Still(w, cs[i], Turns(turns[1..], i));
        }
      }
    }
  }

  // -------- the tag --------

  predicate Ended(threads: seq<Thread>) {
    forall i :: 0 <= i < |threads| ==> !threads[i].Running?
  }

  function Output(t: Thread): string {
    if t.Finished? then t.out else ""
  }

  function Outputs(threads: seq<Thread>): (r: seq<string>)
    ensures |r| == |threads|
  {
    seq(|threads|, i requires 0 <= i < |threads| => Output(threads[i]))
  }

  function Started(children: seq<nat>, caller: int, chain: Chain): (sys: System)
    requires Sound(chain)
    ensures |sys.threads| == |children|
  {
    System(seq(|children|, i requires 0 <= i < |children| => ThreadOf(ChildConfig(children[i], caller, chain))), chain)
  }

  function ChildOutput(r: Result): string {
    if r.outcome.Done? then r.out else ""
  }

  /** What the children give by their meaning, each run alone on the shared contexts. */
  function Meant(w: Program, children: seq<nat>, caller: int, chain: Chain, fuel: nat): (r: seq<string>)
    requires Sound(chain)
    ensures |r| == |children|
  {
    seq(|children|, i requires 0 <= i < |children| =>
      ChildOutput(Exec(w, children[i], caller, ChildState(chain), fuel)))
  }

  /** The children end within the bound, and none of them ever assigns a shared variable. */
  ghost predicate WellBehaved(w: Program, children: seq<nat>, caller: int, chain: Chain, fuel: nat)
    requires Sound(chain)
  {
    forall c :: c in children ==> ChildBehaves(w, c, caller, chain, fuel)
  }

  ghost predicate ChildBehaves(w: Program, c: nat, caller: int, chain: Chain, fuel: nat)
    requires Sound(chain)
  {
    !Exec(w, c, caller, ChildState(chain), fuel).outcome.Stuck? && Reader(w, ChildConfig(c, caller, chain))
  }

  /** A child's thread alone ends with the output of the child's meaning, or without output
      if that is an exception; the shared contexts are as before. */
  lemma ChildAlone(w: Program, c: nat, caller: int, chain: Chain, fuel: nat) returns (k: nat)
    requires Sound(chain) && !Exec(w, c, caller, ChildState(chain), fuel).outcome.Stuck?
    ensures var r := Exec(w, c, caller, ChildState(chain), fuel);
      var t := ThreadOf(Solo(w, ChildConfig(c, caller, chain), k));
      && Solo(w, ChildConfig(c, caller, chain), k).work.Nil?
      && t == (if r.outcome.Raised? then Failed else Finished(r.out)) && Output(t) == ChildOutput(r)
    ensures Reader(w, ChildConfig(c, caller, chain)) ==>
      Exec(w, c, caller, ChildState(chain), fuel).state.chain[1..] == chain
  {
    hide Exec, Solo, Reader;
    k := TagSolo(w, c, caller, ChildState(chain), fuel, Nil, "", Nil);
    var r := Exec(w, c, caller, ChildState(chain), fuel);
    assert "" + r.out == r.out;
    if Reader(w, ChildConfig(c, caller, chain)) {
      ReaderParents(w, ChildConfig(c, caller, chain), k);
    }
  }

  ghost predicate Enough(turns: seq<nat>, ks: seq<nat>) {
    forall i :: 0 <= i < |ks| ==> Turns(turns, i) >= ks[i]
  }

  /** After `k` steps alone, the child's thread has ended with the output of its meaning. */
  ghost predicate EndsAfter(w: Program, c: nat, caller: int, chain: Chain, fuel: nat, k: nat)
    requires Sound(chain)
  {
    var end := Solo(w, ChildConfig(c, caller, chain), k);
    end.work.Nil? && Output(ThreadOf(end)) == ChildOutput(Exec(w, c, caller, ChildState(chain), fuel))
  }

  /** How many steps each child takes alone. */
  lemma {:induction false} StepCounts(w: Program, children: seq<nat>, caller: int, chain: Chain, fuel: nat)
    returns (ks: seq<nat>)
    requires Sound(chain) && WellBehaved(w, children, caller, chain, fuel)
    ensures |ks| == |children| && forall i :: 0 <= i < |ks| ==> EndsAfter(w, children[i], caller, chain, fuel, ks[i])
    decreases |children|
  {
    hide ChildBehaves, EndsAfter;
    ks := [];
    if children != [] {
      assert children[0] in children && forall c :: c in children[1..] ==> c in children;
      var k := StepCount(w, children[0], caller, chain, fuel);
      var later := StepCounts(w, children[1..], caller, chain, fuel);
      ks := [k] + later;
      forall i | 0 <= i < |ks| ensures EndsAfter(w, children[i], caller, chain, fuel, ks[i]) {
        if i > 0 {
          assert children[1..][i - 1] == children[i] && later[i - 1] == ks[i];
        }
      }
    }
  }

  lemma StepCount(w: Program, c: nat, caller: int, chain: Chain, fuel: nat) returns (k: nat)
    requires Sound(chain) && ChildBehaves(w, c, caller, chain, fuel)
    ensures EndsAfter(w, c, caller, chain, fuel, k)
  {
    hide Exec, Solo, Reader;
    k := ChildAlone(w, c, caller, chain, fuel);
  }

  lemma {:induction false} SoloEnded(w: Program, c: Config, a: nat, b: nat)
    requires Solo(w, c, a).work.Nil? && Solo(w, c, b).work.Nil?
    ensures Solo(w, c, a) == Solo(w, c, b)
  {
    hide Solo;
    if a <= b {
      SoloThen(w, c, a, b - a);
      Still(w, Solo(w, c, a), b - a);
    } else {
      SoloThen(w, c, b, a - b);
      Still(w, Solo(w, c, b), a - b);
    }
  }

  lemma StartedIn(children: seq<nat>, caller: int, chain: Chain, i: nat)
    requires Sound(chain) && i < |children|
    ensures IsIn(Started(children, caller, chain).threads[i], chain, ChildConfig(children[i], caller, chain))
  {
  }

  lemma ThreadsAlone(w: Program, children: seq<nat>, caller: int, chain: Chain, fuel: nat, turns: seq<nat>, i: nat)
    requires Sound(chain) && WellBehaved(w, children, caller, chain, fuel) && i < |children|
    ensures Interleaved(w, Started(children, caller, chain), turns).threads[i]
         == ThreadOf(Solo(w, ChildConfig(children[i], caller, chain), Turns(turns, i)))
  {
    hide Exec, Solo, Reader, Interleaved, Turns, ThreadOf;
    var sys := Started(children, caller, chain);
    var cs := seq(|children|, j requires 0 <= j < |children| => ChildConfig(children[j], caller, chain));
    forall j | 0 <= j < |cs| ensures IsIn(sys.threads[j], sys.shared, cs[j]) && Reader(w, cs[j]) {
      StartedIn(children, caller, chain, j);
      assert children[j] in children && ChildBehaves(w, children[j], caller, chain, fuel);
    }
    NoInterference(w, sys, turns, cs, i);
  }

  /** However children that assign no shared variable take their turns: once all of them have
      ended, the output is that of their meanings, in the order of the children, a child that
      raises an exception adding nothing. */
  lemma OutputInOrder(w: Program, children: seq<nat>, caller: int, chain: Chain, fuel: nat, turns: seq<nat>)
    requires Sound(chain) && WellBehaved(w, children, caller, chain, fuel)
    requires Ended(Interleaved(w, Started(children, caller, chain), turns).threads)
    ensures Outputs(Interleaved(w, Started(children, caller, chain), turns).threads)
        == Meant(w, children, caller, chain, fuel)
  {
    hide Exec, Solo, Reader, Interleaved, Turns, Started, Meant, Output, WellBehaved;
    var ks := StepCounts(w, children, caller, chain, fuel);
    var r := Interleaved(w, Started(children, caller, chain), turns).threads;
    forall i | 0 <= i < |r| ensures Output(r[i]) == Meant(w, children, caller, chain, fuel)[i] {
      ThreadsAlone(w, children, caller, chain, fuel, turns, i);
      var c := ChildConfig(children[i], caller, chain);
      EndedHasNoWork(w, c, Turns(turns, i), children, caller, chain, fuel, i);
      assert EndsAfter(w, children[i], caller, chain, fuel, ks[i]);
      MeantAt(w, children, caller, chain, fuel, i);
      SoloEnded(w, c, Turns(turns, i), ks[i]);
    }
  }

  lemma MeantAt(w: Program, children: seq<nat>, caller: int, chain: Chain, fuel: nat, i: nat)
    requires Sound(chain) && i < |children|
    ensures Meant(w, children, caller, chain, fuel)[i]
        == ChildOutput(Exec(w, children[i], caller, ChildState(chain), fuel))
  {
    hide Exec;
  }

  lemma EndedHasNoWork(w: Program, c: Config, k: nat, children: seq<nat>, caller: int, chain: Chain, fuel: nat, i: nat)
    requires Sound(chain) && WellBehaved(w, children, caller, chain, fuel) && i < |children|
    requires c == ChildConfig(children[i], caller, chain) && !ThreadOf(Solo(w, c, k)).Running?
    ensures Solo(w, c, k).work.Nil?
  {
    hide Exec, Solo, Reader;
    assert children[i] in children && ChildBehaves(w, children[i], caller, chain, fuel);
    ReaderParents(w, c, k);
  }

  /** Each child needs a number of turns of its own and then has ended, whatever the others do. */
  lemma AllEnd(w: Program, children: seq<nat>, caller: int, chain: Chain, fuel: nat) returns (ks: seq<nat>)
    requires Sound(chain) && WellBehaved(w, children, caller, chain, fuel)
    ensures |ks| == |children|
    ensures forall turns :: Enough(turns, ks) ==> Ended(Interleaved(w, Started(children, caller, chain), turns).threads)
  {
    hide Exec, Solo, Reader, Interleaved, Turns, Started, Meant, Output, WellBehaved;
    ks := StepCounts(w, children, caller, chain, fuel);
    forall turns | Enough(turns, ks) ensures Ended(Interleaved(w, Started(children, caller, chain), turns).threads) {
      forall i | 0 <= i < |children|
        ensures !Interleaved(w, Started(children, caller, chain), turns).threads[i].Running?
      {
        ThreadsAlone(w, children, caller, chain, fuel, turns, i);
        assert EndsAfter(w, children[i], caller, chain, fuel, ks[i]);
        var c := ChildConfig(children[i], caller, chain);
        SoloThen(w, c, ks[i], Turns(turns, i) - ks[i]);
        Still(w, Solo(w, c, ks[i]), Turns(turns, i) - ks[i]);
      }
    }
  }

  // -------- children that cannot assign --------

  /** The program has no set tags, and its variables are declared without a type. */
  ghost predicate LocalOnly(w: Program) {
    && (forall n: nat :: LocalTag(w, n))
    && (forall kind: string :: w.same(kind, kind))
  }

  predicate LocalTag(w: Program, n: nat) {
    !At(w, n).kind.Set? && (At(w, n).kind.Var? ==> ParamText(At(w, n).params, "type").None?)
  }

  /** Work of such a program: variables are declared by var tags, none are assigned. */
  predicate LocalWork(w: Program, work: List<Work>) {
    work.Cons? ==>
      !work.head.Assign? && (work.head.Vars? ==> At(w, work.head.n).kind.Var?) && LocalWork(w, work.tail)
  }

  lemma LocalPlan(w: Program, p: Plan, rest: List<Work>)
    requires !p.Stop? && LocalWork(w, rest)
    ensures LocalWork(w, PlanWork(w, p, rest))
  {
    var text := Cons(Text(p.node), rest);
    assert LocalWork(w, text);
  }

  lemma LocalBegin(w: Program, n: nat, caller: int, call: Option<Call>, c: Config, rest: List<Work>, p: Plan)
    requires LocalWork(w, rest)
    ensures LocalWork(w, Begin(w, n, caller, call, c, rest, p).work)
  {
    hide PlanWork;
    if !p.Stop? {
      LocalPlan(w, p, Cons(After(n, caller, call), rest));
    }
  }

  lemma StepLocal(w: Program, c: Config)
    requires LocalOnly(w) && LocalWork(w, c.work) && |c.state.chain| > 0
    ensures LocalWork(w, Step(w, c).work)
  {
    hide Add, Parameter, Eval, ThrowWith, Start, Scoped;
    hide Others, Child, LeftState, Enter, Variables.SetValue, Filled, Kept;
    hide Begin, PlanWork;
    if c.work.Cons? && Sound(c.state.chain) {
      var s, rest := c.state, c.work.tail;
      match c.work.head
      case Tag(n, caller) => LocalBegin(w, n, caller, LastCall(w, n, s), c, rest, Start(w, n, caller, s));
      case Children(children, caller) =>
        if children != [] {
          assert LocalWork(w, Cons(Children(children[1..], caller), rest));
        }
      case Text(_) =>
      case Vars(n, _, caller) => LocalBegin(w, n, caller, None, c, rest, Body(n, caller, s));
      case Params(n, _, _, target, caller) =>
        if target.Some? {
          LocalBegin(w, n, caller, None, c, rest, Run(target.value, n, s.(exec := s.exec + [Call(n, Tags(s.exec))])));
        }
      case After(n, _, _) => assert LocalTag(w, n);
      case Assign(_, _) =>
      case ErrorCode(_, _, _, _) =>
      case ErrorMessage(h, message, caller) =>
        var s' := s.(chain := Add(w, s.chain, "error_message", message, "").chain);
        LocalPlan(w, Body(h, caller, s'), Cons(Caught, rest));
      case Caught =>
    }
  }

  lemma LocalStep(w: Program, c: Config)
    requires LocalOnly(w) && LocalWork(w, c.work) && |c.state.chain| > 0 && c.state.chain[0].kind == "local"
    ensures !AssignsShared(w, c)
  {
    hide Eval, Sound;
    if c.work.Cons? && c.work.head.Vars? {
      assert LocalTag(w, c.work.head.n);
    }
  }

  lemma {:induction false} LocalSolo(w: Program, c: Config, k: nat)
    requires LocalOnly(w) && LocalWork(w, c.work) && |c.state.chain| > 0 && c.state.chain[0].kind == "local"
    ensures !AssignsShared(w, Solo(w, c, k))
    decreases k
  {
    hide LocalOnly, LocalWork, AssignsShared, Step;
    if k == 0 {
      LocalStep(w, c);
    } else {
      StepLocal(w, c);
      StepParents(w, c);
      LocalSolo(w, Step(w, c), k - 1);
    }
  }

  /** In such a program every child only reads what it shares. */
  lemma LocalReader(w: Program, n: nat, caller: int, chain: Chain)
    requires LocalOnly(w) && Sound(chain)
    ensures Reader(w, ChildConfig(n, caller, chain))
  {
    hide LocalOnly, AssignsShared, Step, Solo;
    forall k: nat ensures !AssignsShared(w, Solo(w, ChildConfig(n, caller, chain), k)) {
      LocalSolo(w, ChildConfig(n, caller, chain), k);
    }
  }

  // -------- children that do assign --------

  /** An async tag with two children: one sets the variable "x" to "1", the other writes it. */
  function RaceNode(n: nat): Node {
    if n == 0 then Node(Group, "async", "", [], NULL, [1, 2], NULL)
    else if n == 1 then Node(Set, "set", "", [("name", "n")], 0, [3], NULL)
    else if n == 2 then Node(Expression, "", "x", [], 0, [], NULL)
    else if n == 3 then Node(Expression, "", "1", [], 1, [], NULL)
    else Node(Group, "", "", [], NULL, [], NULL)
  }

  function Race(): Program {
    World((n: nat) => RaceNode(n), (t, c) => if t == "x" then Value(GetValue(c, "x")) else Value(t), s => ["x"],
          (a, b) => a == b, s => Value(s))
  }

  function Global(x: string): Chain { [Frame("global", [map["X" := x]])] }

  lemma GlobalX(x: string)
    ensures Sound(Global(x)) && Upper("x") == "X"
    ensures GetValue(ChildState(Global(x)).chain, "x") == x
    ensures SetValue(ChildState(Global(x)).chain, "x", "1") == Ok(ChildState(Global("1")).chain)
  {
    assert Upper("x") == ["x"[0] - 32 as char];
    var chain := ChildState(Global(x)).chain;
    assert Lookup([map[]], "X") == None && SetLayers([map[]], "X", "1") == None;
    assert Lookup([map["X" := x]], "X") == Some(x);
    assert map["X" := x]["X" := "1"] == map["X" := "1"];
    assert SetLayers([map["X" := x]], "X", "1") == Some([map["X" := "1"]]) by {
      assert [map["X" := x]][..0] + [map["X" := "1"]] == [map["X" := "1"]];
    }
    assert chain[1..] == Global(x) && Global(x)[1..] == [];
    assert SetValue(Global(x), "x", "1") == Ok(Global("1"));
  }

  /** The children by their meaning. */
  lemma RaceChildren(x: string)
    requires Sound(Global(x))
    ensures var s := ChildState(Global(x));
      && Exec(Race(), 1, NULL, s, 3) == Quiet(ChildState(Global("1")), "")
      && Exec(Race(), 2, NULL, s, 3) == Quiet(s, x)
  {
    hide Exec, Do, GetValue, Variables.SetValue, Upper, Lookup, SetLayers;
    GlobalX(x);
    GlobalX("1");
    var w, s := Race(), ChildState(Global(x));
    assert At(w, 1) == RaceNode(1) && At(w, 2) == RaceNode(2) && At(w, 3) == RaceNode(3);
    ExpressionAlone(w, 2, s, 3);
    ExpressionAlone(w, 3, s, 2);
    BodyOfOne(w, 1, 3, s, 2, "1");
    assert Parameter(w, 1, "name", s.chain) == Value("n") && Names(w, "n") == ["x"];
    assert SetVars(["x"], "1", s.chain) == Filling(ChildState(Global("1")).chain, None) by {
      assert ["x"][1..] == [];
    }
    SetRuns(w, 1, s, 3, "1");
  }

  lemma ExpressionAlone(w: Program, n: nat, s: State, fuel: nat)
    requires Sound(s.chain) && At(w, n).kind.Expression? && fuel > 0 && Eval(w, At(w, n).text, s.chain).Value?
    ensures Exec(w, n, NULL, s, fuel) == Quiet(s, Eval(w, At(w, n).text, s.chain).value)
  {
    hide Kept, Filled, Do, Eval;
  }

  lemma BodyOfOne(w: Program, n: nat, c: nat, s: State, fuel: nat, out: string)
    requires Sound(s.chain) && At(w, n).children == [c] && At(w, n).text == ""
    requires Exec(w, c, NULL, s, fuel) == Quiet(s, out)
    ensures Do(w, Body(n, NULL, s), fuel) == Quiet(s, out)
  {
    hide Exec, Kept;
    assert [c][1..] == [] && out + "" == out;
    assert ExecAll(w, [], NULL, s, fuel) == Quiet(s, "");
  }

  lemma SetRuns(w: Program, n: nat, s: State, fuel: nat, value: string)
    requires Sound(s.chain) && At(w, n).kind.Set? && fuel > 0 && Do(w, Body(n, NULL, s), fuel - 1) == Quiet(s, value)
    requires Parameter(w, n, "name", s.chain).Value?
    ensures var f := SetVars(Names(w, Parameter(w, n, "name", s.chain).value), value, s.chain);
      f.error.None? ==> Exec(w, n, NULL, s, fuel) == Quiet(State(f.chain, s.exec), "")
  {
    hide Do, SetVars, Parameter, Filled;
    KeptSelf(s.chain);
  }

  function Repeat(i: nat, k: nat): (turns: seq<nat>) {
    if k == 0 then [] else [i] + Repeat(i, k - 1)
  }

  /** A thread that takes several turns in a row, which the others see afterwards. */
  lemma {:induction false} InARow(w: Program, sys: System, i: nat, c: Config, k: nat, more: seq<nat>)
    requires i < |sys.threads| && IsIn(sys.threads[i], sys.shared, c)
    ensures var c' := Solo(w, c, k);
      Interleaved(w, sys, Repeat(i, k) + more)
          == Interleaved(w, System(sys.threads[i := ThreadOf(c')], SharedOf(c')), more)
    decreases k
  {
    hide Step, Interleaved;
    if k == 0 {
      assert Repeat(i, 0) + more == more && sys.threads[i := sys.threads[i]] == sys.threads;
    } else if c.work.Nil? {
      Still(w, c, k);
      Still(w, c, k - 1);
      TurnFirst(w, sys, i, k, more);
      InARow(w, sys, i, c, k - 1, more);
    } else {
      Apart(c);
      StepParents(w, c);
      var c' := Step(w, c);
      var sys' := System(sys.threads[i := ThreadOf(c')], SharedOf(c'));
      TurnFirst(w, sys, i, k, more);
      InARow(w, sys', i, c', k - 1, more);
      var c'' := Solo(w, c', k - 1);
      assert sys'.threads[i := ThreadOf(c'')] == sys.threads[i := ThreadOf(c'')];
    }
  }

  lemma TurnFirst(w: Program, sys: System, i: nat, k: nat, more: seq<nat>)
    requires k > 0
    ensures Interleaved(w, sys, Repeat(i, k) + more) == Interleaved(w, Turn(w, sys, i), Repeat(i, k - 1) + more)
  {
    hide Turn;
    var later := Repeat(i, k - 1) + more;
    var turns := Repeat(i, k) + more;
    assert turns == [i] + later;
    assert turns != [] && turns[0] == i && turns[1..] == later;
    assert Interleaved(w, sys, turns) == Interleaved(w, Turn(w, sys, turns[0]), turns[1..]);
  }

  /** One child after the other, in this order or that. */
  lemma RaceInOrder(first: nat, second: nat) returns (turns: seq<nat>)
    requires (first == 0 && second == 1) || (first == 1 && second == 0)
    ensures Sound(Global("0"))
    ensures Interleaved(Race(), Started([1, 2], NULL, Global("0")), turns).threads
         == [Finished(""), Finished(if first == 0 then "1" else "0")]
  {
    hide Exec, Solo, Interleaved, GetValue, Variables.SetValue;
    var w := Race();
    GlobalX("0");
    GlobalX("1");
    RaceChildren("0");
    RaceChildren("1");
    var sys := Started([1, 2], NULL, Global("0"));
    var x := if first == 0 then "1" else "0";
    var c := ChildConfig(first + 1, NULL, Global("0"));
    var k := TagSolo(w, first + 1, NULL, ChildState(Global("0")), 3, Nil, "", Nil);
    var end := Solo(w, c, k);
    var sys1 := System(sys.threads[first := ThreadOf(end)], SharedOf(end));
    assert SharedOf(end) == Global(x);
    var d := ChildConfig(second + 1, NULL, Global(x));
    assert sys1.threads[second] == ThreadOf(d);
    var l := TagSolo(w, second + 1, NULL, ChildState(Global(x)), 3, Nil, "", Nil);
    var end2 := Solo(w, d, l);
    StartedIn([1, 2], NULL, Global("0"), first);
    InARow(w, sys, first, c, k, Repeat(second, l) + []);
    InARow(w, sys1, second, d, l, []);
    turns := Repeat(first, k) + (Repeat(second, l) + []);
    var sys2 := System(sys1.threads[second := ThreadOf(end2)], SharedOf(end2));
    assert Interleaved(w, sys2, []) == sys2 by { NoTurns(w, sys2); }
    assert "" + "" == "" && "" + x == x;
  }

  lemma NoTurns(w: Program, sys: System)
    ensures Interleaved(w, sys, []) == sys
  {
  }

  /** For children that assign shared variables the order of their turns does show. */
  lemma OrderShows() returns (one: seq<nat>, other: seq<nat>)
    ensures Sound(Global("0"))
    ensures var sys := Started([1, 2], NULL, Global("0"));
      && Outputs(Interleaved(Race(), sys, one).threads) == ["", "1"]
      && Outputs(Interleaved(Race(), sys, other).threads) == ["", "0"]
  {
    hide Interleaved, Started;
    one := RaceInOrder(0, 1);
    other := RaceInOrder(1, 0);
  }

  // -------- the methods --------

  /** The thread of one child, with a context of its own on top of the shared ones: whatever
      exception it ends with, it has no output then. */
  method RunChild(w: Program, c: nat, caller: int, ctx: Context, fuel: nat) returns (out: string, ended: bool)
    requires Engine.Ready(ctx)
    modifies ctx.Repr
    ensures var r := Exec(w, c, caller, ChildState(old(ctx.Frames())), fuel);
      && ended == !r.outcome.Stuck? && (ended ==> out == ChildOutput(r))
      && (ended ==> ctx.Valid() && ctx.Frames() == r.state.chain[1..])
      && (ended && Reader(w, ChildConfig(c, caller, old(ctx.Frames()))) ==> ctx.Frames() == old(ctx.Frames()))
  {
    hide Exec, Kept, At, Eval, Names, Number, Reader, Step, Solo;
    ghost var chain := ctx.Frames();
    var own := new Context("local", ctx);
    var o, outcome, _ := Engine.Execute(w, c, caller, own, fuel);
    ended := !outcome.Stuck?;
    out := if outcome.Done? then o else "";
    if ended {
      assert own.Frames()[1..] == ctx.Frames();
      ghost var k := ChildAlone(w, c, caller, chain, fuel);
    }
  }

  method Drain(futures: seq<string>) returns (out: string)
    ensures out == Concat(futures)
  {
    out := "";
    for i := 0 to |futures|
      invariant Concat(futures) == out + Concat(futures[i..])
    {
      assert futures[i..][1..] == futures[i + 1..];
      out := out + futures[i];
    }
  }

  /** Starts a thread for each child, lets them take their turns, and, if all of them have
      ended then, drains the futures in the order of the children. */
  method ExecuteAsync(w: Program, n: nat, caller: int, chain: Chain, turns: seq<nat>, ghost fuel: nat)
    returns (out: string, ended: bool)
    requires Sound(chain)
    ensures ended <==> Ended(Interleaved(w, Started(At(w, n).children, caller, chain), turns).threads)
    ensures ended && WellBehaved(w, At(w, n).children, caller, chain, fuel) ==>
      out == Concat(Meant(w, At(w, n).children, caller, chain, fuel))
  {
    hide Step, ThreadOf, Meant, WellBehaved, Concat, At;
    var children := At(w, n).children;
    ghost var start := Started(children, caller, chain);
    var threads: seq<Thread> := [];
    for i := 0 to |children|
      invariant threads == start.threads[..i]
    {
      threads := threads + [ThreadOf(ChildConfig(children[i], caller, chain))];
    }
    var sys := System(threads, chain);
    assert sys == start;
    for i := 0 to |turns|
      invariant Interleaved(w, start, turns) == Interleaved(w, sys, turns[i..])
    {
      assert turns[i..][1..] == turns[i + 1..];
      sys := Turn(w, sys, turns[i]);
    }
    ended := true;
    var futures: seq<string> := [];
    for i := 0 to |sys.threads|
      invariant ended <==> forall j :: 0 <= j < i ==> !sys.threads[j].Running?
      invariant futures == Outputs(sys.threads)[..i]
    {
      ended := ended && !sys.threads[i].Running?;
      futures := futures + [Output(sys.threads[i])];
    }
    out := Drain(futures);
    if ended && WellBehaved(w, children, caller, chain, fuel) {
      OutputInOrder(w, children, caller, chain, fuel, turns);
      assert futures == Outputs(sys.threads);
    }
  }
}
