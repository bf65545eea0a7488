/** The cache of loaded applications: any number of threads look applications up, and add
    those that are missing while they hold a mutex. */
module AppCache {
  import opened Basics

  type Url = string

  /** Applications are told apart by numbers. */
  type App = nat

  /** Where a thread is in a call. */
  datatype Place =
    | Idle
    | Looking(url: Url)
    | Waiting(url: Url)
    | Holding(url: Url)
    | Building(url: Url)
    | Built(url: Url, app: App)
    | Leaving(url: Url, result: Option<App>)

  /** What a thread may do next; a build fails with an exception or not. */
  datatype Action = Call(url: Url) | Look | Lock | LookAgain | Build(ok: bool) | Insert | Unlock

  datatype Answer = Answer(url: Url, app: App)

  /** `inserted` and `answers` record all insertions and all calls that returned. */
  datatype State = State(
    apps: map<Url, App>,
    holder: Option<nat>,
    threads: seq<Place>,
    built: nat,
    inserted: seq<Answer>,
    answers: seq<Answer>)

  predicate CanAct(s: State, t: nat, a: Action) {
    t < |s.threads| &&
    match a
    case Call(_) => s.threads[t].Idle?
    case Look => s.threads[t].Looking?
    case Lock => s.threads[t].Waiting? && s.holder.None?
    case LookAgain => s.threads[t].Holding?
    case Build(_) => s.threads[t].Building?
    case Insert => s.threads[t].Built?
    case Unlock => s.threads[t].Leaving?
  }

  function At(s: State, t: nat, p: Place): (s': State)
    requires t < |s.threads|
  {
    s.(threads := s.threads[t := p])
  }

  /** Inserting does not replace what is there. */
  function Step(s: State, t: nat, a: Action): (s': State)
    requires CanAct(s, t, a)
  {
    match a
    case Call(url) => At(s, t, Looking(url))
    case Look =>
      var url := s.threads[t].url;
      if url in s.apps then At(s, t, Idle).(answers := s.answers + [Answer(url, s.apps[url])])
      else At(s, t, Waiting(url))
    case Lock => At(s, t, Holding(s.threads[t].url)).(holder := Some(t))
    case LookAgain =>
      var url := s.threads[t].url;
      if url in s.apps then At(s, t, Leaving(url, Some(s.apps[url]))) else At(s, t, Building(url))
    case Build(ok) =>
      var url := s.threads[t].url;
      if ok then At(s, t, Built(url, s.built)).(built := s.built + 1) else At(s, t, Leaving(url, None))
    case Insert =>
      var url, app := s.threads[t].url, s.threads[t].app;
      var s' := At(s, t, Leaving(url, Some(app)));
      if url in s.apps then s' else s'.(apps := s.apps[url := app], inserted := s.inserted + [Answer(url, app)])
    case Unlock =>
      var p := s.threads[t];
      var s' := At(s, t, Idle).(holder := None);
      if p.result.None? then s' else s'.(answers := s.answers + [Answer(p.url, p.result.value)])
  }

  datatype Turn = Turn(thread: nat, action: Action)

  /** A turn that its thread cannot take changes nothing. */
  function Run(s: State, turns: seq<Turn>): (s': State)
    decreases |turns|
  {
    if turns == [] then s
    else
      var t, a := turns[0].thread, turns[0].action;
      Run(if CanAct(s, t, a) then Step(s, t, a) else s, turns[1..])
  }

  function Start(threads: nat): State {
    State(map[], None, seq(threads, _ => Idle), 0, [], [])
  }

  predicate Holds(p: Place) {
    p.Holding? || p.Building? || p.Built? || p.Leaving?
  }

  /** Only the holder of the mutex is past it. */
  predicate Exclusive(s: State) {
    && (forall t :: 0 <= t < |s.threads| ==> (Holds(s.threads[t]) <==> s.holder == Some(t)))
    && (s.holder.Some? ==> s.holder.value < |s.threads|)
  }

  /** What a thread past the mutex knows of the cache. */
  predicate Knows(p: Place, apps: map<Url, App>) {
    && (p.Building? || p.Built? ==> p.url !in apps)
    && (p.Leaving? && p.result.Some? ==> p.url in apps && apps[p.url] == p.result.value)
  }

  predicate AllKnow(s: State) {
    forall t :: 0 <= t < |s.threads| ==> Knows(s.threads[t], s.apps)
  }

  /** What the steps keep. */
  ghost predicate Consistent(s: State) {
    Exclusive(s) && AllKnow(s) && OncePerUrl(s.inserted) && Logged(s)
  }

  predicate OncePerUrl(log: seq<Answer>) {
    forall i, j :: 0 <= i < j < |log| ==> log[i].url != log[j].url
  }

  /** The cache holds what was inserted, and every answer is what the cache holds. */
  ghost predicate Logged(s: State) {
    && (forall i :: 0 <= i < |s.inserted| ==>
          s.inserted[i].url in s.apps && s.apps[s.inserted[i].url] == s.inserted[i].app)
    && (forall u :: u in s.apps ==> exists i :: 0 <= i < |s.inserted| && s.inserted[i] == Answer(u, s.apps[u]))
    && (forall i :: 0 <= i < |s.answers| ==> s.answers[i].url in s.apps && s.apps[s.answers[i].url] == s.answers[i].app)
  }

  predicate Grows(a: map<Url, App>, b: map<Url, App>) {
    forall u :: u in a ==> u in b && b[u] == a[u]
  }

  lemma StepKeeps(s: State, t: nat, a: Action)
    requires Consistent(s) && CanAct(s, t, a)
    ensures Consistent(Step(s, t, a)) && Grows(s.apps, Step(s, t, a).apps)
  {
    StepExclusive(s, t, a);
    StepKnows(s, t, a);
    StepLogs(s, t, a);
    assert Knows(s.threads[t], s.apps);
  }

  lemma StepExclusive(s: State, t: nat, a: Action)
    requires Exclusive(s) && CanAct(s, t, a)
    ensures Exclusive(Step(s, t, a))
  {
  }

  lemma StepKnows(s: State, t: nat, a: Action)
    requires Exclusive(s) && AllKnow(s) && CanAct(s, t, a)
    ensures AllKnow(Step(s, t, a))
  {
    var s' := Step(s, t, a);
    forall i | 0 <= i < |s'.threads| ensures Knows(s'.threads[i], s'.apps) {
      assert Knows(s.threads[i], s.apps) && Knows(s.threads[t], s.apps);
      if i != t {
        assert Holds(s.threads[i]) ==> !Holds(s.threads[t]);
      }
    }
  }

  lemma AnswerLogged(s: State, s': State, answer: Answer)
    requires Logged(s) && s'.apps == s.apps && s'.inserted == s.inserted && s'.answers == s.answers + [answer]
    requires answer.url in s.apps && s.apps[answer.url] == answer.app
    ensures Logged(s')
  {
  }

  lemma InsertOnce(s: State, entry: Answer)
    requires Logged(s) && OncePerUrl(s.inserted) && entry.url !in s.apps
    ensures OncePerUrl(s.inserted + [entry])
  {
    var log := s.inserted + [entry];
    forall i, j | 0 <= i < j < |log| ensures log[i].url != log[j].url {
      assert log[i] == s.inserted[i] && s.inserted[i].url in s.apps;
      if j < |s.inserted| {
        assert log[j] == s.inserted[j];
      }
    }
  }

  lemma InsertLogged(s: State, s': State, entry: Answer)
    requires Logged(s) && OncePerUrl(s.inserted) && entry.url !in s.apps
    requires s'.apps == s.apps[entry.url := entry.app] && s'.inserted == s.inserted + [entry] && s'.answers == s.answers
    ensures Logged(s') && OncePerUrl(s'.inserted)
  {
    InsertOnce(s, entry);
    hide OncePerUrl;
    var n := |s.inserted|;
    forall u | u in s'.apps ensures exists i :: 0 <= i < |s'.inserted| && s'.inserted[i] == Answer(u, s'.apps[u]) {
      if u == entry.url {
        assert s'.inserted[n] == Answer(u, s'.apps[u]);
      } else {
        var i :| 0 <= i < n && s.inserted[i] == Answer(u, s.apps[u]);
        assert s'.inserted[i] == s.inserted[i];
      }
    }
  }

  lemma StepLogs(s: State, t: nat, a: Action)
    requires Logged(s) && OncePerUrl(s.inserted) && AllKnow(s) && CanAct(s, t, a)
    ensures Logged(Step(s, t, a)) && OncePerUrl(Step(s, t, a).inserted)
  {
    hide Logged, OncePerUrl;
    var s', p := Step(s, t, a), s.threads[t];
    assert Knows(p, s.apps);
    if a.Look? && p.url in s.apps {
      AnswerLogged(s, s', Answer(p.url, s.apps[p.url]));
    } else if a.Unlock? && p.result.Some? {
      AnswerLogged(s, s', Answer(p.url, p.result.value));
    } else if a.Insert? {
      InsertLogged(s, s', Answer(p.url, p.app));
    } else {
      SameLogged(s, s');
    }
  }

  lemma SameLogged(s: State, s': State)
    requires Logged(s) && s'.apps == s.apps && s'.inserted == s.inserted && s'.answers == s.answers
    ensures Logged(s')
  {
  }

  lemma {:induction false} RunKeeps(s: State, turns: seq<Turn>)
    requires Consistent(s)
    ensures Consistent(Run(s, turns)) && Grows(s.apps, Run(s, turns).apps)
    decreases |turns|
  {
    hide Consistent, Step;
    if turns != [] {
      var t, a := turns[0].thread, turns[0].action;
      if CanAct(s, t, a) {
        StepKeeps(s, t, a);
        RunKeeps(Step(s, t, a), turns[1..]);
      } else {
        RunKeeps(s, turns[1..]);
      }
    }
  }

  lemma {:induction false} RunSplit(s: State, before: seq<Turn>, after: seq<Turn>)
    ensures Run(s, before + after) == Run(Run(s, before), after)
    decreases |before|
  {
    hide Step;
    if before == [] {
      assert before + after == after;
    } else {
      var t, a := before[0].thread, before[0].action;
      assert (before + after)[1..] == before[1..] + after;
      RunSplit(if CanAct(s, t, a) then Step(s, t, a) else s, before[1..], after);
    }
  }

  /** In every run of any number of threads, whatever their turns and whichever builds fail:
      an application is inserted at most once for an address, entries never change, and
      all calls for an address that return give the same application, the inserted one. */
  lemma OneAppPerUrl(threads: nat, before: seq<Turn>, after: seq<Turn>)
    ensures var s := Run(Start(threads), before); var s' := Run(Start(threads), before + after);
      && OncePerUrl(s'.inserted)
      && (forall u :: u in s.apps ==> u in s'.apps && s'.apps[u] == s.apps[u])
      && Agree(s'.answers) && AllIn(s'.answers, s'.inserted)
  {
    hide Run, Logged, Exclusive, AllKnow, OncePerUrl, Agree, AllIn;
    StartConsistent(threads);
    RunKeeps(Start(threads), before);
    RunSplit(Start(threads), before, after);
    RunKeeps(Run(Start(threads), before), after);
    AnswersInserted(Run(Start(threads), before + after));
  }

  lemma StartConsistent(threads: nat)
    ensures Consistent(Start(threads))
  {
  }

  predicate Agree(answers: seq<Answer>) {
    forall i, j :: 0 <= i < |answers| && 0 <= j < |answers| && answers[i].url == answers[j].url ==>
      answers[i].app == answers[j].app
  }

  ghost predicate AllIn(answers: seq<Answer>, inserted: seq<Answer>) {
    forall i :: 0 <= i < |answers| ==> answers[i] in inserted
  }

  lemma AnswersInserted(s: State)
    requires Logged(s)
    ensures Agree(s.answers) && AllIn(s.answers, s.inserted)
  {
    forall i | 0 <= i < |s.answers| ensures s.answers[i] in s.inserted {
      var u := s.answers[i].url;
      assert u in s.apps && s.answers[i] == Answer(u, s.apps[u]);
      var k :| 0 <= k < |s.inserted| && s.inserted[k] == Answer(u, s.apps[u]);
      assert s.inserted[k] in s.inserted;
    }
  }

  /** Threads never wait for each other forever: while one is in a call, some thread that
      is in a call has a turn it can take. */
  lemma NoDeadlock(s: State, t: nat) returns (t': nat, a: Action)
    requires Consistent(s) && t < |s.threads| && !s.threads[t].Idle?
    ensures CanAct(s, t', a) && !a.Call?
  {
    t' := if s.threads[t].Waiting? && s.holder.Some? then s.holder.value else t;
    a := match s.threads[t']
      case Looking(_) => Look
      case Waiting(_) => Lock
      case Holding(_) => LookAgain
      case Building(_) => Build(true)
      case Built(_, _) => Insert
      case _ => Unlock;
  }

  // -------- one call, undisturbed --------

  function By(t: nat, actions: seq<Action>): (turns: seq<Turn>)
    decreases |actions|
  {
    if actions == [] then [] else [Turn(t, actions[0])] + By(t, actions[1..])
  }

  lemma RunFirst(s: State, t: nat, a: Action, later: seq<Action>)
    requires CanAct(s, t, a)
    ensures Run(s, By(t, [a] + later)) == Run(Step(s, t, a), By(t, later))
  {
    assert ([a] + later)[1..] == later;
    assert ([Turn(t, a)] + By(t, later))[1..] == By(t, later);
  }

  /** One thread's turn when there is no other. */
  lemma Alone(s: State, p: Place, a: Action, later: seq<Action>)
    requires s.threads == [p] && CanAct(s, 0, a)
    ensures Run(s, By(0, [a] + later)) == Run(Step(s, 0, a), By(0, later))
    ensures forall q :: s.threads[0 := q] == [q]
  {
    RunFirst(s, 0, a, later);
  }

  /** A call for an address that is not cached gets to the build. */
  lemma GetsToBuild(s: State, url: Url, later: seq<Action>)
    requires s.threads == [Idle] && s.holder.None? && url !in s.apps
    ensures Run(s, By(0, [Call(url)] + ([Look] + ([Lock] + ([LookAgain] + later)))))
         == Run(s.(threads := [Building(url)], holder := Some(0)), By(0, later))
  {
    hide Run, By;
    Alone(s, Idle, Call(url), [Look] + ([Lock] + ([LookAgain] + later)));
    var s1 := s.(threads := [Looking(url)]);
    Alone(s1, Looking(url), Look, [Lock] + ([LookAgain] + later));
    var s2 := s.(threads := [Waiting(url)]);
    Alone(s2, Waiting(url), Lock, [LookAgain] + later);
    var s3 := s.(threads := [Holding(url)], holder := Some(0));
    Alone(s3, Holding(url), LookAgain, later);
  }

  /** The turns of a call for an address that is not cached. */
  lemma Loads(apps: map<Url, App>, built: nat, url: Url)
    requires url !in apps
    ensures Run(State(apps, None, [Idle], built, [], []),
                By(0, [Call(url), Look, Lock, LookAgain, Build(true), Insert, Unlock]))
         == State(apps[url := built], None, [Idle], built + 1, [Answer(url, built)], [Answer(url, built)])
  {
    hide Run, By;
    var s := State(apps, None, [Idle], built, [], []);
    var later := [Build(true)] + ([Insert] + ([Unlock] + []));
    assert [Call(url), Look, Lock, LookAgain, Build(true), Insert, Unlock]
        == [Call(url)] + ([Look] + ([Lock] + ([LookAgain] + later)));
    GetsToBuild(s, url, later);
    var s4 := s.(threads := [Building(url)], holder := Some(0));
    Alone(s4, Building(url), Build(true), [Insert] + ([Unlock] + []));
    var s5 := s4.(threads := [Built(url, built)], built := built + 1);
    Alone(s5, Built(url, built), Insert, [Unlock] + []);
    var s6 := s5.(threads := [Leaving(url, Some(built))], apps := apps[url := built], inserted := [Answer(url, built)]);
    assert Step(s5, 0, Insert) == s6;
    Alone(s6, Leaving(url, Some(built)), Unlock, []);
    RunNone(Step(s6, 0, Unlock));
  }

  lemma FailsToLoad(apps: map<Url, App>, built: nat, url: Url)
    requires url !in apps
    ensures Run(State(apps, None, [Idle], built, [], []),
                By(0, [Call(url), Look, Lock, LookAgain, Build(false), Unlock]))
         == State(apps, None, [Idle], built, [], [])
  {
    hide Run, By;
    var s := State(apps, None, [Idle], built, [], []);
    var later := [Build(false)] + ([Unlock] + []);
    assert [Call(url), Look, Lock, LookAgain, Build(false), Unlock]
        == [Call(url)] + ([Look] + ([Lock] + ([LookAgain] + later)));
    GetsToBuild(s, url, later);
    var s4 := s.(threads := [Building(url)], holder := Some(0));
    Alone(s4, Building(url), Build(false), [Unlock] + []);
    var s5 := s4.(threads := [Leaving(url, None)]);
    Alone(s5, Leaving(url, None), Unlock, []);
    RunNone(Step(s5, 0, Unlock));
  }

  lemma RunNone(s: State)
    ensures Run(s, By(0, [])) == s
  {
  }

  lemma Cached(apps: map<Url, App>, built: nat, url: Url)
    requires url in apps
    ensures Run(State(apps, None, [Idle], built, [], []), By(0, [Call(url), Look]))
         == State(apps, None, [Idle], built, [], [Answer(url, apps[url])])
  {
    hide Run, By;
    var s := State(apps, None, [Idle], built, [], []);
    assert [Call(url), Look] == [Call(url)] + ([Look] + []);
    Alone(s, Idle, Call(url), [Look] + []);
    Alone(s.(threads := [Looking(url)]), Looking(url), Look, []);
    var answer := Answer(url, apps[url]);
    assert [] + [answer] == [answer];
    RunNone(s.(answers := [answer]));
  }

  /** `get_app` as one thread runs it when no other takes a turn. */
  class Interpreter {
    const useCache: bool
    var apps: map<Url, App>
    var built: nat
    /** Whether the mutex is held. */
    var locked: bool

    constructor (useCache: bool)
      ensures this.useCache == useCache && apps == map[] && built == 0 && !locked
    {
      this.useCache, apps, built, locked := useCache, map[], 0, false;
    }

    /** `ok`: loading the application succeeds. */
    method BuildApp(ok: bool) returns (app: Option<App>)
      modifies this`built
      ensures if ok then app == Some(old(built)) && built == old(built) + 1 else app == None && built == old(built)
    {
      if !ok {
        return None;
      }
      app := Some(built);
      built := built + 1;
    }

    method Find(url: Url) returns (app: Option<App>)
      ensures app == if url in apps then Some(apps[url]) else None
    {
      app := if url in apps then Some(apps[url]) else None;
    }

    method TakeMutex()
      requires !locked
      modifies this`locked
      ensures locked
    {
      locked := true;
    }

    /** The end of the guard's life, also when an exception passes. */
    method GiveMutex()
      requires locked
      modifies this`locked
      ensures !locked
    {
      locked := false;
    }

    method GetApp(url: Url, ok: bool) returns (app: Option<App>)
      requires !locked
      modifies this
      ensures !locked
      ensures !useCache ==> apps == old(apps) && (app.Some? <==> ok)
      ensures useCache ==>
        var s := State(old(apps), None, [Idle], old(built), [], []);
        var turns := if url in old(apps) then [Call(url), Look]
                     else if ok then [Call(url), Look, Lock, LookAgain, Build(true), Insert, Unlock]
                     else [Call(url), Look, Lock, LookAgain, Build(false), Unlock];
        var s' := Run(s, By(0, turns));
        && s'.threads == [Idle] && s'.holder == None && apps == s'.apps && built == s'.built
        && s'.answers == if app.Some? then [Answer(url, app.value)] else []
    {
      hide Run, By;
      if !useCache {
        app := BuildApp(ok);
        return;
      }
      if url in apps {
        Cached(apps, built, url);
      } else {
        Loads(apps, built, url);
        FailsToLoad(apps, built, url);
      }
      app := Find(url);
      if app.Some? {
        return;
      }
      TakeMutex();
      app := Find(url);
      if app.None? {
        app := BuildApp(ok);
        if app.Some? {
          apps := apps[url := app.value];
        }
      }
      GiveMutex();
    }
  }
}
