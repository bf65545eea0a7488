/** The script parser: an XML reader delivers a flat stream of events, from whose
    depths alone the tree of tags is rebuilt. */
module TreeBuilder {
  import opened Basics

  // -------- text --------

  /** Each run of white space becomes one blank; `wasSpace`: one has just been written. */
  function Collapsed(s: string, wasSpace: bool): string {
    if s == "" then ""
    else if s[0] as int <= 32 then (if wasSpace then "" else " ") + Collapsed(s[1..], true)
    else [s[0]] + Collapsed(s[1..], false)
  }

  function Visible(s: string): string {
    if s == "" then "" else (if s[0] as int <= 32 then "" else [s[0]]) + Visible(s[1..])
  }

  /** Collapsing twice is collapsing once, and all but white space is kept in order. */
  lemma {:induction false} CollapsedOnce(s: string, wasSpace: bool)
    ensures Collapsed(Collapsed(s, wasSpace), wasSpace) == Collapsed(s, wasSpace)
    ensures Visible(Collapsed(s, wasSpace)) == Visible(s)
  {
    if s != "" {
      var blank := s[0] as int <= 32;
      var later := Collapsed(s[1..], blank);
      CollapsedOnce(s[1..], blank);
      if !blank {
        assert ([s[0]] + later)[1..] == later;
      } else if !wasSpace {
        assert (" " + later)[1..] == later;
      } else {
        assert "" + later == later;
      }
    }
  }

  predicate Blank(c: char) { c as int <= 32 }

  /** The words of a text, `word` being the beginning of the first one. */
  function Words(s: string, word: string): seq<string> {
    var before := if word == "" then [] else [word];
    if s == "" then before
    else if Blank(s[0]) then before + Words(s[1..], "")
    else Words(s[1..], word + [s[0]])
  }

  /** Between words there is one blank, and nothing else. */
  predicate Spaced(s: string) {
    forall i :: 0 <= i < |s| && Blank(s[i]) ==> s[i] == ' ' && (i + 1 < |s| ==> !Blank(s[i + 1]))
  }

  /** Where the words are apart they stay so, and no others are. */
  lemma {:induction false} WordsKept(s: string, wasSpace: bool, word: string)
    requires wasSpace ==> word == ""
    ensures Words(Collapsed(s, wasSpace), word) == Words(s, word)
  {
    if s != "" {
      var blank := Blank(s[0]);
      var later := Collapsed(s[1..], blank);
      WordsKept(s[1..], blank, if blank then "" else word + [s[0]]);
      if !blank {
        assert ([s[0]] + later)[1..] == later;
      } else if !wasSpace {
        assert (" " + later)[1..] == later;
      } else {
        assert "" + later == later && [] + Words(later, "") == Words(later, "");
      }
    }
  }

  /** What collapsing leaves of the white space: single blanks, and at the ends a blank if
      there was white space. */
  lemma {:induction false} CollapsedSpaced(s: string, wasSpace: bool)
    ensures var r := Collapsed(s, wasSpace);
      && Spaced(r)
      && (wasSpace && r != "" ==> !Blank(r[0]))
      && (r == "" ==> s == "" || (wasSpace && Blank(s[|s| - 1])))
      && (r != "" ==> s != "" && (Blank(r[|r| - 1]) <==> Blank(s[|s| - 1])))
      && (!wasSpace && s != "" ==> r != "" && (Blank(r[0]) <==> Blank(s[0])))
  {
    if s != "" {
      var blank := Blank(s[0]);
      var later := Collapsed(s[1..], blank);
      CollapsedSpaced(s[1..], blank);
      var first := CollapsedChar(s[0], wasSpace);
      var r := first + later;
      assert r == Collapsed(s, wasSpace);
      if first != "" {
        assert r[1..] == later;
        forall i | 0 <= i < |r| && Blank(r[i]) ensures r[i] == ' ' && (i + 1 < |r| ==> !Blank(r[i + 1])) {
          if i > 0 {
            assert r[i] == later[i - 1];
          }
        }
      }
      assert |s| > 1 ==> s[1..][|s| - 2] == s[|s| - 1];
    }
  }

  function CollapsedChar(c: char, wasSpace: bool): string {
    if c as int > 32 then [c] else if wasSpace then "" else " "
  }

  lemma CollapsedFirst(s: string, wasSpace: bool)
    requires s != ""
    ensures Collapsed(s, wasSpace) == CollapsedChar(s[0], wasSpace) + Collapsed(s[1..], s[0] as int <= 32)
  {
  }

  lemma CollapsedEnd(wasSpace: bool)
    ensures Collapsed("", wasSpace) == ""
  {
  }

  method SetText(value: string) returns (text: string)
    ensures text == Collapsed(value, false)
    ensures Words(text, "") == Words(value, "") && Spaced(text)
    ensures value == "" <==> text == ""
    ensures value != "" ==> (Blank(text[0]) <==> Blank(value[0]))
    ensures value != "" ==> (Blank(text[|text| - 1]) <==> Blank(value[|value| - 1]))
  {
    hide Collapsed, Words, Spaced;
    text := "";
    var wasSpace := false;
    var i := 0;
    assert value[0..] == value;
    while i < |value|
      invariant 0 <= i <= |value|
      invariant text + Collapsed(value[i..], wasSpace) == Collapsed(value, false)
    {
      ghost var before, space, later := text, wasSpace, Collapsed(value[i + 1..], Blank(value[i]));
      assert value[i..][1..] == value[i + 1..];
      CollapsedFirst(value[i..], wasSpace);
      Assoc(text, CollapsedChar(value[i], wasSpace), later);
      if value[i] as int <= 32 {
        if !wasSpace {
          text := text + " ";
        }
        wasSpace := true;
      } else {
        wasSpace := false;
        text := text + [value[i]];
      }
      assert text == before + CollapsedChar(value[i], space) && wasSpace == Blank(value[i]);
      i := i + 1;
    }
    CollapsedEnd(wasSpace);
    assert value[i..] == "" && text + "" == text;
    CollapsedSpaced(value, false);
    WordsKept(value, false, "");
  }

  // -------- documents and the events they produce --------

  /** A document node; comments and the like are `Other`. An element written with an
      empty-element tag has no end event. */
  datatype Doc =
    | Element(name: string, emptyTag: bool, content: seq<Doc>)
    | Chars(text: string)
    | Other

  datatype Event =
    | Start(name: string, depth: nat)
    | End
    | Text(text: string, depth: nat)
    | Ignored

  predicate WellFormed(d: Doc) {
    d.Element? ==> (d.emptyTag ==> d.content == []) && forall c :: c in d.content ==> WellFormed(c)
  }

  predicate AllWellFormed(ds: seq<Doc>) {
    forall d :: d in ds ==> WellFormed(d)
  }

  function Events(d: Doc, depth: nat): seq<Event>
    decreases d, 0
  {
    match d
    case Element(name, emptyTag, content) =>
      [Start(name, depth)] + EventsOfAll(content, depth + 1) + (if emptyTag then [] else [End])
    case Chars(text) => [Text(text, depth)]
    case Other => [Ignored]
  }

  function EventsOfAll(ds: seq<Doc>, depth: nat): seq<Event>
    decreases ds, 1
  {
    if ds == [] then [] else Events(ds[0], depth) + EventsOfAll(ds[1..], depth)
  }

  /** The tree a document stands for. */
  datatype Tree = Tree(name: string, text: string, children: seq<Tree>)

  function Trees(d: Doc): (r: seq<Tree>)
    ensures |r| == if d.Other? then 0 else 1
    decreases d, 0
  {
    match d
    case Element(name, _, content) => [Tree(name, "", TreesOfAll(content))]
    case Chars(text) => [Tree("", Collapsed(text, false), [])]
    case Other => []
  }

  function TreesOfAll(ds: seq<Doc>): seq<Tree>
    decreases ds, 1
  {
    if ds == [] then [] else Trees(ds[0]) + TreesOfAll(ds[1..])
  }

  // -------- tags as the parser keeps them: linked by their numbers --------

  const NULL := -1

  datatype Tag = Tag(name: string, text: string, depth: int, parent: int, children: seq<nat>)

  /** A tag is created after its parent and before its children. */
  predicate Linked(tags: seq<Tag>) {
    && (forall i :: 0 <= i < |tags| ==> NULL <= tags[i].parent < i)
    && (forall i, c :: 0 <= i < |tags| && c in tags[i].children ==> i < c < |tags|)
    && (forall i :: 0 <= i < |tags| && tags[i].parent != NULL ==> tags[i].depth == tags[tags[i].parent].depth + 1)
  }

  lemma LinkedAt(tags: seq<Tag>, i: nat)
    requires Linked(tags) && i < |tags|
    ensures NULL <= tags[i].parent < i
    ensures tags[i].parent != NULL ==> tags[i].depth == tags[tags[i].parent].depth + 1
    ensures forall k :: 0 <= k < |tags[i].children| ==> i < tags[i].children[k] < |tags|
  {
    forall k | 0 <= k < |tags[i].children| ensures i < tags[i].children[k] < |tags| {
      assert tags[i].children[k] in tags[i].children;
    }
  }

  function TreeOf(tags: seq<Tag>, i: nat): Tree
    requires Linked(tags) && i < |tags|
    decreases |tags| - i
  {
    var t := tags[i];
    Tree(t.name, t.text, seq(|t.children|, k requires 0 <= k < |t.children| =>
      assert t.children[k] in t.children; TreeOf(tags, t.children[k])))
  }

  datatype State = State(tags: seq<Tag>, root: int, current: int)

  predicate Valid(s: State) {
    Linked(s.tags) && NULL <= s.root < |s.tags| && NULL <= s.current < |s.tags|
  }

  /** `add_child`: the child takes its depth from its parent. */
  function AddChild(tags: seq<Tag>, p: nat, c: nat): (r: seq<Tag>)
    requires p < |tags| && c < |tags| && p != c
    ensures |r| == |tags|
  {
    tags[c := tags[c].(parent := p, depth := tags[p].depth + 1)]
        [p := tags[p].(children := tags[p].children + [c])]
  }

  /** The k-th ancestor, or NULL. */
  function Up(tags: seq<Tag>, i: int, k: nat): (r: int)
    requires Linked(tags) && NULL <= i < |tags|
    ensures NULL <= r <= i
  {
    if k == 0 || i == NULL then i else Up(tags, tags[i].parent, k - 1)
  }

  /** The tag under which a new tag of the given depth is put, or NULL. */
  function Place(tags: seq<Tag>, current: nat, depth: int): (r: int)
    requires Linked(tags) && current < |tags|
    ensures NULL <= r < |tags|
  {
    var d := tags[current].depth;
    if depth > d then current else Up(tags, current, d - depth + 1)
  }

  /** What one event does; None is the exception "invalid nested tags". */
  function Step(s: State, e: Event): (r: Option<State>)
    requires Valid(s)
    ensures r.Some? ==> Valid(r.value)
  {
    match e
    case Start(name, depth) =>
      var n := |s.tags|;
      (match Attached(s, Tag(name, "", depth, NULL, []))
       case None => None
       case Some(tags) => Some(State(tags, if s.root == NULL then n else s.root, n)))
    case Text(text, depth) =>
      (match Attached(s, Tag("", Collapsed(text, false), depth, NULL, []))
       case None => None
       case Some(tags) => Some(s.(tags := tags)))
    case End =>
      if s.current == NULL || s.tags[s.current].name == "module" || s.tags[s.current].parent == NULL then Some(s)
      else Some(s.(current := s.tags[s.current].parent))
    case Ignored => Some(s)
  }

  lemma AppendLinked(tags: seq<Tag>, t: Tag)
    requires Linked(tags) && t.parent == NULL && t.children == []
    ensures Linked(tags + [t])
  {
  }

  lemma ChildLinked(tags: seq<Tag>, t: Tag, p: nat)
    requires Linked(tags) && t.parent == NULL && t.children == [] && p < |tags|
    ensures Linked(AddChild(tags + [t], p, |tags|))
  {
    var n, b := |tags|, AddChild(tags + [t], p, |tags|);
    forall i | 0 <= i < |b|
      ensures NULL <= b[i].parent < i && forall c :: c in b[i].children ==> i < c < |b|
      ensures b[i].parent != NULL ==> b[i].depth == b[b[i].parent].depth + 1
    {
      if i == p {
        assert b[i].children == tags[p].children + [n] && b[i].parent == tags[p].parent;
      } else if i < n {
        assert b[i] == tags[i];
      }
    }
  }

  function Attached(s: State, t: Tag): (r: Option<seq<Tag>>)
    requires Valid(s) && t.parent == NULL && t.children == []
    ensures r.Some? ==> Linked(r.value) && |r.value| == |s.tags| + 1
  {
    hide Linked, AddChild;
    AppendLinked(s.tags, t);
    var tags := s.tags + [t];
    if s.current == NULL then Some(tags)
    else
      var p := Place(s.tags, s.current, t.depth);
      if p == NULL then None
      else
        ChildLinked(s.tags, t, p);
        Some(AddChild(tags, p, |s.tags|))
  }

  function Run(s: State, es: seq<Event>): (r: Option<State>)
    requires Valid(s)
    ensures r.Some? ==> Valid(r.value)
    decreases |es|
  {
    if es == [] then Some(s)
    else match Step(s, es[0])
      case None => None
      case Some(s') => Run(s', es[1..])
  }

  // -------- the key invariant --------

  /** `i` is `e` or a descendant of it. */
  predicate Below(tags: seq<Tag>, i: int, e: nat)
    requires Linked(tags) && NULL <= i < |tags|
    decreases i
  {
    i == e || (i > e && Below(tags, tags[i].parent, e))
  }

  lemma {:induction false} UpBelow(tags: seq<Tag>, i: int, e: nat)
    requires Linked(tags) && NULL <= i < |tags| && Below(tags, i, e)
    ensures tags[i].depth >= tags[e].depth && Up(tags, i, tags[i].depth - tags[e].depth) == e
    ensures tags[i].depth == tags[e].depth ==> i == e
  {
    hide Linked;
    if i != e {
      LinkedAt(tags, i);
      UpBelow(tags, tags[i].parent, e);
    }
  }

  lemma {:induction false} BelowTrans(tags: seq<Tag>, i: int, n: nat, e: nat)
    requires Linked(tags) && NULL <= i < |tags| && n < |tags| && Below(tags, i, n) && Below(tags, n, e)
    ensures Below(tags, i, e)
  {
    if i != n {
      BelowTrans(tags, tags[i].parent, n, e);
    }
  }

  /** With the current tag at or below the innermost open element, a child of that
      element finds its place. */
  lemma PlaceBelow(tags: seq<Tag>, current: nat, e: nat)
    requires Linked(tags) && current < |tags| && Below(tags, current, e)
    ensures Place(tags, current, tags[e].depth + 1) == e
  {
    UpBelow(tags, current, e);
  }

  // -------- growth --------

  /** Nothing has changed but that there are new tags, of which `ns` hang under `e`. */
  predicate Grew(a: seq<Tag>, b: seq<Tag>, e: nat, ns: seq<nat>) {
    && e < |a| <= |b|
    && (forall i :: 0 <= i < |a| && i != e ==> b[i] == a[i])
    && b[e] == a[e].(children := a[e].children + ns)
    && (forall k :: 0 <= k < |ns| ==> |a| <= ns[k] < |b|)
  }

  function TreesAt(tags: seq<Tag>, ns: seq<nat>): (r: seq<Tree>)
    requires Linked(tags) && forall k :: 0 <= k < |ns| ==> ns[k] < |tags|
    ensures |r| == |ns|
  {
    seq(|ns|, k requires 0 <= k < |ns| => TreeOf(tags, ns[k]))
  }

  /** A tree depends only on the tags from its root on. */
  lemma {:induction false} TreeSame(a: seq<Tag>, b: seq<Tag>, i: nat)
    requires Linked(a) && Linked(b) && i < |a| <= |b| && forall j :: i <= j < |a| ==> b[j] == a[j]
    ensures TreeOf(a, i) == TreeOf(b, i)
    decreases |a| - i
  {
    hide Linked;
    LinkedAt(a, i);
    forall k | 0 <= k < |a[i].children| ensures TreeOf(a, a[i].children[k]) == TreeOf(b, a[i].children[k]) {
      TreeSame(a, b, a[i].children[k]);
    }
  }

  lemma TreesSame(a: seq<Tag>, b: seq<Tag>, e: nat, ns: seq<nat>, ms: seq<nat>)
    requires Linked(a) && Linked(b) && Grew(a, b, e, ms) && forall k :: 0 <= k < |ns| ==> e < ns[k] < |a|
    ensures TreesAt(a, ns) == TreesAt(b, ns)
  {
    forall k | 0 <= k < |ns| ensures TreeOf(a, ns[k]) == TreeOf(b, ns[k]) {
      TreeSame(a, b, ns[k]);
    }
  }

  lemma {:induction false} BelowSame(a: seq<Tag>, b: seq<Tag>, i: int, n: nat, e: nat, ns: seq<nat>)
    requires Linked(a) && Linked(b) && Grew(a, b, e, ns) && NULL <= i < |a| && n < |a| && Below(a, i, n)
    ensures Below(b, i, n)
  {
    if i != n {
      BelowSame(a, b, a[i].parent, n, e, ns);
    }
  }

  lemma GrewTrans(a: seq<Tag>, b: seq<Tag>, c: seq<Tag>, e: nat, ns: seq<nat>, ms: seq<nat>)
    requires Grew(a, b, e, ns) && Grew(b, c, e, ms)
    ensures Grew(a, c, e, ns + ms)
  {
    assert a[e].children + (ns + ms) == a[e].children + ns + ms;
  }

  // -------- what events do --------

  lemma RunCons(s: State, e: Event, es: seq<Event>)
    requires Valid(s)
    ensures Run(s, [e] + es) == match Step(s, e) case None => None case Some(s') => Run(s', es)
  {
    assert ([e] + es)[0] == e && ([e] + es)[1..] == es;
  }

  /** A new tag one level below the innermost open element becomes its last child. */
  lemma AttachedBelow(s: State, t: Tag, e: nat)
    requires Valid(s) && s.current != NULL && e < |s.tags| && Below(s.tags, s.current, e)
    requires t.parent == NULL && t.children == [] && t.depth == s.tags[e].depth + 1
    ensures var n := |s.tags|;
      && Attached(s, t).Some?
      && var tags := Attached(s, t).value;
         Grew(s.tags, tags, e, [n]) && tags[n] == t.(parent := e) && Below(tags, n, e)
  {
    PlaceBelow(s.tags, s.current, e);
    hide Linked;
  }

  /** Inside an element that is open and known to be the innermost one. */
  ghost predicate Inside(s: State, e: nat) {
    && Valid(s) && s.root != NULL && s.current != NULL && e < |s.tags| && Below(s.tags, s.current, e)
    && s.tags[e].depth >= 0
  }

  /** From `s`, the events of some documents lead to `s'`, their trees hanging under `e`. */
  ghost predicate Built(s: State, s': State, e: nat, ns: seq<nat>, trees: seq<Tree>) {
    && Valid(s) && Inside(s', e) && Grew(s.tags, s'.tags, e, ns) && s'.root == s.root
    && TreesAt(s'.tags, ns) == trees
  }

  lemma BuildNothing(s: State, e: nat)
    requires Inside(s, e)
    ensures Built(s, s, e, [], [])
  {
    hide Linked;
    assert s.tags[e].children + [] == s.tags[e].children;
    assert s.tags[e := s.tags[e].(children := s.tags[e].children)] == s.tags;
  }

  lemma BuildText(s: State, text: string, e: nat)
    requires Inside(s, e)
    ensures var next := Step(s, Text(text, s.tags[e].depth + 1));
      next.Some? && Built(s, next.value, e, [|s.tags|], [Tree("", Collapsed(text, false), [])])
  {
    hide Linked, Attached, Collapsed;
    var n, depth := |s.tags|, s.tags[e].depth + 1;
    AttachedBelow(s, Tag("", Collapsed(text, false), depth, NULL, []), e);
    var s' := Step(s, Text(text, depth)).value;
    BelowSame(s.tags, s'.tags, s.current, e, e, [n]);
    assert TreeOf(s'.tags, n) == Tree("", Collapsed(text, false), []);
  }

  lemma {:induction false} BuildOne(s: State, d: Doc, e: nat, more: seq<Event>) returns (s': State, ns: seq<nat>)
    requires Inside(s, e) && WellFormed(d)
    ensures Built(s, s', e, ns, Trees(d))
    ensures Run(s, Events(d, s.tags[e].depth + 1) + more) == Run(s', more)
    decreases d, 0
  {
    hide Linked, Run, Attached;
    var depth := s.tags[e].depth + 1;
    match d
    case Other =>
      BuildNothing(s, e);
      RunCons(s, Ignored, more);
      s', ns := s, [];
    case Chars(text) =>
      BuildText(s, text, e);
      RunCons(s, Text(text, depth), more);
      s', ns := Step(s, Text(text, depth)).value, [|s.tags|];
    case Element(name, emptyTag, content) =>
      var n := |s.tags|;
      var inner := EventsOfAll(content, depth + 1);
      var end := if emptyTag then [] else [End];
      AttachedBelow(s, Tag(name, "", depth, NULL, []), e);
      var s1 := Step(s, Start(name, depth)).value;
      assert [Start(name, depth)] + inner + end + more == [Start(name, depth)] + (inner + (end + more));
      RunCons(s, Start(name, depth), inner + (end + more));
      var s2, ms := BuildAll(s1, content, n, end + more);
      ElementBuilt(s, s1, s2, e, n, ms, name, TreesOfAll(content));
      s', ns := s2, [n];
      if emptyTag {
        assert end + more == more;
      } else {
        RunCons(s2, End, more);
        s' := Step(s2, End).value;
      }
  }

  /** An element with its content built under it, and behind its end. */
  lemma ElementBuilt(s: State, s1: State, s2: State, e: nat, n: nat, ms: seq<nat>, name: string, trees: seq<Tree>)
    requires Inside(s, e) && Inside(s1, n) && n == |s.tags| && Grew(s.tags, s1.tags, e, [n]) && s1.root == s.root
    requires s1.tags[n] == Tag(name, "", s.tags[e].depth + 1, e, []) && Built(s1, s2, n, ms, trees)
    ensures Step(s2, End).Some?
    ensures forall s' :: s' == s2 || Step(s2, End) == Some(s') ==> Built(s, s', e, [n], [Tree(name, "", trees)])
  {
    hide Linked, Below;
    assert s2.tags[n].children == [] + ms == ms;
    assert TreeOf(s2.tags, n) == Tree(name, "", TreesAt(s2.tags, ms));
    Finished(s, s1, s2, e, n, ms);
  }

  /** Behind an element, the current tag is at or below the element around it, whether
      or not the end event moves up. */
  lemma Finished(s: State, s1: State, s2: State, e: nat, n: nat, ms: seq<nat>)
    requires Inside(s, e) && Inside(s1, n) && Inside(s2, n) && n == |s.tags|
    requires Grew(s.tags, s1.tags, e, [n]) && Grew(s1.tags, s2.tags, n, ms) && s1.tags[n].parent == e
    ensures Grew(s.tags, s2.tags, e, [n])
    ensures Below(s2.tags, s2.current, e) && Below(s2.tags, s2.tags[s2.current].parent, e)
    ensures s2.tags[s2.current].parent != NULL
  {
    BelowTrans(s2.tags, s2.current, n, e);
    if s2.current != n {
      BelowTrans(s2.tags, s2.tags[s2.current].parent, n, e);
    }
  }

  lemma {:induction false} BuildAll(s: State, ds: seq<Doc>, e: nat, more: seq<Event>) returns (s': State, ns: seq<nat>)
    requires Inside(s, e) && AllWellFormed(ds)
    ensures Built(s, s', e, ns, TreesOfAll(ds))
    ensures Run(s, EventsOfAll(ds, s.tags[e].depth + 1) + more) == Run(s', more)
    decreases ds, 1
  {
    hide Linked, Run, Below;
    if ds == [] {
      s', ns := s, [];
      assert [] + more == more && s.tags[e].children + [] == s.tags[e].children;
    } else {
      var depth := s.tags[e].depth + 1;
      var first, later := Events(ds[0], depth), EventsOfAll(ds[1..], depth);
      assert first + later + more == first + (later + more);
      var s1, ns1 := BuildOne(s, ds[0], e, later + more);
      var s2, ns2 := BuildAll(s1, ds[1..], e, more);
      s', ns := s2, ns1 + ns2;
      GrewTrans(s.tags, s1.tags, s2.tags, e, ns1, ns2);
      TreesSame(s1.tags, s2.tags, e, ns1, ns2);
      assert TreesAt(s2.tags, ns1 + ns2) == TreesAt(s2.tags, ns1) + TreesAt(s2.tags, ns2);
    }
  }

  // -------- whole documents --------

  const EMPTY := State([], NULL, NULL)

  /** What surrounds the root element: comments, processing instructions, white space. */
  function Around(n: nat): (es: seq<Event>) {
    seq(n, _ => Ignored)
  }

  lemma {:induction false} AroundKeeps(s: State, n: nat, more: seq<Event>)
    requires Valid(s)
    ensures Run(s, Around(n) + more) == Run(s, more)
  {
    if n == 0 {
      assert Around(0) + more == more;
    } else {
      assert Around(n) + more == [Ignored] + (Around(n - 1) + more);
      RunCons(s, Ignored, Around(n - 1) + more);
      AroundKeeps(s, n - 1, more);
    }
  }

  /** Every well-formed document is rebuilt exactly, and none is refused. */
  lemma DocumentRebuilt(before: nat, d: Doc, after: nat)
    requires d.Element? && WellFormed(d)
    ensures var r := Run(EMPTY, Around(before) + Events(d, 0) + Around(after));
      && r.Some? && 0 <= r.value.root < |r.value.tags|
      && [TreeOf(r.value.tags, r.value.root)] == Trees(d)
  {
    hide Run, Attached, Linked, Up, Around;
    RootAdded(d.name);
    var inner := EventsOfAll(d.content, 1);
    var end := if d.emptyTag then [] else [End];
    var tail := Around(after);
    Parts(Around(before), Start(d.name, 0), inner, end, tail);
    AroundKeeps(EMPTY, before, [Start(d.name, 0)] + (inner + (end + tail)));
    RunCons(EMPTY, Start(d.name, 0), inner + (end + tail));
    var s1 := Step(EMPTY, Start(d.name, 0)).value;
    var s2, ns := BuildAll(s1, d.content, 0, end + tail);
    assert s2.tags[0].children == [] + ns == ns;
    assert TreeOf(s2.tags, 0) == Tree(d.name, "", TreesAt(s2.tags, ns));
    var s3 := if d.emptyTag then s2 else Step(s2, End).value;
    if d.emptyTag {
      assert end + tail == tail;
    } else {
      RunCons(s2, End, tail);
    }
    AroundKeeps(s3, after, []);
    assert tail + [] == tail;
    RunNothing(s3);
  }

  lemma RunNothing(s: State)
    requires Valid(s)
    ensures Run(s, []) == Some(s)
  {
  }

  lemma Parts(a: seq<Event>, e: Event, b: seq<Event>, c: seq<Event>, d: seq<Event>)
    ensures a + ([e] + b + c) + d == a + ([e] + (b + (c + d)))
  {
  }

  lemma RootAdded(name: string)
    ensures Valid(EMPTY)
    ensures Step(EMPTY, Start(name, 0)) == Some(State([Tag(name, "", 0, NULL, [])], 0, 0))
    ensures Inside(State([Tag(name, "", 0, NULL, [])], 0, 0), 0)
  {
    assert [] + [Tag(name, "", 0, NULL, [])] == [Tag(name, "", 0, NULL, [])];
  }

  // -------- the parser itself --------

  lemma {:induction false} UpOneMore(tags: seq<Tag>, i: int, k: nat)
    requires Linked(tags) && NULL <= i < |tags|
    ensures var p := Up(tags, i, k);
      Up(tags, i, k + 1) == if p == NULL then NULL else tags[p].parent
  {
    hide Linked;
    if k > 0 && i != NULL {
      LinkedAt(tags, i);
      UpOneMore(tags, tags[i].parent, k - 1);
    }
  }

  lemma UpOne(tags: seq<Tag>, i: nat)
    requires Linked(tags) && i < |tags|
    ensures Up(tags, i, 1) == tags[i].parent && NULL <= tags[i].parent < i
  {
    hide Linked;
    LinkedAt(tags, i);
    UpOneMore(tags, i, 0);
  }

  lemma {:induction false} UpFromNull(tags: seq<Tag>, i: int, k: nat, m: nat)
    requires Linked(tags) && NULL <= i < |tags| && k <= m && Up(tags, i, k) == NULL
    ensures Up(tags, i, m) == NULL
  {
    hide Linked, Up;
    if k < m {
      UpFromNull(tags, i, k, m - 1);
      UpOneMore(tags, i, m - 1);
    }
  }

  class Parser {
    var tags: seq<Tag>
    var root: int
    var current: int

    function Now(): State
      reads this
    {
      State(tags, root, current)
    }

    constructor ()
      ensures Now() == EMPTY
    {
      tags, root, current := [], NULL, NULL;
    }

    /** `add_child` of tag `p`. */
    method LinkChild(p: nat, c: nat)
      requires p < |tags| && c < |tags| && p != c
      modifies this`tags
      ensures tags == AddChild(old(tags), p, c)
    {
      tags := tags[c := tags[c].(parent := p, depth := tags[p].depth + 1)];
      tags := tags[p := tags[p].(children := tags[p].children + [c])];
    }

    /** The ancestor of the current tag that is one level above the depth of the tag `made`. */
    method Ancestor(made: nat) returns (p: int)
      requires made < |tags| && NULL < current < made && tags[made].depth < tags[current].depth
      requires Linked(tags[..made])
      ensures p == Up(tags[..made], current, tags[current].depth - tags[made].depth + 1)
    {
      hide Linked, Up;
      ghost var before := tags[..made];
      var d, c := tags[made].depth, tags[current].depth;
      p := tags[current].parent;
      UpOne(before, current);
      var i := 0;
      while i < c - d && p != NULL
        invariant 0 <= i <= c - d
        invariant NULL <= p < made && p == Up(before, current, i + 1)
      {
        UpOneMore(before, current, i + 1);
        LinkedAt(before, p);
        p := tags[p].parent;
        i := i + 1;
      }
      if p == NULL {
        UpFromNull(before, current, i + 1, c - d + 1);
      }
    }

    /** Links the tag `made`, the newest one, to where its depth says. */
    method MakeRelationship(made: nat) returns (ok: bool)
      requires 0 < |tags| && made == |tags| - 1 && tags[made].parent == NULL && tags[made].children == []
      requires Valid(Now().(tags := tags[..made]))
      modifies this`tags
      ensures var r := Attached(State(old(tags)[..made], root, current), old(tags)[made]);
        ok == r.Some? && (ok ==> tags == r.value) && (!ok ==> tags == old(tags))
    {
      hide Linked, Up;
      ghost var before := tags[..made];
      assert before + [tags[made]] == tags;
      ok := true;
      if current != NULL {
        var d, c := tags[made].depth, tags[current].depth;
        assert c == before[current].depth && tags[current].parent == before[current].parent;
        if d == c {
          ok := tags[current].parent != NULL;
          UpOne(before, current);
          if ok {
            LinkChild(tags[current].parent, made);
          }
        } else if d > c {
          LinkChild(current, made);
        } else {
          var p := Ancestor(made);
          ok := p != NULL;
          if ok {
            LinkChild(p, made);
          }
        }
      }
    }

    /** Handles one event; false is the exception "invalid nested tags". */
    method ProcessNode(e: Event) returns (ok: bool)
      requires Valid(Now())
      modifies this
      ensures var r := Step(old(Now()), e); ok == r.Some? && (ok ==> Now() == r.value)
    {
      hide Linked, Attached;
      ok := true;
      match e
      case Start(name, depth) =>
        ghost var was := tags;
        var made := |tags|;
        tags := tags + [Tag(name, "", depth, NULL, [])];
        assert tags[..made] == was;
        ok := MakeRelationship(made);
        if ok {
          if root == NULL {
            root := made;
          }
          current := made;
        }
      case Text(text, depth) =>
        ghost var was := tags;
        var made := |tags|;
        var collapsed := SetText(text);
        tags := tags + [Tag("", collapsed, depth, NULL, [])];
        assert tags[..made] == was;
        ok := MakeRelationship(made);
      case End =>
        if current != NULL && tags[current].name != "module" && tags[current].parent != NULL {
          LinkedAt(tags, current);
          current := tags[current].parent;
        }
      case Ignored =>
    }

    /** Reads all events of a document. */
    method Parse(es: seq<Event>) returns (ok: bool)
      requires Now() == EMPTY
      modifies this
      ensures var r := Run(EMPTY, es); ok == r.Some? && (ok ==> Now() == r.value)
    {
      hide Step;
      ok := true;
      var i := 0;
      while i < |es| && ok
        invariant 0 <= i <= |es|
        invariant ok ==> Valid(Now()) && Run(EMPTY, es) == Run(Now(), es[i..])
        invariant !ok ==> Run(EMPTY, es) == None
      {
        assert es[i..][1..] == es[i + 1..];
        ok := ProcessNode(es[i]);
        i := i + 1;
      }
    }
  }

  /** A fresh parser makes of a document's events the document's tree. */
  method ParseDocument(before: nat, ghost d: Doc, after: nat, es: seq<Event>)
    returns (ok: bool, tags: seq<Tag>, root: int)
    requires d.Element? && WellFormed(d) && es == Around(before) + Events(d, 0) + Around(after)
    ensures ok && Linked(tags) && 0 <= root < |tags| && [TreeOf(tags, root)] == Trees(d)
  {
    var parser := new Parser();
    ok := parser.Parse(es);
    tags, root := parser.tags, parser.root;
    DocumentRebuilt(before, d, after);
  }
}
