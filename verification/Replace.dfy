/** Splitting a string at a separator and replacing one string by another in place. */
module Replace {
  import opened Basics
  import opened Variables
  import opened Contexts

  // -------- finding --------

  predicate OccursAt(s: string, f: string, k: nat) {
    k + |f| <= |s| && s[k..k + |f|] == f
  }

  lemma OccursTail(s: string, f: string, k: nat)
    requires s != "" && 1 <= k
    ensures OccursAt(s, f, k) <==> OccursAt(s[1..], f, k - 1)
  {
    var t := s[1..];
    if k + |f| <= |s| {
      assert forall i :: k <= i < k + |f| ==> t[i - 1] == s[i];
      assert t[k - 1..k - 1 + |f|] == s[k..k + |f|];
    }
  }

  lemma OccursPrefix(s: string, n: nat, f: string, k: nat)
    requires n <= |s| && f != "" && OccursAt(s[..n], f, k)
    ensures k < n && OccursAt(s, f, k)
  {
    assert s[..n][k..k + |f|] == s[k..k + |f|];
  }

  predicate Contains(s: string, f: string) {
    exists k :: 0 <= k <= |s| && OccursAt(s, f, k)
  }

  /** The place of the first occurrence, or -1. */
  function Find(s: string, f: string): (k: int)
    ensures k == -1 || (0 <= k && k + |f| <= |s| && OccursAt(s, f, k))
    ensures forall j :: 0 <= j && (j < k || k == -1) ==> !OccursAt(s, f, j)
  {
    if OccursAt(s, f, 0) then 0
    else if s == "" then -1
    else
      var k := Find(s[1..], f);
      assert forall j: nat :: 1 <= j ==> (OccursAt(s, f, j) <==> OccursAt(s[1..], f, j - 1)) by {
        forall j: nat | 1 <= j ensures OccursAt(s, f, j) <==> OccursAt(s[1..], f, j - 1) {
          OccursTail(s, f, j);
        }
      }
      if k == -1 then -1 else k + 1
  }

  /** The first occurrence at or behind `i`, or -1. */
  function FindFrom(s: string, f: string, i: nat): (k: int)
    ensures k == -1 || (i <= k <= |s| && k + |f| <= |s|)
  {
    if i > |s| then -1
    else
      var k := Find(s[i..], f);
      if k == -1 then -1 else i + k
  }

  // -------- pieces --------

  /** What is between the separators, found one after the other. */
  function Pieces(s: string, sep: string): (r: seq<string>)
    requires sep != ""
    ensures r != []
    decreases |s|
  {
    var k := Find(s, sep);
    if k == -1 then [s] else [s[..k]] + Pieces(s[k + |sep|..], sep)
  }

  function Join(parts: seq<string>, sep: string): string {
    if parts == [] then ""
    else if |parts| == 1 then parts[0]
    else parts[0] + sep + Join(parts[1..], sep)
  }

  lemma JoinMore(first: string, parts: seq<string>, sep: string)
    requires parts != []
    ensures Join([first] + parts, sep) == first + sep + Join(parts, sep)
  {
    assert ([first] + parts)[1..] == parts;
  }

  lemma FoundParts(s: string, sep: string, k: nat)
    requires OccursAt(s, sep, k)
    ensures s[..k] + sep + s[k + |sep|..] == s
  {
    assert s[..k] + s[k..k + |sep|] + s[k + |sep|..] == s;
  }

  /** Joining the pieces with the separator gives the string back. */
  lemma {:induction false} SplitThenJoin(s: string, sep: string)
    requires sep != ""
    ensures Join(Pieces(s, sep), sep) == s
    decreases |s|
  {
    hide Join, Find;
    var k := Find(s, sep);
    if k == -1 {
      JoinOne(s, sep);
    } else {
      var later := s[k + |sep|..];
      SplitThenJoin(later, sep);
      JoinMore(s[..k], Pieces(later, sep), sep);
      FoundParts(s, sep, k);
    }
  }

  /** No piece has the separator in it, and there is one piece more than separators were found. */
  lemma {:induction false} PiecesWithout(s: string, sep: string, p: string)
    requires sep != "" && p in Pieces(s, sep)
    ensures !Contains(p, sep)
    decreases |s|
  {
    hide OccursAt;
    var k := Find(s, sep);
    if k != -1 {
      if p == s[..k] {
        forall j | 0 <= j <= |p| ensures !OccursAt(p, sep, j) {
          if OccursAt(p, sep, j) {
            OccursPrefix(s, k, sep, j);
          }
        }
      } else {
        PiecesWithout(s[k + |sep|..], sep, p);
      }
    }
  }

  // -------- replacing --------

  lemma {:induction false} PiecesFrom(s: string, f: string, i: nat)
    requires f != "" && i <= |s|
    ensures var k := FindFrom(s, f, i);
      Pieces(s[i..], f) == if k == -1 then [s[i..]] else [s[i..k]] + Pieces(s[k + |f|..], f)
  {
    hide OccursAt;
    var k := Find(s[i..], f);
    if k != -1 {
      assert s[i..][..k] == s[i..i + k];
      assert s[i..][k + |f|..] == s[i + k + |f|..];
    }
  }

  /** Edits the string in place; what has been put in is not searched again. */
  method ReplaceWith(source: string, find: string, replace: string) returns (edited: string)
    requires find != ""
    ensures edited == Join(Pieces(source, find), replace)
  {
    hide Pieces, Join, FindFrom;
    edited := source;
    var i := 0;
    assert edited[0..] == source && "" + Join(Pieces(source, find), replace) == Join(Pieces(source, find), replace);
    while true
      invariant 0 <= i <= |edited|
      invariant edited[..i] + Join(Pieces(edited[i..], find), replace) == Join(Pieces(source, find), replace)
      decreases |edited| - i
    {
      var k := FindFrom(edited, find, i);
      PiecesFrom(edited, find, i);
      if k == -1 {
        JoinOne(edited[i..], replace);
        assert edited[..i] + edited[i..] == edited;
        break;
      }
      JoinMore(edited[i..k], Pieces(edited[k + |find|..], find), replace);
      ghost var was := edited;
      edited := edited[..k] + replace + edited[k + |find|..];
      Replaced(was, find, replace, i, k, edited);
      i := k + |replace|;
    }
  }

  lemma JoinOne(s: string, sep: string)
    ensures Join([s], sep) == s
  {
  }

  lemma Replaced(was: string, find: string, replace: string, i: nat, k: nat, edited: string)
    requires i <= k && k + |find| <= |was| && edited == was[..k] + replace + was[k + |find|..]
    ensures edited[k + |replace|..] == was[k + |find|..]
    ensures edited[..k + |replace|] == was[..i] + (was[i..k] + replace)
    ensures forall rest: string :: edited[..k + |replace|] + rest == was[..i] + (was[i..k] + replace + rest)
  {
    forall rest: string ensures edited[..k + |replace|] + rest == was[..i] + (was[i..k] + replace + rest) {
      assert was[..i] + was[i..k] == was[..k];
      assert was[..i] + (was[i..k] + replace + rest) == was[..i] + was[i..k] + replace + rest;
    }
  }

  // -------- an empty string to search for --------

  /** The loop of `replace_with` for an empty string after `n` rounds. */
  function EmptyRounds(source: string, replace: string, n: nat): (r: (string, nat))
    ensures r.1 <= |r.0|
  {
    if n == 0 then (source, 0)
    else
      var (s, i) := EmptyRounds(source, replace, n - 1);
      (s[..i] + replace + s[i..], i + |replace|)
  }

  /** Searching for the empty string never ends: after any number of rounds it is found
      again. */
  lemma EmptyNeverEnds(source: string, replace: string, n: nat)
    ensures var (s, i) := EmptyRounds(source, replace, n); FindFrom(s, "", i) == i
  {
    var (s, i) := EmptyRounds(source, replace, n);
    assert OccursAt(s[i..], "", 0);
  }

  // -------- splitting --------

  function Each(f: string -> string, parts: seq<string>): (r: seq<string>)
    ensures |r| == |parts|
  {
    seq(|parts|, i requires 0 <= i < |parts| => f(parts[i]))
  }

  lemma NoPieces(f: string -> string)
    ensures Each(f, []) == []
  {
  }

  lemma EachSnoc(f: string -> string, parts: seq<string>, p: string)
    ensures Each(f, parts + [p]) == Each(f, parts) + [f(p)]
  {
  }

  /** The loop of `split`; every piece is trimmed as it is cut off. */
  method Split(source: string, separator: string, trim: string -> string) returns (str: seq<string>)
    ensures str == Each(trim, Pieces(source, if separator == "" then "," else separator))
  {
    hide Pieces, FindFrom, Each;
    var sep := if separator == "" then "," else separator;
    str := [];
    ghost var cut: seq<string> := [];
    var oldPos := 0;
    NoPieces(trim);
    assert source[0..] == source && [] + Pieces(source, sep) == Pieces(source, sep);
    var pos := FindFrom(source, sep, oldPos);
    while pos != -1
      invariant 0 <= oldPos <= |source| && pos == FindFrom(source, sep, oldPos)
      invariant str == Each(trim, cut)
      invariant cut + Pieces(source[oldPos..], sep) == Pieces(source, sep)
      decreases |source| - oldPos
    {
      PiecesFrom(source, sep, oldPos);
      EachSnoc(trim, cut, source[oldPos..pos]);
      Assoc(cut, [source[oldPos..pos]], Pieces(source[pos + |sep|..], sep));
      str := str + [trim(source[oldPos..pos])];
      cut := cut + [source[oldPos..pos]];
      oldPos := pos + |sep|;
      pos := FindFrom(source, sep, oldPos);
    }
    PiecesFrom(source, sep, oldPos);
    EachSnoc(trim, cut, source[oldPos..]);
    str := str + [trim(source[oldPos..])];
  }

  /** What several variables get: one piece each, the last one all that remain, with the
      separators put back. */
  function Spread(n: nat, parts: seq<string>, sep: string): (r: seq<string>)
    requires n > 0
  {
    if |parts| <= n then parts else parts[..n - 1] + [Join(parts[n - 1..], sep)]
  }

  lemma {:induction false} JoinTail(before: seq<string>, after: seq<string>, sep: string)
    requires after != []
    ensures Join(before + [Join(after, sep)], sep) == Join(before + after, sep)
  {
    if before == [] {
      assert before + [Join(after, sep)] == [Join(after, sep)] && before + after == after;
      JoinOne(Join(after, sep), sep);
    } else {
      JoinTail(before[1..], after, sep);
      assert (before + [Join(after, sep)])[1..] == before[1..] + [Join(after, sep)];
      assert (before + after)[1..] == before[1..] + after;
    }
  }

  /** However many variables there are, nothing of the pieces is lost in them. */
  lemma SpreadKeeps(n: nat, parts: seq<string>, sep: string)
    requires n > 0 && parts != []
    ensures Join(Spread(n, parts, sep), sep) == Join(parts, sep)
  {
    if |parts| > n {
      JoinTail(parts[..n - 1], parts[n - 1..], sep);
      assert parts[..n - 1] + parts[n - 1..] == parts;
    }
  }

  /** What is cut off, trimming takes away or leaves alone. */
  predicate Cut(a: string, b: string) { |b| < |a| || b == a }

  lemma {:induction false} CutJoin(a: seq<string>, b: seq<string>, sep: string)
    requires |a| == |b| && forall i :: 0 <= i < |a| ==> Cut(a[i], b[i])
    ensures |Join(b, sep)| <= |Join(a, sep)|
    ensures |Join(b, sep)| == |Join(a, sep)| ==> a == b
  {
    if |a| == 1 {
      assert a == [a[0]] && b == [b[0]];
    } else if |a| > 1 {
      CutJoin(a[1..], b[1..], sep);
      assert Cut(a[0], b[0]) && a == [a[0]] + a[1..] && b == [b[0]] + b[1..];
    }
  }

  /** What the variables hold of a string: its pieces as they were trimmed; and the string
      itself exactly if trimming takes nothing away from any piece. */
  lemma TrimmedSpread(n: nat, s: string, sep: string, trim: string -> string)
    requires n > 0 && sep != "" && forall x :: Cut(x, trim(x))
    ensures var parts := Each(trim, Pieces(s, sep));
      && Join(Spread(n, parts, sep), sep) == Join(parts, sep)
      && (Join(Spread(n, parts, sep), sep) == s <==> parts == Pieces(s, sep))
  {
    SpreadKeeps(n, Each(trim, Pieces(s, sep)), sep);
    SplitThenJoin(s, sep);
    CutJoin(Pieces(s, sep), Each(trim, Pieces(s, sep)), sep);
  }

  /** Takes the blanks off a string's start. */
  function Trimmed(s: string): (r: string)
    ensures Cut(s, r)
  {
    if s != "" && s[0] == ' ' then Trimmed(s[1..]) else s
  }

  lemma OccursChar(s: string, c: string, k: nat)
    requires |c| == 1
    ensures OccursAt(s, c, k) <==> k < |s| && s[k] == c[0]
  {
    if k < |s| {
      assert s[k..k + 1] == [s[k]] && c == [c[0]];
    }
  }

  lemma BlankPieces()
    ensures Pieces("a, b", ",") == ["a", " b"]
  {
    hide Find, OccursAt;
    var s, b := "a, b", " b";
    forall k: nat ensures !OccursAt(b, ",", k) && (OccursAt(s, ",", k) <==> k == 1) {
      OccursChar(b, ",", k);
      OccursChar(s, ",", k);
    }
    assert Find(b, ",") == -1 && OccursAt(s, ",", 1) && Find(s, ",") == 1;
    assert s[1 + |","|..] == b && s[..1] == "a" && Pieces(b, ",") == [b];
  }

  /** The pieces of "a, b" do not keep their blank. */
  lemma BlankLost()
    ensures var parts := Each(Trimmed, Pieces("a, b", ","));
      parts == ["a", "b"] && Join(Spread(2, parts, ","), ",") == "a,b"
  {
    hide Pieces;
    BlankPieces();
    var b := " b";
    assert Trimmed("a") == "a" && b[1..] == "b" && Trimmed("b") == "b" && Trimmed(b) == "b";
    assert ["a", "b"][1..] == ["b"];
  }

  // -------- into variables --------

  /** The first `n` pieces added to the context under the first `n` names. */
  function AddFirst(same: (string, string) -> bool, chain: Chain, names: seq<string>, parts: seq<string>,
                    n: nat): (r: Changed)
    requires Sound(chain) && n <= |names| && n <= |parts|
    ensures r.Ok? ==> Sound(r.chain) && r.chain[0].kind == chain[0].kind
  {
    if n == 0 then Ok(chain)
    else
      var before := AddFirst(same, chain, names, parts, n - 1);
      if before.Err? then before
      else
        AddFills(same, before.chain, names[n - 1], parts[n - 1], "");
        var r := AddValue(same, before.chain, names[n - 1], parts[n - 1], "");
        if r.Ok? then FilledSound(before.chain, r.chain); r else r
  }

  /** What is left over, each piece behind a separator. */
  function Rest(parts: seq<string>, sep: string): string {
    if parts == [] then "" else sep + parts[0] + Rest(parts[1..], sep)
  }

  function Min(a: nat, b: nat): nat { if a < b then a else b }

  /** What the branch for several names makes of the variables. */
  function Distributed(same: (string, string) -> bool, chain: Chain, names: seq<string>, parts: seq<string>,
                       sep: string): Changed
    requires Sound(chain) && names != []
  {
    var n := |names|;
    var added := AddFirst(same, chain, names, parts, Min(n, |parts|));
    if added.Err? || |parts| <= n then added
    else SetValue(added.chain, names[n - 1], GetValue(added.chain, names[n - 1]) + Rest(parts[n..], sep))
  }

  /** The loops over names and pieces, in the context. */
  method Distribute(same: (string, string) -> bool, ctx: Context, names: seq<string>, parts: seq<string>, sep: string)
    returns (error: Option<string>)
    requires ctx.Valid() && Sound(ctx.Frames()) && names != []
    modifies ctx.Repr
    ensures ctx.Valid()
    ensures match Distributed(same, old(ctx.Frames()), names, parts, sep)
      case Ok(chain) => error == None && ctx.Frames() == chain
      case Err(message) => error == Some(message)
  {
    hide Context.Frames, AddValue, Variables.SetValue, Variables.GetValue;
    ghost var chain := ctx.Frames();
    error := None;
    var i, j := 0, 0;
    while i < |names| && j < |parts|
      invariant i == j <= |names| && j <= |parts| && ctx.Valid() && error.None?
      invariant AddFirst(same, chain, names, parts, j) == Ok(ctx.Frames())
    {
      error := ctx.AddValue(same, names[i], parts[j], "");
      if error.Some? {
        StaysFailed(same, chain, names, parts, j + 1, Min(|names|, |parts|));
        return;
      }
      i, j := i + 1, j + 1;
    }
    if j < |parts| {
      i := i - 1;
      var v := ctx.GetValue(names[i]);
      v := Append(v, parts, j, sep);
      error := ctx.SetValue(names[i], v);
    }
  }

  method Append(start: string, parts: seq<string>, from: nat, sep: string) returns (v: string)
    requires from <= |parts|
    ensures v == start + Rest(parts[from..], sep)
  {
    v := start;
    var j := from;
    while j < |parts|
      invariant from <= j <= |parts|
      invariant v + Rest(parts[j..], sep) == start + Rest(parts[from..], sep)
    {
      assert parts[j..][1..] == parts[j + 1..];
      Assoc(v, sep + parts[j], Rest(parts[j + 1..], sep));
      Assoc(v, sep, parts[j]);
      v := v + sep + parts[j];
      j := j + 1;
    }
  }

  lemma {:induction false} StaysFailed(same: (string, string) -> bool, chain: Chain, names: seq<string>,
                                       parts: seq<string>,
                                       n: nat, m: nat)
    requires Sound(chain) && n <= m <= |names| && m <= |parts| && AddFirst(same, chain, names, parts, n).Err?
    ensures AddFirst(same, chain, names, parts, m) == AddFirst(same, chain, names, parts, n)
  {
    if n < m {
      StaysFailed(same, chain, names, parts, n, m - 1);
    }
  }

  predicate Distinct(names: seq<string>) {
    forall i, j :: 0 <= i < j < |names| ==> Upper(names[i]) != Upper(names[j])
  }

  lemma {:induction false} FirstAdded(same: (string, string) -> bool, chain: Chain, names: seq<string>,
                                      parts: seq<string>, n: nat)
    requires Sound(chain) && n <= |names| && n <= |parts| && Distinct(names) && same(chain[0].kind, chain[0].kind)
    ensures var r := AddFirst(same, chain, names, parts, n);
      r.Ok? && forall i :: 0 <= i < n ==> Found(r.chain[0].layers, Upper(names[i]), parts[i])
  {
    hide Upper;
    if n > 0 {
      FirstAdded(same, chain, names, parts, n - 1);
      var before := AddFirst(same, chain, names, parts, n - 1).chain;
      var layers := before[0].layers;
      assert AddValue(same, before, names[n - 1], parts[n - 1], "")
          == Ok([before[0].(layers := OnTop(layers, Upper(names[n - 1]), parts[n - 1]))] + before[1..]);
    }
  }

  /** The innermost layer has the key with the value. */
  predicate Found(layers: seq<Vars>, key: string, value: string) {
    layers != [] && key in layers[|layers| - 1] && layers[|layers| - 1][key] == value
  }

  lemma FoundIsGot(chain: Chain, name: string, value: string)
    requires chain != [] && Found(chain[0].layers, Upper(name), value)
    ensures GetValue(chain, name) == value
  {
  }

  lemma {:induction false} RestJoins(first: string, parts: seq<string>, sep: string)
    ensures first + Rest(parts, sep) == Join([first] + parts, sep)
    decreases |parts|
  {
    if parts == [] {
      assert [first] + parts == [first];
    } else {
      RestJoins(parts[0], parts[1..], sep);
      JoinMore(first, parts, sep);
      assert [parts[0]] + parts[1..] == parts;
      Assoc(first, sep + parts[0], Rest(parts[1..], sep));
      Assoc(first, sep, parts[0]);
      Assoc(first + sep, parts[0], Rest(parts[1..], sep));
    }
  }

  /** With different names, each variable has one piece, the last one all that remain. */
  lemma EachVariable(same: (string, string) -> bool, chain: Chain, names: seq<string>, parts: seq<string>,
                     sep: string, i: nat)
    requires Sound(chain) && names != [] && Distinct(names) && same(chain[0].kind, chain[0].kind)
    requires i < |names| && i < |parts|
    ensures var r := Distributed(same, chain, names, parts, sep);
      r.Ok? && i < |Spread(|names|, parts, sep)| && GetValue(r.chain, names[i]) == Spread(|names|, parts, sep)[i]
  {
    hide Upper, AddFirst, AddValue, Variables.SetValue, Join;
    var n, m := |names|, Min(|names|, |parts|);
    FirstAdded(same, chain, names, parts, m);
    var added := AddFirst(same, chain, names, parts, m).chain;
    FoundIsGot(added, names[i], parts[i]);
    if |parts| > n {
      FoundIsGot(added, names[n - 1], parts[n - 1]);
      var v := parts[n - 1] + Rest(parts[n..], sep);
      RestJoins(parts[n - 1], parts[n..], sep);
      assert [parts[n - 1]] + parts[n..] == parts[n - 1..];
      FoundSets(added, names[n - 1], v);
      SetThenGet(added, names[n - 1], v, names[i]);
    }
  }

  lemma FoundSets(chain: Chain, name: string, value: string)
    requires chain != [] && Found(chain[0].layers, Upper(name), GetValue(chain, name))
    ensures SetValue(chain, name, value).Ok?
  {
  }
}
