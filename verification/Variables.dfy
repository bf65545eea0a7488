/** Variables of a running script: contexts hold layers of variables and hang in a chain
    of parents (local, global, user, system). */
module Variables {
  import opened Basics

  type Vars = map<string, string>

  datatype Frame = Frame(kind: string, layers: seq<Vars>)

  /** A context and its parents, the context itself first. */
  type Chain = seq<Frame>

  datatype Changed = Ok(chain: Chain) | Err(message: string)

  function Upper(name: string): (r: string)
    ensures |r| == |name|
  {
    seq(|name|, i requires 0 <= i < |name| => UpperChar(name[i]))
  }

  lemma UpperTwice(name: string)
    ensures Upper(Upper(name)) == Upper(name)
  {
  }

  /** Two names are those of the same variable exactly if they differ in nothing but the case
      of letters. */
  lemma SameVariable(a: string, b: string)
    ensures Upper(a) == Upper(b) <==> |a| == |b| && forall i :: 0 <= i < |a| ==> SameLetter(a[i], b[i])
  {
    hide UpperChar, SameLetter;
    if |a| == |b| {
      forall i | 0 <= i < |a| ensures Upper(a)[i] == Upper(b)[i] <==> SameLetter(a[i], b[i]) {
        UpperMeets(a[i], b[i]);
      }
      if Upper(a) == Upper(b) {
        assert forall i :: 0 <= i < |a| ==> Upper(a)[i] == Upper(b)[i];
      }
    }
  }

  /** The innermost of the layers that have the key decides. */
  function Lookup(layers: seq<Vars>, key: string): Option<string> {
    if layers == [] then None
    else
      var n := |layers| - 1;
      if key in layers[n] then Some(layers[n][key]) else Lookup(layers[..n], key)
  }

  function GetValue(chain: Chain, name: string): string {
    if chain == [] then ""
    else match Lookup(chain[0].layers, Upper(name))
      case Some(v) => v
      case None => GetValue(chain[1..], name)
  }

  /** The view of all layers at once: outer layers first, inner ones override them. */
  function Flat(layers: seq<Vars>): Vars {
    if layers == [] then map[] else Flat(layers[..|layers| - 1]) + layers[|layers| - 1]
  }

  function SetLayers(layers: seq<Vars>, key: string, value: string): (r: Option<seq<Vars>>)
    ensures r.Some? ==> |r.value| == |layers|
  {
    if layers == [] then None
    else
      var n := |layers| - 1;
      if key in layers[n] then Some(layers[..n] + [layers[n][key := value]])
      else match SetLayers(layers[..n], key, value)
        case None => None
        case Some(outer) => Some(outer + [layers[n]])
  }

  function SetValue(chain: Chain, name: string, value: string): (r: Changed)
    ensures r.Ok? ==> |r.chain| == |chain|
  {
    if chain == [] then Err("variable " + name + " is not defined")
    else match SetLayers(chain[0].layers, Upper(name), value)
      case Some(layers) => Ok([chain[0].(layers := layers)] + chain[1..])
      case None =>
        match SetValue(chain[1..], name, value)
        case Ok(parents) => Ok([chain[0]] + parents)
        case Err(message) => Err(message)
  }

  /** Each context has at least one layer: its constructor opens the first. */
  predicate Sound(chain: Chain) {
    |chain| > 0 && forall i :: 0 <= i < |chain| ==> |chain[i].layers| > 0
  }

  function OnTop(layers: seq<Vars>, key: string, value: string): (r: seq<Vars>)
    requires layers != []
    ensures |r| == |layers|
  {
    var n := |layers| - 1;
    layers[n := layers[n][key := value]]
  }

  function AddValue(same: (string, string) -> bool, chain: Chain, name: string, value: string,
                    kind: string): (r: Changed)
    requires Sound(chain)
    ensures r.Ok? ==> |r.chain| == |chain|
  {
    var wanted := if kind == "" then chain[0].kind else kind;
    if same(wanted, chain[0].kind) then
      Ok([chain[0].(layers := OnTop(chain[0].layers, Upper(name), value))] + chain[1..])
    else if |chain| == 1 then Err("unknown variable type " + kind)
    else
      assert Sound(chain[1..]);
      match AddValue(same, chain[1..], name, value, wanted)
      case Ok(parents) => Ok([chain[0]] + parents)
      case Err(message) => Err(message)
  }

  function Enter(chain: Chain): (r: Chain)
    requires |chain| > 0
    ensures |r| == |chain|
  {
    [chain[0].(layers := chain[0].layers + [map[]])] + chain[1..]
  }

  function Leave(chain: Chain): (r: Chain)
    requires |chain| > 0 && chain[0].layers != []
    ensures |r| == |chain|
  {
    [chain[0].(layers := chain[0].layers[..|chain[0].layers| - 1])] + chain[1..]
  }

  // -------- the flat view --------

  predicate UpperKeys(layers: seq<Vars>) {
    forall i, k :: 0 <= i < |layers| && k in layers[i] ==> Upper(k) == k
  }

  lemma {:induction false} FlatIsLookup(layers: seq<Vars>, key: string)
    ensures key in Flat(layers) <==> exists i :: 0 <= i < |layers| && key in layers[i]
    ensures Lookup(layers, key) == if key in Flat(layers) then Some(Flat(layers)[key]) else None
  {
    if layers != [] {
      var n := |layers| - 1;
      FlatIsLookup(layers[..n], key);
      if key in Flat(layers[..n]) {
        var i :| 0 <= i < n && key in layers[..n][i];
        assert key in layers[i];
      }
    }
  }

  /** The flat view maps exactly the names bound in some layer of the context, each to
      the value that looking it up in any case of letters gives. */
  lemma FlatView(chain: Chain, name: string)
    requires |chain| > 0
    ensures var flat := Flat(chain[0].layers); var key := Upper(name);
      && (key in flat <==> exists i :: 0 <= i < |chain[0].layers| && key in chain[0].layers[i])
      && (key in flat ==> flat[key] == GetValue(chain, name))
      && (key !in flat ==> GetValue(chain, name) == GetValue(chain[1..], name))
    ensures UpperKeys(chain[0].layers) && name in Flat(chain[0].layers) ==>
      Flat(chain[0].layers)[name] == GetValue(chain, name)
  {
    FlatIsLookup(chain[0].layers, Upper(name));
    FlatIsLookup(chain[0].layers, name);
  }

  /** A variable added to a new layer is found there, hides no other, and goes with the layer. */
  lemma AddedToLayer(same: (string, string) -> bool, chain: Chain, name: string, value: string, other: string)
    requires Sound(chain) && same(chain[0].kind, chain[0].kind)
    ensures Sound(Enter(chain))
    ensures var r := AddValue(same, Enter(chain), name, value, "");
      && r.Ok? && r.chain[0].layers != [] && Leave(r.chain) == chain
      && GetValue(r.chain, other) == if Upper(other) == Upper(name) then value else GetValue(chain, other)
  {
    hide Upper;
    var e := Enter(chain);
    EnterSound(chain);
    var c := e[0].(layers := OnTop(e[0].layers, Upper(name), value));
    var r := [c] + e[1..];
    assert AddValue(same, e, name, value, "") == Ok(r);
    assert c.layers[..|c.layers| - 1] == chain[0].layers;
    assert r[1..] == chain[1..] && Leave(r) == chain;
  }

  // -------- where a value is set --------

  /** Layer `j` of frame `i` holds the innermost binding of `key` along the chain. */
  predicate Innermost(chain: Chain, key: string, i: nat, j: nat) {
    && i < |chain| && j < |chain[i].layers| && key in chain[i].layers[j]
    && (forall k :: j < k < |chain[i].layers| ==> key !in chain[i].layers[k])
    && (forall h, k :: 0 <= h < i && 0 <= k < |chain[h].layers| ==> key !in chain[h].layers[k])
  }

  function Rebound(chain: Chain, key: string, value: string, i: nat, j: nat): Chain
    requires i < |chain| && j < |chain[i].layers|
  {
    chain[i := chain[i].(layers := chain[i].layers[j := chain[i].layers[j][key := value]])]
  }

  lemma {:induction false} SetLayersInnermost(layers: seq<Vars>, key: string, value: string) returns (j: int)
    ensures var r := SetLayers(layers, key, value);
      if r.None? then forall k :: 0 <= k < |layers| ==> key !in layers[k]
      else (0 <= j < |layers| && key in layers[j] && (forall k :: j < k < |layers| ==> key !in layers[k])
            && r.value == layers[j := layers[j][key := value]])
  {
    if layers == [] {
      j := -1;
    } else if key in layers[|layers| - 1] {
      j := |layers| - 1;
    } else {
      var n := |layers| - 1;
      j := SetLayersInnermost(layers[..n], key, value);
      if SetLayers(layers[..n], key, value).None? {
        forall k | 0 <= k < n ensures key !in layers[k] {
          assert layers[..n][k] == layers[k];
        }
      } else {
        forall k | j < k < n ensures key !in layers[k] {
          assert layers[..n][k] == layers[k];
        }
        assert layers == layers[..n] + [layers[n]];
      }
    }
  }

  /** Setting a variable changes the innermost binding along the chain and nothing else,
      and is refused exactly when there is none. */
  lemma {:induction false} SetChangesInnermost(chain: Chain, name: string, value: string) returns (i: int, j: int)
    ensures var r := SetValue(chain, name, value);
      if r.Err? then
        forall h, k :: 0 <= h < |chain| && 0 <= k < |chain[h].layers| ==> Upper(name) !in chain[h].layers[k]
      else
        && i >= 0 && j >= 0 && Innermost(chain, Upper(name), i, j)
        && r.chain == Rebound(chain, Upper(name), value, i, j)
  {
    hide Upper, SetLayers;
    i, j := -1, -1;
    if chain != [] {
      var own := SetLayersInnermost(chain[0].layers, Upper(name), value);
      if SetLayers(chain[0].layers, Upper(name), value).Some? {
        i, j := 0, own;
      } else {
        var parents := chain[1..];
        var h, k := SetChangesInnermost(parents, name, value);
        assert forall m :: 0 <= m < |parents| ==> parents[m] == chain[m + 1];
        if SetValue(parents, name, value).Ok? {
          i, j := h + 1, k;
          forall g, l | 0 <= g < i && 0 <= l < |chain[g].layers| ensures Upper(name) !in chain[g].layers[l] {
            if g > 0 {
              assert parents[g - 1] == chain[g];
            }
          }
        } else {
          forall g, l | 0 <= g < |chain| && 0 <= l < |chain[g].layers| ensures Upper(name) !in chain[g].layers[l] {
            if g > 0 {
              assert parents[g - 1] == chain[g];
            }
          }
        }
      }
    }
  }

  /** After a variable is set it is found with its new value, all others as before. */
  lemma {:induction false} SetThenGet(chain: Chain, name: string, value: string, other: string)
    ensures var r := SetValue(chain, name, value);
      r.Ok? ==> GetValue(r.chain, other) == if Upper(other) == Upper(name) then value else GetValue(chain, other)
  {
    hide Upper;
    if chain != [] {
      SetThenLookup(chain[0].layers, Upper(name), value, Upper(other));
      SetThenGet(chain[1..], name, value, other);
      SetNeedsNone(chain[0].layers, Upper(name), value);
    }
  }

  lemma {:induction false} SetThenLookup(layers: seq<Vars>, key: string, value: string, other: string)
    ensures var r := SetLayers(layers, key, value);
      r.Some? ==> Lookup(r.value, other) == if other == key then Some(value) else Lookup(layers, other)
  {
    if layers != [] {
      var n := |layers| - 1;
      var r := SetLayers(layers, key, value);
      if r.Some? {
        SetThenLookup(layers[..n], key, value, other);
        if key in layers[n] {
          assert r.value[..n] == layers[..n];
        } else {
          assert r.value[..n] == SetLayers(layers[..n], key, value).value;
        }
      }
    }
  }

  lemma {:induction false} SetNeedsNone(layers: seq<Vars>, key: string, value: string)
    ensures SetLayers(layers, key, value).None? <==> Lookup(layers, key).None?
  {
    if layers != [] {
      SetNeedsNone(layers[..|layers| - 1], key, value);
    }
  }

  // -------- which names there are --------

  /** Layers whose names are the same but for the top one, which may have more. */
  predicate Grown(a: seq<Vars>, b: seq<Vars>) {
    && |a| == |b|
    && (forall i :: 0 <= i < |a| ==> a[i].Keys <= b[i].Keys)
    && (forall i :: 0 <= i < |a| - 1 ==> a[i].Keys == b[i].Keys)
  }

  predicate SameNames(a: seq<Vars>, b: seq<Vars>) {
    |a| == |b| && forall i :: 0 <= i < |a| ==> a[i].Keys == b[i].Keys
  }

  predicate ParentsGrown(a: Chain, b: Chain) {
    |a| == |b| && forall i :: 1 <= i < |a| ==> a[i].kind == b[i].kind && Grown(a[i].layers, b[i].layers)
  }

  /** What running part of a script leaves of a chain while the layer it runs in is open. */
  predicate Filled(a: Chain, b: Chain) {
    |a| > 0 && ParentsGrown(a, b) && a[0].kind == b[0].kind && Grown(a[0].layers, b[0].layers)
  }

  /** What running part of a script as a whole leaves of a chain: in the context itself
      the layers and their names; in its parents the layers, and their names but for new
      ones in the top layers. */
  predicate Kept(a: Chain, b: Chain) {
    |a| > 0 && ParentsGrown(a, b) && a[0].kind == b[0].kind && SameNames(a[0].layers, b[0].layers)
  }

  lemma FilledTrans(a: Chain, b: Chain, c: Chain)
    requires Filled(a, b) && Filled(b, c)
    ensures Filled(a, c)
  {
    forall i | 1 <= i < |a| ensures a[i].kind == c[i].kind && Grown(a[i].layers, c[i].layers) {
      assert Grown(a[i].layers, b[i].layers) && Grown(b[i].layers, c[i].layers);
    }
  }

  lemma KeptTrans(a: Chain, b: Chain, c: Chain)
    requires Kept(a, b) && Kept(b, c)
    ensures Kept(a, c)
  {
    forall i | 1 <= i < |a| ensures a[i].kind == c[i].kind && Grown(a[i].layers, c[i].layers) {
      assert Grown(a[i].layers, b[i].layers) && Grown(b[i].layers, c[i].layers);
    }
  }

  lemma KeptSelf(a: Chain)
    requires |a| > 0
    ensures Kept(a, a) && Filled(a, a)
  {
  }

  lemma KeptIsFilled(a: Chain, b: Chain)
    requires Kept(a, b)
    ensures Filled(a, b)
  {
  }

  lemma FilledSound(a: Chain, b: Chain)
    requires Filled(a, b) && Sound(a)
    ensures Sound(b)
  {
    forall i | 0 <= i < |b| ensures |b[i].layers| > 0 {
      assert Grown(a[i].layers, b[i].layers);
    }
  }

  lemma KeptSound(a: Chain, b: Chain)
    requires Kept(a, b) && Sound(a)
    ensures Sound(b)
  {
    KeptIsFilled(a, b);
    FilledSound(a, b);
  }

  lemma EnterSound(a: Chain)
    requires Sound(a)
    ensures Sound(Enter(a))
  {
  }

  /** Whatever was filled into the layer that was entered, leaving it drops. */
  lemma LeaveKeeps(a: Chain, b: Chain)
    requires |a| > 0 && Filled(Enter(a), b)
    ensures b[0].layers != [] && Kept(a, Leave(b))
  {
    var e, l := Enter(a), Leave(b);
    assert SameNames(a[0].layers, l[0].layers) by {
      forall i | 0 <= i < |a[0].layers| ensures a[0].layers[i].Keys == l[0].layers[i].Keys {
        assert e[0].layers[i] == a[0].layers[i] && l[0].layers[i] == b[0].layers[i];
      }
    }
    forall i | 1 <= i < |a| ensures a[i].kind == l[i].kind && Grown(a[i].layers, l[i].layers) {
      assert e[i] == a[i] && l[i] == b[i];
    }
  }

  lemma {:induction false} AddFills(same: (string, string) -> bool, chain: Chain, name: string, value: string,
                                    kind: string)
    requires Sound(chain)
    ensures var r := AddValue(same, chain, name, value, kind); r.Ok? ==> Filled(chain, r.chain)
  {
    hide Upper;
    var r := AddValue(same, chain, name, value, kind);
    var wanted := if kind == "" then chain[0].kind else kind;
    if r.Ok? && !same(wanted, chain[0].kind) {
      assert Sound(chain[1..]);
      AddFills(same, chain[1..], name, value, wanted);
      forall i | 1 <= i < |chain|
        ensures chain[i].kind == r.chain[i].kind && Grown(chain[i].layers, r.chain[i].layers)
      {
        assert chain[1..][i - 1] == chain[i] && r.chain[1..][i - 1] == r.chain[i];
      }
    }
  }

  lemma {:induction false} SetKeeps(chain: Chain, name: string, value: string)
    requires |chain| > 0
    ensures var r := SetValue(chain, name, value); r.Ok? ==> Kept(chain, r.chain)
  {
    hide Upper, SetValue;
    var i, j := SetChangesInnermost(chain, name, value);
  }

  lemma UnboundHere(layers: seq<Vars>, key: string, value: string, i: nat)
    requires i < |layers| && key !in layers[i]
    ensures match SetLayers(layers[..i + 1], key, value)
      case None => SetLayers(layers[..i], key, value).None?
      case Some(outer) =>
        (var r := SetLayers(layers[..i], key, value); r.Some? && outer + layers[i + 1..] == r.value + layers[i..])
  {
    assert layers[..i + 1][..i] == layers[..i];
  }

  lemma Appended(layers: seq<Vars>, key: string, value: string)
    ensures var r := SetLayers(layers, key, value); r.Some? ==> r.value + layers[|layers|..] == r.value
  {
  }

  lemma SetSplit(own: Frame, parents: Chain, name: string, value: string)
    ensures SetValue([own] + parents, name, value) ==
      match SetLayers(own.layers, Upper(name), value)
      case Some(layers) => Ok([own.(layers := layers)] + parents)
      case None =>
        (match SetValue(parents, name, value)
         case Ok(chain) => Ok([own] + chain)
         case Err(message) => Err(message))
    ensures SetValue([], name, value) == Err("variable " + name + " is not defined")
  {
    hide Upper, SetLayers;
    assert ([own] + parents)[1..] == parents;
  }

  lemma SoundParents(chain: Chain)
    requires Sound(chain) && |chain| > 1
    ensures Sound(chain[1..])
  {
  }

  lemma AddSplit(same: (string, string) -> bool, own: Frame, parents: Chain, name: string, value: string, kind: string)
    requires Sound([own] + parents)
    ensures own.layers != [] && (parents != [] ==> Sound(parents))
    ensures var wanted := if kind == "" then own.kind else kind;
      AddValue(same, [own] + parents, name, value, kind) ==
        if same(wanted, own.kind) then Ok([own.(layers := OnTop(own.layers, Upper(name), value))] + parents)
        else if parents == [] then Err("unknown variable type " + kind)
        else (match AddValue(same, parents, name, value, wanted)
              case Ok(chain) => Ok([own] + chain)
              case Err(message) => Err(message))
  {
    hide Upper, OnTop;
    var chain := [own] + parents;
    assert chain[0] == own && chain[1..] == parents;
    if parents != [] {
      SoundParents(chain);
    }
  }

  lemma UpperOnTop(layers: seq<Vars>, key: string, value: string)
    requires layers != [] && UpperKeys(layers) && Upper(key) == key
    ensures UpperKeys(OnTop(layers, key, value))
  {
    hide Upper;
  }

  // -------- the call stack --------

  /** An entry of the call stack: the custom tag that was called and, for what is said
      about the stack below, the tags under it at that time. */
  datatype Call = Call(tag: nat, under: seq<nat>)

  function Tags(exec: seq<Call>): (r: seq<nat>)
    ensures |r| == |exec|
  {
    seq(|exec|, i requires 0 <= i < |exec| => exec[i].tag)
  }
}
