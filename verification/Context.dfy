/** The contexts of running scripts, as objects: layers of variables and the stack of
    custom tag calls. */
module Contexts {
  import opened Basics
  import opened Variables

  class Context {
    var layers: seq<Vars>
    var exec: seq<Call>
    const parent: Context?
    const kind: string
    ghost const Repr: set<Context>

    ghost predicate Valid()
      reads Repr
      decreases Repr
    {
      && this in Repr && UpperKeys(layers)
      && (parent != null ==> parent in Repr && parent.Repr < Repr && this !in parent.Repr && parent.Valid())
    }

    function Frames(): (r: Chain)
      requires Valid()
      reads Repr
      ensures |r| > 0 && r[0] == Frame(kind, layers)
      decreases Repr
    {
      [Frame(kind, layers)] + if parent == null then [] else parent.Frames()
    }

    constructor (kind: string, parent: Context?)
      requires parent != null ==> parent.Valid()
      ensures Valid() && Repr == {this} + (if parent == null then {} else parent.Repr)
      ensures exec == [] && this.kind == kind && this.parent == parent
      ensures Frames() == [Frame(kind, [map[]])] + if parent == null then [] else parent.Frames()
    {
      this.kind, this.parent := kind, parent;
      layers, exec := [map[]], [];
      Repr := {this} + if parent == null then {} else parent.Repr;
    }

    method Enter()
      requires Valid()
      modifies this`layers
      ensures Valid() && Frames() == Variables.Enter(old(Frames()))
    {
      layers := layers + [map[]];
    }

    method Leave()
      requires Valid() && layers != []
      modifies this`layers
      ensures Valid() && Frames() == Variables.Leave(old(Frames()))
    {
      layers := layers[..|layers| - 1];
    }

    /** A loop over the layers from the innermost out, then the parent. */
    method GetValue(name: string) returns (value: string)
      requires Valid()
      ensures value == Variables.GetValue(Frames(), name)
      decreases Repr
    {
      var key := Upper(name);
      var i := |layers|;
      assert layers[..i] == layers;
      while i > 0
        invariant 0 <= i <= |layers|
        invariant Lookup(layers, key) == Lookup(layers[..i], key)
      {
        i := i - 1;
        if key in layers[i] {
          return layers[i][key];
        }
        assert layers[..i + 1][..i] == layers[..i];
      }
      if parent != null {
        assert Frames()[1..] == parent.Frames();
        value := parent.GetValue(name);
      } else {
        value := "";
      }
    }

    /** The layers in order, the variables of each in any order. */
    method GetValues() returns (values: Vars)
      requires Valid()
      ensures values == Flat(layers)
      ensures forall name :: name in values ==> values[name] == Variables.GetValue(Frames(), name)
    {
      values := map[];
      var i := 0;
      while i < |layers|
        invariant 0 <= i <= |layers|
        invariant values == Flat(layers[..i])
      {
        var outer, left := values, layers[i].Keys;
        while left != {}
          invariant left <= layers[i].Keys
          invariant values == outer + (map k | k in layers[i] && k !in left :: layers[i][k])
        {
          var k :| k in left;
          values, left := values[k := layers[i][k]], left - {k};
        }
        assert layers[..i + 1][..i] == layers[..i];
        assert values == outer + layers[i];
        i := i + 1;
      }
      assert layers[..i] == layers;
      forall name | name in values ensures values[name] == Variables.GetValue(Frames(), name) {
        FlatView(Frames(), name);
      }
    }

    /** The loop over the context's own layers. */
    method SetHere(key: string, value: string) returns (found: bool)
      requires Valid() && Upper(key) == key
      modifies this`layers
      ensures Valid() && found == SetLayers(old(layers), key, value).Some?
      ensures layers == if found then SetLayers(old(layers), key, value).value else old(layers)
    {
      ghost var was := layers;
      var i := |layers|;
      assert layers[..i] == layers;
      Appended(was, key, value);
      while i > 0
        invariant 0 <= i <= |layers| && layers == was && Valid()
        invariant SetLayers(was, key, value) == match SetLayers(was[..i], key, value)
          case None => None
          case Some(outer) => Some(outer + was[i..])
      {
        i := i - 1;
        if key in layers[i] {
          assert was[..i + 1][..i] + [was[i][key := value]] + was[i + 1..] == was[i := was[i][key := value]];
          layers := layers[i := layers[i][key := value]];
          return true;
        }
        UnboundHere(was, key, value, i);
      }
      found := false;
    }

    method SetValue(name: string, value: string) returns (error: Option<string>)
      requires Valid()
      modifies Repr`layers
      ensures Valid()
      ensures match Variables.SetValue(old(Frames()), name, value)
        case Ok(chain) => error == None && Frames() == chain
        case Err(message) => error == Some(message) && Frames() == old(Frames())
      decreases Repr
    {
      hide Upper, SetLayers, UpperKeys, Variables.SetValue;
      ghost var parents := if parent == null then [] else parent.Frames();
      UpperTwice(name);
      SetSplit(Frame(kind, layers), parents, name, value);
      var found := SetHere(Upper(name), value);
      assert Frames() == [Frame(kind, layers)] + parents;
      if found {
        error := None;
      } else if parent != null {
        error := parent.SetValue(name, value);
        assert Frames() == [Frame(kind, layers)] + parent.Frames();
      } else {
        error := Some("variable " + name + " is not defined");
      }
    }

    /** `same` is the comparison of variable types. */
    method AddValue(same: (string, string) -> bool, name: string, value: string, kind: string)
      returns (error: Option<string>)
      requires Valid() && Sound(Frames())
      modifies Repr`layers
      ensures Valid()
      ensures match Variables.AddValue(same, old(Frames()), name, value, kind)
        case Ok(chain) => error == None && Frames() == chain
        case Err(message) => error == Some(message) && Frames() == old(Frames())
      decreases Repr
    {
      hide Upper, UpperKeys, Variables.AddValue;
      ghost var parents := if parent == null then [] else parent.Frames();
      ghost var was := Frame(this.kind, layers);
      AddSplit(same, was, parents, name, value, kind);
      var wanted := if kind == "" then this.kind else kind;
      if same(wanted, this.kind) {
        UpperTwice(name);
        UpperOnTop(layers, Upper(name), value);
        var n := |layers| - 1;
        layers := layers[n := layers[n][Upper(name) := value]];
        assert Frames() == [was.(layers := layers)] + parents;
        error := None;
      } else if parent != null {
        assert Frames()[1..] == parents;
        SoundParents(Frames());
        error := parent.AddValue(same, name, value, wanted);
        assert Frames() == [was] + parent.Frames();
      } else {
        error := Some("unknown variable type " + kind);
      }
    }

    method Push(call: Call)
      requires Valid()
      modifies this`exec
      ensures Valid() && Frames() == old(Frames())
      ensures exec == old(exec) + [call]
    {
      exec := exec + [call];
    }

    method Pop() returns (call: Option<Call>)
      requires Valid()
      modifies this`exec
      ensures Valid() && Frames() == old(Frames())
      ensures if old(exec) == [] then call == None && exec == []
              else call == Some(old(exec)[|old(exec)| - 1]) && exec == old(exec)[..|old(exec)| - 1]
    {
      if exec == [] {
        return None;
      }
      call := Some(exec[|exec| - 1]);
      exec := exec[..|exec| - 1];
    }
  }
}
