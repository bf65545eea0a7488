/** The printing of html tags as the program does it: loops over characters, and a variable
    of the context that tells whether a tag is the root. */
module HtmlPrinter {
  import opened Basics
  import opened Variables
  import opened Contexts
  import H = Html
  import C = HtmlContent

  const FIRST := "@HTML:FIRST@"

  predicate Inside(chain: Chain) {
    GetValue(chain, FIRST) != ""
  }

  // -------- character loops --------

  method Htmlentities(src: string) returns (rslt: string)
    ensures rslt == H.Entities(src)
    ensures C.Decoded(rslt) == src <==> C.NoneWritten(src)
  {
    hide C.Decoded, C.NoneWritten;
    C.DecodedBack(src);
    rslt := "";
    for i := 0 to |src|
      invariant rslt == H.Entities(src[..i])
    {
      H.EntitiesConcat(src[..i], [src[i]]);
      assert src[..i + 1] == src[..i] + [src[i]];
      assert H.Entities([src[i]]) == H.Entity(src[i]);
      match src[i]
      case '\'' => rslt := rslt + "&apos;";
      case '"' => rslt := rslt + "&quot;";
      case '<' => rslt := rslt + "&lt;";
      case '>' => rslt := rslt + "&gt;";
      case c => rslt := rslt + [c];
    }
    assert src[..|src|] == src;
  }

  /** Also `keep_entities`, which is the same loop. */
  method Stub(src: string) returns (rslt: string)
    ensures rslt == H.Stub(src)
  {
    rslt := "";
    for i := 0 to |src|
      invariant rslt == H.Stub(src[..i])
    {
      match src[i]
      case '\'' => rslt := rslt + [H.P_APOS];
      case '"' => rslt := rslt + [H.P_QUOT];
      case '<' => rslt := rslt + [H.P_LT];
      case '>' => rslt := rslt + [H.P_GT];
      case c => rslt := rslt + [c];
    }
    assert src[..|src|] == src;
  }

  method Htmlentitiesout(src: string, out: string) returns (out': string)
    ensures out' == out + H.Out(src)
  {
    out' := out;
    for i := 0 to |src|
      invariant out' == out + H.Out(src[..i])
    {
      assert H.Out(src[..i + 1]) == H.Out(src[..i]) + [H.Character(src[i])];
      out' := out' + [H.Character(src[i])];
    }
    assert src[..|src|] == src;
  }

  method Convert(m: H.Mode, src: string) returns (rslt: string)
    ensures rslt == H.Convert(m, src)
  {
    if m.Escape? {
      rslt := Htmlentities(src);
    } else {
      rslt := Stub(src);
    }
  }

  // -------- tags --------

  ghost predicate Ready(ctx: Context, same: (string, string) -> bool)
    reads ctx.Repr
  {
    ctx.Valid() && ctx in ctx.Repr && Sound(ctx.Frames()) && same(ctx.kind, ctx.kind)
  }

  method Execute(item: H.Item, same: (string, string) -> bool, ctx: Context) returns (out: string)
    requires Ready(ctx, same)
    modifies ctx.Repr
    ensures Ready(ctx, same) && ctx.Frames() == old(ctx.Frames())
    ensures out == H.Print(item, Inside(old(ctx.Frames())))
    decreases item, 1
  {
    hide H.RealAll, H.RealAttrs, H.AsIs, H.Out, Context.Valid, Context.Frames, Upper;
    var root := ctx.GetValue(FIRST);
    match item
    case Text(t) => out := t;
    case CData(t) =>
      if root == "" {
        out := t;
      } else {
        out := Stub(t);
      }
    case Html(_, _, _) =>
      if root == "" {
        ghost var chain := ctx.Frames();
        AddedToLayer(same, chain, FIRST, "1", FIRST);
        ctx.Enter();
        var error := ctx.AddValue(same, FIRST, "1", "");
        FilledSound(Variables.Enter(chain), ctx.Frames()) by { AddFills(same, Variables.Enter(chain), FIRST, "1", ""); }
        var s := RealExecute(item, same, ctx);
        out := Htmlentitiesout(s, "");
        assert "" + H.Out(s) == H.Out(s);
        ctx.Leave();
      } else {
        out := RealExecute(item, same, ctx);
      }
  }

  method WriteAttr(p: H.Param, own: H.Mode) returns (out: string)
    ensures out == H.RealAttr(p, own)
  {
    hide H.Convert;
    if p.name == "" || p.value == "" {
      return "";
    }
    if H.RAW_ATTR <= p.name {
      return " " + p.value;
    }
    if H.HIDDEN <= p.name {
      return "";
    }
    var v := Convert(own, p.value);
    out := " " + p.name + "=" + [H.P_QUOT] + v + [H.P_QUOT];
  }

  method WriteAttrs(params: seq<H.Param>, own: H.Mode) returns (out: string)
    ensures out == H.RealAttrs(params, own)
  {
    hide H.RealAttr;
    out := "";
    var i := 0;
    while i < |params|
      invariant 0 <= i <= |params|
      invariant H.RealAttrs(params, own) == out + H.RealAttrs(params[i..], own)
    {
      assert params[i..][1..] == params[i + 1..];
      Assoc(out, H.RealAttr(params[i], own), H.RealAttrs(params[i + 1..], own));
      var attr := WriteAttr(params[i], own);
      out := out + attr;
      i := i + 1;
    }
  }

  method ExecuteChildren(content: seq<H.Item>, same: (string, string) -> bool, ctx: Context) returns (out: string)
    requires Ready(ctx, same) && Inside(ctx.Frames())
    modifies ctx.Repr
    ensures Ready(ctx, same) && ctx.Frames() == old(ctx.Frames())
    ensures out == H.RealAll(content)
    decreases content, 2
  {
    hide H.Real, Context.Valid, Context.Frames, Upper;
    out := "";
    var i := 0;
    while i < |content|
      invariant 0 <= i <= |content|
      invariant Ready(ctx, same) && ctx.Frames() == old(ctx.Frames())
      invariant H.RealAll(content) == out + H.RealAll(content[i..])
    {
      assert content[i..][1..] == content[i + 1..];
      Assoc(out, H.Real(content[i]), H.RealAll(content[i + 1..]));
      var s := Execute(content[i], same, ctx);
      out := out + s;
      i := i + 1;
    }
  }

  method RealExecute(item: H.Item, same: (string, string) -> bool, ctx: Context) returns (out: string)
    requires item.Html? && Ready(ctx, same) && Inside(ctx.Frames())
    modifies ctx.Repr
    ensures Ready(ctx, same) && ctx.Frames() == old(ctx.Frames())
    ensures out == H.Real(item)
    decreases item, 0
  {
    hide Context.Valid, Context.Frames, Upper, H.RealAll, H.RealAttrs, H.AsIs;
    var own := H.ModeOf(item.params);
    out := [H.P_LT] + item.name;
    var attrs := WriteAttrs(item.params, own);
    out := out + attrs;
    var data := ExecuteChildren(item.content, same, ctx);
    if data == "" && item.name in H.VOID_TAGS {
      out := out + ("/" + [H.P_GT]);
    } else {
      var converted := Convert(own, data);
      out := out + ([H.P_GT] + converted + [H.P_LT] + "/" + item.name + [H.P_GT]);
    }
  }

  /** A root tag in a context in which no tag has been opened yet: the output is that of
      the one-pass printer, and a reader finds in it what was printed, exactly if no entity
      is written in the texts and values. */
  method PrintRoot(item: H.Item, same: (string, string) -> bool) returns (out: string)
    requires item.Html? && H.PlainNames(item) && H.CleanItem(item) && same("local", "local")
    ensures out == H.Direct(item, H.Verbatim)
    ensures H.Ordinary(item) && C.NoEquals(item) ==>
      var page := C.PageOf(item, C.End("")); C.ReadPage(out) == page <==> C.Unwritten(page)
  {
    hide H.Real, H.Direct, H.PlainNames, H.CleanItem, H.Ordinary, C.NoEquals, C.PageOf, C.ReadPage, C.Unwritten, Upper;
    if H.Ordinary(item) && C.NoEquals(item) {
      C.ContentRecovered(item);
    }
    H.PrintedOnce(item);
    var ctx := new Context("local", null);
    assert Lookup([map[]], Upper(FIRST)) == None;
    assert GetValue(ctx.Frames()[1..], FIRST) == "";
    out := Execute(item, same, ctx);
  }
}
