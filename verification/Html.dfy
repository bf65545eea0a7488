/** The printing of html tags: markup and text kept verbatim travel as placeholder bytes
    through the conversions of the enclosing tags, and become characters at the end. */
module Html {
  import opened Basics

  // -------- what is printed --------

  /** `text` is how the parameter is written, `value` what it evaluates to. */
  datatype Param = Param(name: string, text: string, value: string)

  datatype Item =
    | Html(name: string, params: seq<Param>, content: seq<Item>)
    | Text(text: string)
    | CData(text: string)

  const HIDDEN := "@DBP:PARAM@"
  const RAW_ATTR := "@DBP:PARAM@attr"
  const AS_IS := "@DBP:PARAM@asis"
  const VOID_TAGS := ["base", "meta", "link", "hr", "br", "basefont", "param", "img", "area", "input", "isindex", "col"]

  // -------- conversions --------

  const P_APOS := 1 as char
  const P_QUOT := 2 as char
  const P_LT := 3 as char
  const P_GT := 4 as char

  function Entity(c: char): string {
    if c == '\'' then "&apos;"
    else if c == '"' then "&quot;"
    else if c == '<' then "&lt;"
    else if c == '>' then "&gt;"
    else [c]
  }

  function Entities(s: string): string {
    if s == "" then "" else Entity(s[0]) + Entities(s[1..])
  }

  function Placeholder(c: char): char {
    if c == '\'' then P_APOS else if c == '"' then P_QUOT else if c == '<' then P_LT else if c == '>' then P_GT else c
  }

  function Stub(s: string): (r: string)
    ensures |r| == |s|
  {
    seq(|s|, i requires 0 <= i < |s| => Placeholder(s[i]))
  }

  function Character(c: char): char {
    if c == P_APOS then '\'' else if c == P_QUOT then '"' else if c == P_LT then '<' else if c == P_GT then '>' else c
  }

  function Out(s: string): (r: string)
    ensures |r| == |s|
  {
    seq(|s|, i requires 0 <= i < |s| => Character(s[i]))
  }

  datatype Mode = Escape | Verbatim

  function Convert(m: Mode, s: string): string {
    if m.Escape? then Entities(s) else Stub(s)
  }

  function AsIs(params: seq<Param>): bool {
    if params == [] then false
    else if params[0].name == AS_IS then params[0].text == "1"
    else AsIs(params[1..])
  }

  function ModeOf(params: seq<Param>): Mode {
    if AsIs(params) then Verbatim else Escape
  }

  // -------- the printer --------

  function RealAttr(p: Param, own: Mode): string {
    if p.name == "" || p.value == "" then ""
    else if RAW_ATTR <= p.name then " " + p.value
    else if HIDDEN <= p.name then ""
    else " " + p.name + "=" + [P_QUOT] + Convert(own, p.value) + [P_QUOT]
  }

  function RealAttrs(params: seq<Param>, own: Mode): string {
    if params == [] then "" else RealAttr(params[0], own) + RealAttrs(params[1..], own)
  }

  /** What is written inside a root tag. */
  function Real(item: Item): string
    decreases item, 0
  {
    match item
    case Text(t) => t
    case CData(t) => Stub(t)
    case Html(name, params, content) =>
      var own := ModeOf(params);
      var data := RealAll(content);
      [P_LT] + name + RealAttrs(params, own) +
      (if data == "" && name in VOID_TAGS then "/" + [P_GT]
       else [P_GT] + Convert(own, data) + [P_LT] + "/" + name + [P_GT])
  }

  function RealAll(content: seq<Item>): string
    decreases content, 1
  {
    if content == [] then "" else Real(content[0]) + RealAll(content[1..])
  }

  /** `inside`: there is a root tag around. */
  function Print(item: Item, inside: bool): string {
    if inside then Real(item)
    else match item
      case Html(_, _, _) => Out(Real(item))
      case Text(t) => t
      case CData(t) => t
  }

  // -------- printing in one pass --------

  function Shown(m: Mode, s: string): string {
    if m.Escape? then Entities(s) else s
  }

  /** `own` is the mode of the tag, `outer` that of the tag around it. */
  function DirectAttr(p: Param, own: Mode, outer: Mode): string {
    if p.name == "" || p.value == "" then ""
    else if RAW_ATTR <= p.name then " " + Shown(outer, p.value)
    else if HIDDEN <= p.name then ""
    else " " + p.name + "=\"" + Shown(own, p.value) + "\""
  }

  function DirectAttrs(params: seq<Param>, own: Mode, outer: Mode): string {
    if params == [] then "" else DirectAttr(params[0], own, outer) + DirectAttrs(params[1..], own, outer)
  }

  /** Every text and value is written once, in the mode of its innermost tag. */
  function Direct(item: Item, m: Mode): string
    decreases item, 0
  {
    match item
    case Text(t) => Shown(m, t)
    case CData(t) => t
    case Html(name, params, content) =>
      var own := ModeOf(params);
      var data := DirectAll(content, own);
      "<" + name + DirectAttrs(params, own, m) +
      (if data == "" && name in VOID_TAGS then "/>" else ">" + data + "</" + name + ">")
  }

  function DirectAll(content: seq<Item>, m: Mode): string
    decreases content, 1
  {
    if content == [] then "" else Direct(content[0], m) + DirectAll(content[1..], m)
  }

  // -------- what names and values may be --------

  predicate IsRaw(c: char) {
    c == '\'' || c == '"' || c == '<' || c == '>'
  }

  predicate IsPlaceholder(c: char) {
    1 <= c as int <= 4
  }

  predicate NoRaw(s: string) {
    forall i :: 0 <= i < |s| ==> !IsRaw(s[i])
  }

  predicate Clean(s: string) {
    forall i :: 0 <= i < |s| ==> !IsPlaceholder(s[i])
  }

  predicate PlainNames(item: Item) {
    item.Html? ==>
      && NoRaw(item.name) && Clean(item.name)
      && (forall p :: p in item.params ==> NoRaw(p.name) && Clean(p.name))
      && (forall c :: c in item.content ==> PlainNames(c))
  }

  predicate AllPlain(content: seq<Item>) {
    forall c :: c in content ==> PlainNames(c)
  }

  predicate PlainParams(params: seq<Param>) {
    forall p :: p in params ==> NoRaw(p.name) && Clean(p.name)
  }

  predicate IsShown(p: Param) {
    p.name != "" && (RAW_ATTR <= p.name || !(HIDDEN <= p.name))
  }

  predicate CleanParams(params: seq<Param>) {
    params == [] || ((IsShown(params[0]) ==> Clean(params[0].value)) && CleanParams(params[1..]))
  }

  /** No value that is printed has one of the placeholder bytes in it. */
  predicate CleanItem(item: Item)
    decreases item, 0
  {
    match item
    case Text(t) => Clean(t)
    case CData(t) => Clean(t)
    case Html(_, params, content) => CleanParams(params) && CleanAll(content)
  }

  predicate CleanAll(content: seq<Item>)
    decreases content, 1
  {
    content == [] || (CleanItem(content[0]) && CleanAll(content[1..]))
  }

  // -------- conversions compose --------

  lemma {:induction false} EntitiesConcat(a: string, b: string)
    ensures Entities(a + b) == Entities(a) + Entities(b)
  {
    hide Entity;
    if a == "" {
      assert a + b == b;
    } else {
      EntitiesConcat(a[1..], b);
      assert (a + b)[0] == a[0] && (a + b)[1..] == a[1..] + b;
      Assoc(Entity(a[0]), Entities(a[1..]), Entities(b));
    }
  }

  lemma ConvertConcat(m: Mode, a: string, b: string)
    ensures Convert(m, a + b) == Convert(m, a) + Convert(m, b)
  {
    hide Entities;
    EntitiesConcat(a, b);
  }

  lemma EntityNoRaw(c: char)
    ensures NoRaw(Entity(c)) && Entity(c) != "" && (!IsRaw(c) ==> Entity(c) == [c])
  {
  }

  lemma {:induction false} EntitiesNoRaw(s: string)
    ensures NoRaw(Entities(s))
    ensures NoRaw(s) ==> Entities(s) == s
    ensures Entities(s) == "" <==> s == ""
  {
    hide Entity, IsRaw;
    if s != "" {
      EntityNoRaw(s[0]);
      EntitiesNoRaw(s[1..]);
      assert s == [s[0]] + s[1..];
    }
  }

  lemma ConvertNoRaw(m: Mode, s: string)
    ensures NoRaw(Convert(m, s))
    ensures NoRaw(s) ==> Convert(m, s) == s
    ensures Convert(m, s) == "" <==> s == ""
  {
    EntitiesNoRaw(s);
  }

  /** A conversion does nothing to what has been converted: the innermost one counts. */
  lemma InnermostCounts(outer: Mode, inner: Mode, s: string)
    ensures Convert(outer, Convert(inner, s)) == Convert(inner, s)
  {
    ConvertNoRaw(inner, s);
    ConvertNoRaw(outer, Convert(inner, s));
  }

  // -------- what a conversion makes of a printed tag --------

  function MarkedAttr(p: Param, own: Mode, outer: Mode): string {
    if p.name == "" || p.value == "" then ""
    else if RAW_ATTR <= p.name then " " + Convert(outer, p.value)
    else if HIDDEN <= p.name then ""
    else " " + p.name + "=" + [P_QUOT] + Convert(own, p.value) + [P_QUOT]
  }

  function MarkedAttrs(params: seq<Param>, own: Mode, outer: Mode): string {
    if params == [] then "" else MarkedAttr(params[0], own, outer) + MarkedAttrs(params[1..], own, outer)
  }

  function Marked(item: Item, m: Mode): string
    decreases item, 0
  {
    match item
    case Text(t) => Convert(m, t)
    case CData(t) => Stub(t)
    case Html(name, params, content) =>
      var own := ModeOf(params);
      var data := MarkedAll(content, own);
      [P_LT] + name + MarkedAttrs(params, own, m) +
      (if data == "" && name in VOID_TAGS then "/" + [P_GT]
       else [P_GT] + data + [P_LT] + "/" + name + [P_GT])
  }

  function MarkedAll(content: seq<Item>, m: Mode): string
    decreases content, 1
  {
    if content == [] then "" else Marked(content[0], m) + MarkedAll(content[1..], m)
  }

  lemma NoRawConcat(a: string, b: string)
    requires NoRaw(a) && NoRaw(b)
    ensures NoRaw(a + b)
  {
  }

  lemma ConvertPlain(m: Mode, a: string, b: string)
    requires NoRaw(a)
    ensures Convert(m, a + b) == a + Convert(m, b)
  {
    ConvertConcat(m, a, b);
    ConvertNoRaw(m, a);
  }

  lemma AttrConverted(p: Param, own: Mode, m: Mode)
    requires NoRaw(p.name)
    ensures Convert(m, RealAttr(p, own)) == MarkedAttr(p, own, m)
  {
    hide Convert, NoRaw;
    ConvertNoRaw(m, "");
    Plain();
    if p.name != "" && p.value != "" {
      if RAW_ATTR <= p.name {
        ConvertPlain(m, " ", p.value);
      } else if !(HIDDEN <= p.name) {
        ConvertNoRaw(own, p.value);
        NoRawConcat(" ", p.name);
        NoRawConcat(" " + p.name, "=");
        NoRawConcat(" " + p.name + "=", [P_QUOT]);
        NoRawConcat(" " + p.name + "=" + [P_QUOT], Convert(own, p.value));
        NoRawConcat(" " + p.name + "=" + [P_QUOT] + Convert(own, p.value), [P_QUOT]);
        ConvertNoRaw(m, RealAttr(p, own));
      }
    }
  }

  lemma Plain()
    ensures NoRaw("") && NoRaw(" ") && NoRaw("=") && NoRaw("/") && NoRaw([P_LT]) && NoRaw([P_GT]) && NoRaw([P_QUOT])
  {
  }

  lemma {:induction false} AttrsConverted(params: seq<Param>, own: Mode, m: Mode)
    requires PlainParams(params)
    ensures Convert(m, RealAttrs(params, own)) == MarkedAttrs(params, own, m)
  {
    hide Convert, RealAttr, MarkedAttr;
    if params == [] {
      ConvertNoRaw(m, "");
    } else {
      AttrConverted(params[0], own, m);
      AttrsConverted(params[1..], own, m);
      ConvertConcat(m, RealAttr(params[0], own), RealAttrs(params[1..], own));
    }
  }

  /** The conversion of an enclosing tag reaches the texts right inside it and the raw
      attributes of the tags right inside it, and nothing below. */
  lemma {:induction false} TagConverted(item: Item, m: Mode)
    requires PlainNames(item)
    ensures Convert(m, Real(item)) == Marked(item, m)
    ensures Real(item) == "" <==> Marked(item, m) == ""
    decreases item, 0
  {
    hide Convert, RealAttrs, MarkedAttrs, NoRaw, Clean, Stub;
    ConvertNoRaw(m, Real(item));
    match item
    case Text(t) =>
    case CData(t) =>
      InnermostCounts(m, Verbatim, t);
      assert Convert(Verbatim, t) == Stub(t) by { StubIsVerbatim(t); }
    case Html(name, params, content) =>
      var own := ModeOf(params);
      var data := RealAll(content);
      ContentConverted(content, own);
      AttrsConverted(params, own, m);
      ConvertNoRaw(own, data);
      var rest := if data == "" && name in VOID_TAGS then "/" + [P_GT]
                  else [P_GT] + Convert(own, data) + [P_LT] + "/" + name + [P_GT];
      RestNoRaw(name, Convert(own, data));
      ConvertNoRaw(m, rest);
      Plain();
      NoRawConcat([P_LT], name);
      Assoc([P_LT] + name, RealAttrs(params, own), rest);
      ConvertPlain(m, [P_LT] + name, RealAttrs(params, own) + rest);
      ConvertConcat(m, RealAttrs(params, own), rest);
      Assoc([P_LT] + name, MarkedAttrs(params, own, m), rest);
  }

  lemma StubIsVerbatim(t: string)
    ensures Convert(Verbatim, t) == Stub(t)
  {
  }

  lemma RestNoRaw(name: string, data: string)
    requires NoRaw(name) && NoRaw(data)
    ensures NoRaw("/" + [P_GT]) && NoRaw([P_GT] + data + [P_LT] + "/" + name + [P_GT])
  {
  }

  lemma {:induction false} ContentConverted(content: seq<Item>, m: Mode)
    requires AllPlain(content)
    ensures Convert(m, RealAll(content)) == MarkedAll(content, m)
    decreases content, 1
  {
    hide Convert, Real, Marked;
    if content == [] {
      ConvertNoRaw(m, "");
    } else {
      TagConverted(content[0], m);
      ContentConverted(content[1..], m);
      ConvertConcat(m, Real(content[0]), RealAll(content[1..]));
    }
  }

  // -------- at the root --------

  /** Two texts of one length, one of which is what comes out of the other. */
  predicate Comes(marked: string, direct: string, clean: bool) {
    |marked| == |direct| && (Out(marked) == direct <==> clean)
  }

  lemma ComesConcat(a: string, b: string, a': string, b': string, x: bool, y: bool)
    requires Comes(a, a', x) && Comes(b, b', y)
    ensures Comes(a + b, a' + b', x && y)
  {
    assert Out(a + b) == Out(a) + Out(b);
    if Out(a) + Out(b) == a' + b' {
      assert (Out(a) + Out(b))[..|a|] == Out(a) && (Out(a) + Out(b))[|a|..] == Out(b);
      assert (a' + b')[..|a|] == a' && (a' + b')[|a|..] == b';
    }
  }

  lemma ComesPlain(s: string)
    requires Clean(s)
    ensures Comes(s, s, true)
  {
  }

  /** One leaf: it comes out as itself exactly if it has no placeholder byte in it. */
  lemma {:induction false} ComesEntities(s: string)
    ensures Comes(Entities(s), Entities(s), Clean(s))
  {
    if s == "" {
      assert Out("") == "";
    } else {
      var c, t := s[0], s[1..];
      ComesEntities(t);
      assert Comes(Entity(c), Entity(c), !IsPlaceholder(c)) by {
        if IsPlaceholder(c) {
          assert Out([c])[0] != c;
        } else {
          assert Clean(Entity(c));
          ComesPlain(Entity(c));
        }
      }
      ComesConcat(Entity(c), Entities(t), Entity(c), Entities(t), !IsPlaceholder(c), Clean(t));
      assert Clean(s) <==> !IsPlaceholder(c) && Clean(t) by {
        assert forall i :: 0 <= i < |t| ==> t[i] == s[i + 1];
        assert forall i :: 0 < i < |s| ==> s[i] == t[i - 1];
      }
    }
  }

  lemma ComesStub(s: string)
    ensures Comes(Stub(s), s, Clean(s))
  {
    if !Clean(s) {
      var i :| 0 <= i < |s| && IsPlaceholder(s[i]);
      assert Out(Stub(s))[i] != s[i];
    }
  }

  lemma ComesShown(m: Mode, s: string)
    ensures Comes(Convert(m, s), Shown(m, s), Clean(s))
  {
    if m.Escape? {
      ComesEntities(s);
    } else {
      ComesStub(s);
    }
  }

  lemma ComesMarkup()
    ensures Comes("", "", true) && Comes([P_LT], "<", true) && Comes([P_GT], ">", true) && Comes([P_QUOT], "\"", true)
    ensures Comes("/", "/", true) && Comes(" ", " ", true) && Comes("=", "=", true)
  {
    ComesPlain("");
    ComesPlain("/");
    ComesPlain(" ");
    ComesPlain("=");
    assert Out([P_LT]) == "<" && Out([P_GT]) == ">" && Out([P_QUOT]) == "\"";
  }

  lemma ComesAttr(p: Param, own: Mode, m: Mode)
    requires Clean(p.name)
    ensures Comes(MarkedAttr(p, own, m), DirectAttr(p, own, m), IsShown(p) ==> Clean(p.value))
  {
    hide Comes, Convert, Shown;
    ComesMarkup();
    if p.name == "" || p.value == "" || !IsShown(p) {
    } else if RAW_ATTR <= p.name {
      ComesShown(m, p.value);
      ComesConcat(" ", Convert(m, p.value), " ", Shown(m, p.value), true, Clean(p.value));
    } else {
      ComesShown(own, p.value);
      ComesPlain(p.name);
      ComesConcat(" ", p.name, " ", p.name, true, true);
      ComesConcat(" " + p.name, "=", " " + p.name, "=", true, true);
      ComesConcat(" " + p.name + "=", [P_QUOT], " " + p.name + "=", "\"", true, true);
      var a, b := " " + p.name + "=" + [P_QUOT], " " + p.name + "=" + "\"";
      ComesConcat(a, Convert(own, p.value), b, Shown(own, p.value), true, Clean(p.value));
      ComesConcat(a + Convert(own, p.value), [P_QUOT], b + Shown(own, p.value), "\"", Clean(p.value), true);
      assert " " + p.name + "=\"" == b;
    }
  }

  lemma {:induction false} ComesAttrs(params: seq<Param>, own: Mode, m: Mode)
    requires PlainParams(params)
    ensures Comes(MarkedAttrs(params, own, m), DirectAttrs(params, own, m), CleanParams(params))
  {
    hide Comes, MarkedAttr, DirectAttr, IsShown;
    if params == [] {
      ComesMarkup();
    } else {
      ComesAttr(params[0], own, m);
      ComesAttrs(params[1..], own, m);
      ComesConcat(MarkedAttr(params[0], own, m), MarkedAttrs(params[1..], own, m),
                  DirectAttr(params[0], own, m), DirectAttrs(params[1..], own, m),
                  IsShown(params[0]) ==> Clean(params[0].value), CleanParams(params[1..]));
    }
  }

  lemma {:induction false} ComesItem(item: Item, m: Mode)
    requires PlainNames(item)
    ensures Comes(Marked(item, m), Direct(item, m), CleanItem(item))
    decreases item, 0
  {
    hide Comes, Convert, Shown, MarkedAttrs, DirectAttrs, CleanParams;
    match item
    case Text(t) => ComesShown(m, t);
    case CData(t) => ComesStub(t);
    case Html(name, params, content) =>
      var own := ModeOf(params);
      var data, shown := MarkedAll(content, own), DirectAll(content, own);
      ComesContent(content, own);
      ComesAttrs(params, own, m);
      SameEmpty(data, shown, CleanAll(content));
      var head, head' := [P_LT] + name + MarkedAttrs(params, own, m), "<" + name + DirectAttrs(params, own, m);
      ComesMarkup();
      ComesPlain(name);
      ComesConcat([P_LT], name, "<", name, true, true);
      ComesConcat([P_LT] + name, MarkedAttrs(params, own, m), "<" + name, DirectAttrs(params, own, m), true,
                  CleanParams(params));
      if data == "" && name in VOID_TAGS {
        ComesConcat("/", [P_GT], "/", ">", true, true);
        assert "/" + ">" == "/>";
        EmptyIsClean(content, own);
        ComesConcat(head, "/" + [P_GT], head', "/>", CleanParams(params), true);
      } else {
        ComesRest(name, data, shown, CleanAll(content));
        ComesConcat(head, [P_GT] + data + [P_LT] + "/" + name + [P_GT], head', ">" + shown + "</" + name + ">",
                    CleanParams(params), CleanAll(content));
      }
  }

  lemma SameEmpty(a: string, b: string, x: bool)
    requires Comes(a, b, x)
    ensures a == "" <==> b == ""
  {
  }

  lemma EmptyIsClean(content: seq<Item>, m: Mode)
    requires MarkedAll(content, m) == "" && Comes("", DirectAll(content, m), CleanAll(content))
    ensures CleanAll(content)
  {
    assert Out("") == "";
  }

  lemma ComesRest(name: string, data: string, shown: string, x: bool)
    requires Clean(name) && Comes(data, shown, x)
    ensures Comes([P_GT] + data + [P_LT] + "/" + name + [P_GT], ">" + shown + "</" + name + ">", x)
  {
    hide Comes;
    ComesMarkup();
    ComesPlain(name);
    ComesConcat([P_GT], data, ">", shown, true, x);
    ComesConcat([P_GT] + data, [P_LT], ">" + shown, "<", x, true);
    ComesConcat([P_GT] + data + [P_LT], "/", ">" + shown + "<", "/", x, true);
    ComesConcat([P_GT] + data + [P_LT] + "/", name, ">" + shown + "<" + "/", name, x, true);
    ComesConcat([P_GT] + data + [P_LT] + "/" + name, [P_GT], ">" + shown + "<" + "/" + name, ">", x, true);
    assert ">" + shown + "<" + "/" == ">" + shown + "</";
  }

  lemma {:induction false} ComesContent(content: seq<Item>, m: Mode)
    requires AllPlain(content)
    ensures Comes(MarkedAll(content, m), DirectAll(content, m), CleanAll(content))
    decreases content, 1
  {
    hide Comes, Marked, Direct, CleanItem;
    if content == [] {
      ComesMarkup();
    } else {
      ComesItem(content[0], m);
      ComesContent(content[1..], m);
      ComesConcat(Marked(content[0], m), MarkedAll(content[1..], m), Direct(content[0], m), DirectAll(content[1..], m),
                  CleanItem(content[0]), CleanAll(content[1..]));
    }
  }

  lemma OutIgnoresStub(s: string)
    ensures Out(Stub(s)) == Out(s)
  {
  }

  /** A root tag is printed as the one-pass printer prints it, exactly if no printed value
      has a placeholder byte in it. */
  lemma PrintedOnce(item: Item)
    requires item.Html? && PlainNames(item)
    ensures Print(item, false) == Direct(item, Verbatim) <==> CleanItem(item)
  {
    hide Real, Marked, Direct, CleanItem, PlainNames;
    TagConverted(item, Verbatim);
    ComesItem(item, Verbatim);
    OutIgnoresStub(Real(item));
  }

  /** A text with the byte 3 in it comes out with an angle bracket. */
  lemma BracketForged()
    ensures var item := Html("b", [], [Text([P_LT])]); Print(item, false) != Direct(item, Verbatim)
  {
    var item := Html("b", [], [Text([P_LT])]);
    var t := [P_LT];
    assert IsPlaceholder(t[0]) && !Clean(t);
    assert !CleanItem(Text(t)) && item.content[0] == Text(t) && !CleanAll(item.content);
    assert PlainNames(item) by { assert forall c :: c in item.content ==> c == Text(t); }
    PrintedOnce(item);
  }

  // -------- the structure can be read back --------

  datatype Mark = Opening(name: string) | Closing(name: string) | Empty(name: string)

  function Find(s: string, c: char): (i: nat)
    ensures i <= |s| && c !in s[..i] && (i < |s| ==> s[i] == c)
  {
    if s == "" || s[0] == c then 0 else
      var i := Find(s[1..], c);
      assert s[..i + 1] == [s[0]] + s[1..][..i];
      i + 1
  }

  /** What stands between two angle brackets. */
  function MarkOf(t: string): Mark {
    if t != "" && t[0] == '/' then Closing(t[1..])
    else
      var name := t[..Find(t[..Find(t, '/')], ' ')];
      if t != "" && t[|t| - 1] == '/' then Empty(name) else Opening(name)
  }

  /** Reads text from one angle bracket to the next. */
  function Scan(s: string): seq<Mark>
    decreases |s|
  {
    var i := Find(s, '<');
    if i == |s| then [] else ScanMark(s[i + 1..])
  }

  function ScanMark(s: string): seq<Mark>
    decreases |s|
  {
    var i := Find(s, '>');
    if i == |s| then [] else [MarkOf(s[..i])] + Scan(s[i + 1..])
  }

  datatype Shape = Shape(name: string, inner: seq<Shape>)

  datatype Pending = Pending(name: string, before: seq<Shape>)

  /** Puts the marks together again with a stack of the elements that are open. */
  function Rebuild(marks: seq<Mark>, done: seq<Shape>, stack: seq<Pending>): Option<seq<Shape>> {
    if marks == [] then if stack == [] then Some(done) else None
    else if marks[0].Opening? then Rebuild(marks[1..], [], stack + [Pending(marks[0].name, done)])
    else if marks[0].Empty? then Rebuild(marks[1..], done + [Shape(marks[0].name, [])], stack)
    else if stack == [] || stack[|stack| - 1].name != marks[0].name then None
    else
      var p := stack[|stack| - 1];
      Rebuild(marks[1..], p.before + [Shape(p.name, done)], stack[..|stack| - 1])
  }

  function Shapes(item: Item): seq<Shape>
    decreases item, 0
  {
    if item.Html? then [Shape(item.name, ShapesOfAll(item.content))] else []
  }

  function ShapesOfAll(content: seq<Item>): seq<Shape>
    decreases content, 1
  {
    if content == [] then [] else Shapes(content[0]) + ShapesOfAll(content[1..])
  }

  /** No tag is printed verbatim, has raw attributes or contains character data. */
  predicate Ordinary(item: Item)
    decreases item, 0
  {
    match item
    case Text(_) => true
    case CData(_) => false
    case Html(name, params, content) =>
      && !AsIs(params) && (forall p :: p in params ==> !(RAW_ATTR <= p.name))
      && name != "" && '/' !in name && ' ' !in name && AllOrdinary(content)
  }

  predicate AllOrdinary(content: seq<Item>)
    decreases content, 1
  {
    content == [] || (Ordinary(content[0]) && AllOrdinary(content[1..]))
  }

  function Marks(item: Item): seq<Mark>
    decreases item, 0
  {
    if !item.Html? then []
    else if DirectAll(item.content, Escape) == "" && item.name in VOID_TAGS then [Empty(item.name)]
    else [Opening(item.name)] + MarksOfAll(item.content) + [Closing(item.name)]
  }

  function MarksOfAll(content: seq<Item>): seq<Mark>
    decreases content, 1
  {
    if content == [] then [] else Marks(content[0]) + MarksOfAll(content[1..])
  }

  lemma {:induction false} FindBehind(a: string, c: char, b: string)
    requires c !in a
    ensures Find(a + b, c) == |a| + Find(b, c)
  {
    if a == "" {
      assert a + b == b;
    } else {
      assert (a + b)[1..] == a[1..] + b && (a + b)[0] == a[0] && a[0] in a;
      assert forall x :: x in a[1..] ==> x in a;
      FindBehind(a[1..], c, b);
    }
  }

  lemma ScanText(t: string, more: string)
    requires '<' !in t
    ensures Scan(t + more) == Scan(more)
  {
    hide ScanMark, Find;
    FindBehind(t, '<', more);
    var i := Find(more, '<');
    if i < |more| {
      assert (t + more)[|t| + i + 1..] == more[i + 1..];
    }
  }

  lemma ScanTag(t: string, more: string)
    requires '>' !in t
    ensures Scan("<" + t + ">" + more) == [MarkOf(t)] + Scan(more)
  {
    hide MarkOf;
    var s := "<" + t + ">" + more;
    assert s[1..] == t + (">" + more);
    assert Find(s, '<') == 0;
    FindBehind(t, '>', ">" + more);
    assert Find(">" + more, '>') == 0;
    assert s[1..][..|t|] == t && s[1..][|t| + 1..] == more;
  }

  lemma FindFirst(s: string, c: char)
    ensures Find(s, c) == 0 <==> s == "" || s[0] == c
  {
  }

  lemma NameFound(name: string, rest: string)
    requires '/' !in name && ' ' !in name && (rest != "" ==> rest[0] == ' ' || rest[0] == '/')
    ensures var t := name + rest; t[..Find(t[..Find(t, '/')], ' ')] == name
  {
    hide Find;
    var t := name + rest;
    FindBehind(name, '/', rest);
    var k := Find(rest, '/');
    assert t[..|name| + k] == name + rest[..k];
    FindBehind(name, ' ', rest[..k]);
    FindFirst(rest, '/');
    FindFirst(rest[..k], ' ');
  }

  lemma MarkOfOpening(name: string, attrs: string)
    requires name != "" && '/' !in name && ' ' !in name
    requires attrs != "" ==> attrs[0] == ' ' && attrs[|attrs| - 1] == '"'
    ensures MarkOf(name + attrs) == Opening(name)
  {
    hide Find;
    var t := name + attrs;
    assert t[0] == name[0] && name[0] in name && name[|name| - 1] in name;
    assert t[|t| - 1] == if attrs == "" then name[|name| - 1] else attrs[|attrs| - 1];
    NameFound(name, attrs);
  }

  lemma MarkOfEmpty(name: string, attrs: string)
    requires name != "" && '/' !in name && ' ' !in name && (attrs != "" ==> attrs[0] == ' ')
    ensures MarkOf(name + attrs + "/") == Empty(name)
  {
    hide Find;
    var t := name + (attrs + "/");
    assert t == name + attrs + "/" && t[0] == name[0] && name[0] in name && t[|t| - 1] == '/';
    NameFound(name, attrs + "/");
  }

  lemma MarkOfClosing(name: string)
    ensures MarkOf("/" + name) == Closing(name)
  {
    assert ("/" + name)[1..] == name;
  }

  /** Written attributes: nothing, or between a space and a quote, without angle brackets. */
  predicate Written(attrs: string) {
    && '<' !in attrs && '>' !in attrs
    && (attrs != "" ==> attrs[0] == ' ' && attrs[|attrs| - 1] == '"')
  }

  lemma NoBrackets(s: string)
    ensures '<' !in Entities(s) && '>' !in Entities(s)
  {
    EntitiesNoRaw(s);
  }

  lemma AttrWritten(p: Param, m: Mode)
    requires NoRaw(p.name) && !(RAW_ATTR <= p.name)
    ensures Written(DirectAttr(p, Escape, m))
  {
    hide Entities;
    NoBrackets(p.value);
  }

  lemma {:induction false} AttrsWritten(params: seq<Param>, m: Mode)
    requires PlainParams(params) && forall p :: p in params ==> !(RAW_ATTR <= p.name)
    ensures Written(DirectAttrs(params, Escape, m))
  {
    hide DirectAttr, NoRaw;
    if params != [] {
      var p := params[0];
      assert p in params;
      AttrsWritten(params[1..], m);
      AttrWritten(p, m);
    }
  }

  /** The output of an ordinary tag holds just the marks of its elements. */
  lemma {:induction false} ScanItem(item: Item, m: Mode, more: string)
    requires PlainNames(item) && Ordinary(item) && (m.Escape? || item.Html?)
    ensures Scan(Direct(item, m) + more) == Marks(item) + Scan(more)
    decreases item, 0
  {
    hide Scan, ScanMark, DirectAttrs, MarkOf, Entities, Find;
    match item
    case Text(t) =>
      NoBrackets(t);
      ScanText(Entities(t), more);
    case Html(name, params, content) =>
      var attrs, data := DirectAttrs(params, Escape, m), DirectAll(content, Escape);
      AttrsWritten(params, m);
      MarkOfOpening(name, attrs);
      MarkOfEmpty(name, attrs);
      NameUnbracketed(name);
      if data == "" && name in VOID_TAGS {
        TagParts(name, attrs, more);
        ScanTag(name + attrs + "/", more);
      } else {
        var rest := data + ("<" + ("/" + name) + ">" + more);
        ElementParts(name, attrs, data, more);
        ScanTag(name + attrs, rest);
        ScanContent(content, "<" + ("/" + name) + ">" + more);
        ScanTag("/" + name, more);
        MarkOfClosing(name);
        assert Marks(item) + Scan(more) == [Opening(name)] + (MarksOfAll(content) + ([Closing(name)] + Scan(more)));
      }
  }

  lemma NameUnbracketed(name: string)
    requires NoRaw(name)
    ensures '<' !in name && '>' !in name
  {
  }

  lemma TagParts(name: string, attrs: string, more: string)
    ensures "<" + name + attrs + "/>" + more == "<" + (name + attrs + "/") + ">" + more
  {
    assert "/>" == "/" + ">";
  }

  lemma ElementParts(name: string, attrs: string, data: string, more: string)
    ensures "<" + name + attrs + (">" + data + "</" + name + ">") + more
         == "<" + (name + attrs) + ">" + (data + ("<" + ("/" + name) + ">" + more))
  {
    assert "</" == "<" + "/";
  }

  lemma {:induction false} ScanContent(content: seq<Item>, more: string)
    requires AllPlain(content) && AllOrdinary(content)
    ensures Scan(DirectAll(content, Escape) + more) == MarksOfAll(content) + Scan(more)
    decreases content, 1
  {
    hide Scan, ScanMark, Direct, Marks, Ordinary;
    if content == [] {
      assert "" + more == more;
    } else {
      var first, later := Direct(content[0], Escape), DirectAll(content[1..], Escape);
      Assoc(first, later, more);
      ScanItem(content[0], Escape, later + more);
      ScanContent(content[1..], more);
    }
  }

  lemma {:induction false} NoMarksNoShapes(content: seq<Item>)
    requires DirectAll(content, Escape) == ""
    ensures ShapesOfAll(content) == []
  {
    if content != [] {
      NoMarksNoShapes(content[1..]);
    }
  }

  lemma RebuildStep(mark: Mark, more: seq<Mark>, done: seq<Shape>, stack: seq<Pending>)
    ensures mark.Opening? ==>
      Rebuild([mark] + more, done, stack) == Rebuild(more, [], stack + [Pending(mark.name, done)])
    ensures mark.Empty? ==> Rebuild([mark] + more, done, stack) == Rebuild(more, done + [Shape(mark.name, [])], stack)
    ensures mark.Closing? && stack != [] && stack[|stack| - 1].name == mark.name ==>
      Rebuild([mark] + more, done, stack)
      == Rebuild(more, stack[|stack| - 1].before + [Shape(mark.name, done)], stack[..|stack| - 1])
  {
    assert ([mark] + more)[1..] == more;
  }

  lemma {:induction false} RebuildItem(item: Item, more: seq<Mark>, done: seq<Shape>, stack: seq<Pending>)
    ensures Rebuild(Marks(item) + more, done, stack) == Rebuild(more, done + Shapes(item), stack)
    decreases item, 0
  {
    hide Rebuild;
    if !item.Html? {
      assert [] + more == more && done + [] == done;
    } else if DirectAll(item.content, Escape) == "" && item.name in VOID_TAGS {
      NoMarksNoShapes(item.content);
      RebuildStep(Empty(item.name), more, done, stack);
    } else {
      var inner, close := MarksOfAll(item.content), [Closing(item.name)];
      assert [Opening(item.name)] + inner + close + more == [Opening(item.name)] + (inner + (close + more));
      RebuildStep(Opening(item.name), inner + (close + more), done, stack);
      var p := Pending(item.name, done);
      RebuildContent(item.content, close + more, [], stack + [p]);
      var shapes := ShapesOfAll(item.content);
      assert [] + shapes == shapes;
      RebuildStep(Closing(item.name), more, shapes, stack + [p]);
      assert (stack + [p])[..|stack|] == stack;
    }
  }

  lemma {:induction false} RebuildContent(content: seq<Item>, more: seq<Mark>, done: seq<Shape>, stack: seq<Pending>)
    ensures Rebuild(MarksOfAll(content) + more, done, stack) == Rebuild(more, done + ShapesOfAll(content), stack)
    decreases content, 1
  {
    hide Rebuild, Marks, Shapes;
    if content == [] {
      assert [] + more == more && done + [] == done;
    } else {
      var first, later := Marks(content[0]), MarksOfAll(content[1..]);
      assert first + later + more == first + (later + more);
      RebuildItem(content[0], later + more, done, stack);
      RebuildContent(content[1..], more, done + Shapes(content[0]), stack);
      assert done + Shapes(content[0]) + ShapesOfAll(content[1..])
          == done + (Shapes(content[0]) + ShapesOfAll(content[1..]));
    }
  }

  /** From what an ordinary root tag prints, reading from bracket to bracket with a stack
      gives back the nested element names, whatever texts and values there are. */
  lemma StructureRecovered(item: Item)
    requires item.Html? && PlainNames(item) && Ordinary(item) && CleanItem(item)
    ensures Rebuild(Scan(Print(item, false)), [], []) == Some(Shapes(item))
  {
    hide Real, Marks, Direct, PlainNames, Ordinary, CleanItem, Shapes;
    PrintedOnce(item);
    var out := Direct(item, Verbatim);
    assert out + "" == out;
    ScanItem(item, Verbatim, "");
    assert Scan("") == [];
    assert Marks(item) + [] == Marks(item);
    RebuildItem(item, [], [], []);
    assert [] + Shapes(item) == Shapes(item);
  }

  // -------- no stray brackets or quotes --------

  function Count(s: string, c: char): nat {
    if s == "" then 0 else (if s[0] == c then 1 else 0) + Count(s[1..], c)
  }

  lemma {:induction false} CountConcat(a: string, b: string, c: char)
    ensures Count(a + b, c) == Count(a, c) + Count(b, c)
  {
    if a == "" {
      assert a + b == b;
    } else {
      CountConcat(a[1..], b, c);
      assert (a + b)[0] == a[0] && (a + b)[1..] == a[1..] + b;
    }
  }

  /** So many marks stand in the text, and so many quoted values. */
  predicate Has(s: string, marks: nat, quoted: nat) {
    Count(s, '<') == marks && Count(s, '>') == marks && Count(s, '"') == 2 * quoted
  }

  lemma HasConcat(a: string, b: string, m: nat, q: nat, m': nat, q': nat)
    requires Has(a, m, q) && Has(b, m', q')
    ensures Has(a + b, m + m', q + q')
  {
    CountConcat(a, b, '<');
    CountConcat(a, b, '>');
    CountConcat(a, b, '"');
  }

  lemma {:induction false} HasNone(s: string)
    requires NoRaw(s)
    ensures Has(s, 0, 0)
  {
    if s != "" {
      HasNone(s[1..]);
    }
  }

  lemma HasMark(t: string, q: nat)
    requires Has(t, 0, q)
    ensures Has("<" + t + ">", 1, q)
  {
    CountConcat("<", t, '<');
    CountConcat("<", t, '>');
    CountConcat("<", t, '"');
    CountConcat("<" + t, ">", '<');
    CountConcat("<" + t, ">", '>');
    CountConcat("<" + t, ">", '"');
  }

  /** The attributes that are printed with a value. */
  function Quoted(params: seq<Param>): nat {
    if params == [] then 0
    else (if IsShown(params[0]) && params[0].value != "" then 1 else 0) + Quoted(params[1..])
  }

  function QuotedIn(item: Item): nat
    decreases item, 0
  {
    if item.Html? then Quoted(item.params) + QuotedInAll(item.content) else 0
  }

  function QuotedInAll(content: seq<Item>): nat
    decreases content, 1
  {
    if content == [] then 0 else QuotedIn(content[0]) + QuotedInAll(content[1..])
  }

  lemma AttrHas(p: Param, m: Mode)
    requires NoRaw(p.name) && !(RAW_ATTR <= p.name)
    ensures Has(DirectAttr(p, Escape, m), 0, if IsShown(p) && p.value != "" then 1 else 0)
  {
    hide Entities, NoRaw;
    HasNothing();
    if IsShown(p) && p.value != "" {
      EntitiesNoRaw(p.value);
      var v := Entities(p.value);
      HasNone(v);
      HasNone(p.name);
      var quoted := "\"" + v + "\"";
      CountConcat("\"", v, '<');
      CountConcat("\"", v, '>');
      CountConcat("\"", v, '"');
      CountConcat("\"" + v, "\"", '<');
      CountConcat("\"" + v, "\"", '>');
      CountConcat("\"" + v, "\"", '"');
      HasConcat(" ", p.name, 0, 0, 0, 0);
      HasConcat(" " + p.name, "=", 0, 0, 0, 0);
      HasConcat(" " + p.name + "=", quoted, 0, 0, 0, 1);
      assert DirectAttr(p, Escape, m) == " " + p.name + "=" + quoted;
    }
  }

  lemma HasNothing()
    ensures Has("", 0, 0) && Has(" ", 0, 0) && Has("=", 0, 0) && Has("/", 0, 0)
    ensures Count("\"", '<') == 0 && Count("\"", '>') == 0 && Count("\"", '"') == 1
  {
  }

  lemma {:induction false} AttrsHave(params: seq<Param>, m: Mode)
    requires PlainParams(params) && forall p :: p in params ==> !(RAW_ATTR <= p.name)
    ensures Has(DirectAttrs(params, Escape, m), 0, Quoted(params))
  {
    hide Has, DirectAttr, IsShown;
    HasNothing();
    if params != [] {
      assert params[0] in params;
      AttrHas(params[0], m);
      AttrsHave(params[1..], m);
      HasConcat(DirectAttr(params[0], Escape, m), DirectAttrs(params[1..], Escape, m), 0,
                if IsShown(params[0]) && params[0].value != "" then 1 else 0, 0, Quoted(params[1..]));
    }
  }

  /** What an ordinary root tag prints has no brackets and quotes but those of its marks and
      its attribute values. */
  lemma OnlyMarkup(item: Item)
    requires item.Html? && PlainNames(item) && Ordinary(item) && CleanItem(item)
    ensures Has(Print(item, false), |Marks(item)|, QuotedIn(item))
  {
    hide Real, Marks, Direct, PlainNames, Ordinary, CleanItem, Has, QuotedIn;
    PrintedOnce(item);
    DirectHas(item, Verbatim);
  }

  lemma {:induction false} DirectHas(item: Item, m: Mode)
    requires PlainNames(item) && Ordinary(item) && (m.Escape? || item.Html?)
    ensures Has(Direct(item, m), |Marks(item)|, QuotedIn(item))
    decreases item, 0
  {
    hide Has, DirectAttrs, Entities, NoRaw, Quoted;
    match item
    case Text(t) =>
      EntitiesNoRaw(t);
      HasNone(Entities(t));
    case Html(name, params, content) =>
      var attrs, data := DirectAttrs(params, Escape, m), DirectAll(content, Escape);
      AttrsHave(params, m);
      if data == "" && name in VOID_TAGS {
        OpeningHas(name, attrs, "/", Quoted(params));
        TagParts(name, attrs, "");
        Emptied("<" + name + attrs + "/>", "<" + (name + attrs + "/") + ">");
        NothingQuoted(content);
      } else {
        OpeningHas(name, attrs, "", Quoted(params));
        OpeningHas("/", name, "", 0) by { SlashName(name); }
        ContentHas(content);
        var open, close := "<" + (name + attrs + "") + ">", "<" + ("/" + name + "") + ">";
        HasConcat(open, data, 1, Quoted(params), |MarksOfAll(content)|, QuotedInAll(content));
        HasConcat(open + data, close, 1 + |MarksOfAll(content)|, QuotedIn(item), 1, 0);
        Whole(name, attrs, data);
      }
  }

  lemma Emptied(a: string, b: string)
    requires a + "" == b + ""
    ensures a == b
  {
    assert a + "" == a && b + "" == b;
  }

  lemma SlashName(name: string)
    requires NoRaw(name)
    ensures NoRaw("/") && Has(name, 0, 0)
  {
    HasNone(name);
  }

  lemma Whole(name: string, attrs: string, data: string)
    ensures "<" + (name + attrs + "") + ">" + data + ("<" + ("/" + name + "") + ">")
         == "<" + name + attrs + (">" + data + "</" + name + ">")
  {
    assert "</" == "<" + "/";
  }

  lemma OpeningHas(name: string, attrs: string, end: string, q: nat)
    requires NoRaw(name) && Has(attrs, 0, q) && (end == "" || end == "/")
    ensures Has("<" + (name + attrs + end) + ">", 1, q)
  {
    HasNothing();
    HasNone(name);
    HasConcat(name, attrs, 0, 0, 0, q);
    HasConcat(name + attrs, end, 0, q, 0, 0);
    HasMark(name + attrs + end, q);
  }

  lemma {:induction false} NothingQuoted(content: seq<Item>)
    requires DirectAll(content, Escape) == ""
    ensures QuotedInAll(content) == 0
  {
    if content != [] {
      NothingQuoted(content[1..]);
    }
  }

  lemma {:induction false} ContentHas(content: seq<Item>)
    requires AllPlain(content) && AllOrdinary(content)
    ensures Has(DirectAll(content, Escape), |MarksOfAll(content)|, QuotedInAll(content))
    decreases content, 1
  {
    hide Has, Direct, Marks, Ordinary;
    HasNothing();
    if content != [] {
      DirectHas(content[0], Escape);
      ContentHas(content[1..]);
      HasConcat(Direct(content[0], Escape), DirectAll(content[1..], Escape), |Marks(content[0])|, QuotedIn(content[0]),
                |MarksOfAll(content[1..])|, QuotedInAll(content[1..]));
    }
  }
}
