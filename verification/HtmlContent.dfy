/** What a reader of the printed html finds in it: elements, attributes and texts, with the
    four entities read as the characters they stand for. */
module HtmlContent {
  import opened Basics
  import opened Html

  // -------- entities --------

  /** The character that an entity at the beginning of a text stands for, and its length. */
  function EntityAt(s: string): Option<(char, nat)> {
    if "&apos;" <= s then Some(('\'', 6))
    else if "&quot;" <= s then Some(('"', 6))
    else if "&lt;" <= s then Some(('<', 4))
    else if "&gt;" <= s then Some(('>', 4))
    else None
  }

  function Decoded(s: string): string
    decreases |s|
  {
    if s == "" then ""
    else match EntityAt(s)
      case Some(e) => [e.0] + Decoded(s[e.1..])
      case None => [s[0]] + Decoded(s[1..])
  }

  /** None of the four entities is written anywhere in the text. */
  predicate NoneWritten(s: string) {
    s == "" || (EntityAt(s).None? && NoneWritten(s[1..]))
  }

  lemma PrefixStep(a: string, b: string)
    requires a != "" && b != ""
    ensures a <= b <==> a[0] == b[0] && a[1..] <= b[1..]
  {
    if a[0] == b[0] && a[1..] <= b[1..] {
      assert a == [a[0]] + a[1..] && b == [b[0]] + b[1..];
      assert b[1..][..|a| - 1] == a[1..];
      assert b[..|a|] == a;
    }
    if a <= b {
      assert b[1..][..|a| - 1] == b[..|a|][1..];
    }
  }

  lemma EntitiesFirst(s: string)
    requires s != ""
    ensures Entities(s) == Entity(s[0]) + Entities(s[1..])
  {
  }

  /** Characters that are not converted are at the beginning of the result if they were at
      the beginning of the text. */
  lemma {:induction false} BodyKept(body: string, s: string)
    requires NoRaw(body) && '&' !in body
    ensures body <= Entities(s) <==> body <= s
  {
    hide Entities, Entity;
    if body != "" && s != "" {
      EntitiesFirst(s);
      EntityOf(s[0]);
      assert body[0] in body && !IsRaw(body[0]);
      PrefixStep(body, s);
      PrefixStep(body, Entities(s));
      if !IsRaw(s[0]) {
        assert Entities(s)[1..] == Entities(s[1..]);
        BodyKept(body[1..], s[1..]);
      }
    } else if s == "" {
      NoEntities();
    }
  }

  lemma NoEntities()
    ensures Entities("") == "" && Decoded("") == ""
  {
  }

  /** An entity begins with '&'; what is not converted stays. */
  lemma EntityOf(c: char)
    ensures Entity(c) != "" && (if IsRaw(c) then Entity(c)[0] == '&' else Entity(c) == [c])
  {
  }

  lemma EntityStarts(s: string)
    requires s != ""
    ensures s[0] != '&' ==> EntityAt(s).None?
    ensures var t := s[1..]; s[0] == '&' ==>
      EntityAt(s) == if "apos;" <= t then Some(('\'', 6)) else if "quot;" <= t then Some(('"', 6))
                     else if "lt;" <= t then Some(('<', 4)) else if "gt;" <= t then Some(('>', 4)) else None
  {
    PrefixStep("&apos;", s);
    PrefixStep("&quot;", s);
    PrefixStep("&lt;", s);
    PrefixStep("&gt;", s);
    assert "&apos;"[1..] == "apos;" && "&quot;"[1..] == "quot;" && "&lt;"[1..] == "lt;" && "&gt;"[1..] == "gt;";
  }

  /** An entity written out is read as its character. */
  lemma EntityRead(c: char, rest: string)
    requires IsRaw(c)
    ensures EntityAt(Entity(c) + rest) == Some((c, |Entity(c)|))
  {
    var s := Entity(c) + rest;
    assert s[0] == '&' && s[1] == Entity(c)[1];
    assert Entity(c) <= s;
  }

  lemma AmpersandKept(s: string)
    requires s != "" && s[0] == '&'
    ensures EntityAt(Entities(s)) == EntityAt(s)
  {
    hide Entities, EntityAt, Entity;
    EntitiesFirst(s);
    EntityOf('&');
    var e := Entities(s);
    assert e == "&" + Entities(s[1..]) && e[0] == '&' && e[1..] == Entities(s[1..]);
    EntityStarts(s);
    EntityStarts(e);
    BodyKept("apos;", s[1..]);
    BodyKept("quot;", s[1..]);
    BodyKept("lt;", s[1..]);
    BodyKept("gt;", s[1..]);
  }

  /** Decoding undoes the conversion of a text exactly if no entity is written in it: '&'
      itself is not converted. */
  lemma {:induction false} DecodedBack(s: string)
    ensures Decoded(Entities(s)) == s <==> NoneWritten(s)
  {
    hide Entities, Entity, EntityAt;
    if s == "" {
      NoEntities();
    } else {
      var c, later, e := s[0], Entities(s[1..]), Entities(s);
      DecodedBack(s[1..]);
      EntitiesFirst(s);
      EntityOf(c);
      EntityStarts(s);
      FirstBack(c, Decoded(later), s);
      if IsRaw(c) {
        EntityRead(c, later);
        assert e[|Entity(c)|..] == later;
      } else {
        assert e[1..] == later;
        EntityStarts(e);
        if c == '&' {
          AmpersandKept(s);
        }
      }
    }
  }

  lemma FirstBack(c: char, later: string, s: string)
    requires s != "" && s[0] == c
    ensures [c] + later == s <==> later == s[1..]
  {
    assert ([c] + later)[1..] == later && s == [s[0]] + s[1..];
  }

  // -------- what a page has on it --------

  datatype Attr = Attr(name: string, value: string)

  datatype Markup = Open(name: string, attrs: seq<Attr>) | Shut(name: string) | Single(name: string, attrs: seq<Attr>)

  /** Text, markup, text, markup, ..., text. */
  datatype Page = End(text: string) | Then(text: string, markup: Markup, rest: Page)

  function Behind(t: string, p: Page): Page {
    p.(text := t + p.text)
  }

  /** The attributes that are printed. */
  function AttrsOf(params: seq<Param>): seq<Attr> {
    if params == [] then []
    else
      var p := params[0];
      (if p.name != "" && !(HIDDEN <= p.name) && p.value != "" then [Attr(p.name, p.value)] else [])
      + AttrsOf(params[1..])
  }

  /** Nothing is printed of the content. */
  predicate Silent(content: seq<Item>) {
    forall c :: c in content ==> c == Text("")
  }

  /** The item with what follows it. */
  function PageOf(item: Item, more: Page): Page
    decreases item, 0
  {
    match item
    case Text(t) => Behind(t, more)
    case CData(t) => Behind(t, more)
    case Html(name, params, content) =>
      var attrs := AttrsOf(params);
      if Silent(content) && name in VOID_TAGS then Then("", Single(name, attrs), more)
      else Then("", Open(name, attrs), PageOfAll(content, Then("", Shut(name), more)))
  }

  function PageOfAll(content: seq<Item>, more: Page): Page
    decreases content, 1
  {
    if content == [] then more else PageOf(content[0], PageOfAll(content[1..], more))
  }

  // -------- reading html --------

  function AttrsIn(s: string): seq<Attr>
    decreases |s|
  {
    var k := Find(s, '=');
    if s == "" || s[0] != ' ' || k + 1 >= |s| || s[k + 1] != '"' then []
    else
      var v := s[k + 2..];
      var e := Find(v, '"');
      if e == |v| then [] else [Attr(s[1..k], v[..e])] + AttrsIn(v[e + 1..])
  }

  /** What stands between two angle brackets. */
  function MarkupOf(t: string): Markup {
    if t == "" then Open("", [])
    else if t[0] == '/' then Shut(t[1..])
    else
      var single := t[|t| - 1] == '/';
      var body := if single then t[..|t| - 1] else t;
      var n := Find(body, ' ');
      if single then Single(body[..n], AttrsIn(body[n..])) else Open(body[..n], AttrsIn(body[n..]))
  }

  /** Reads text from one angle bracket to the next. */
  function Raw(s: string): Page
    decreases |s|
  {
    var i := Find(s, '<');
    if i == |s| then End(s) else RawMarkup(s[..i], s[i + 1..])
  }

  function RawMarkup(text: string, s: string): Page
    decreases |s|
  {
    var j := Find(s, '>');
    if j == |s| then End(text + "<" + s) else Then(text, MarkupOf(s[..j]), Raw(s[j + 1..]))
  }

  function MapAttrs(f: string -> string, attrs: seq<Attr>): (r: seq<Attr>)
    ensures |r| == |attrs|
  {
    if attrs == [] then [] else [Attr(attrs[0].name, f(attrs[0].value))] + MapAttrs(f, attrs[1..])
  }

  function MapMarkup(f: string -> string, m: Markup): Markup {
    match m
    case Open(name, attrs) => Open(name, MapAttrs(f, attrs))
    case Shut(name) => Shut(name)
    case Single(name, attrs) => Single(name, MapAttrs(f, attrs))
  }

  /** The page with its texts and values converted. */
  function Mapped(f: string -> string, p: Page): Page {
    match p
    case End(text) => End(f(text))
    case Then(text, markup, rest) => Then(f(text), MapMarkup(f, markup), Mapped(f, rest))
  }

  /** What is read of printed html, with its entities decoded. */
  function ReadPage(s: string): Page {
    Mapped(Decoded, Raw(s))
  }

  // -------- when it is the page --------

  predicate AttrsUnwritten(attrs: seq<Attr>) {
    attrs == [] || (NoneWritten(attrs[0].value) && AttrsUnwritten(attrs[1..]))
  }

  /** No text and no value of the page has one of the entities written in it. */
  predicate Unwritten(p: Page) {
    && NoneWritten(p.text)
    && (p.Then? ==> (p.markup.Shut? || AttrsUnwritten(p.markup.attrs)) && Unwritten(p.rest))
  }

  lemma {:induction false} AttrsBack(attrs: seq<Attr>)
    ensures MapAttrs(Decoded, MapAttrs(Entities, attrs)) == attrs <==> AttrsUnwritten(attrs)
  {
    hide Decoded, Entities, NoneWritten;
    if attrs != [] {
      var a, later := attrs[0], MapAttrs(Entities, attrs[1..]);
      AttrsBack(attrs[1..]);
      DecodedBack(a.value);
      var converted := MapAttrs(Entities, attrs);
      assert converted[0] == Attr(a.name, Entities(a.value)) && converted[1..] == later;
      var back := MapAttrs(Decoded, converted);
      assert back == [Attr(a.name, Decoded(Entities(a.value)))] + MapAttrs(Decoded, later);
      assert back[1..] == MapAttrs(Decoded, later) && attrs == [a] + attrs[1..];
    }
  }

  lemma {:induction false} PageBack(p: Page)
    ensures Mapped(Decoded, Mapped(Entities, p)) == p <==> Unwritten(p)
  {
    hide Decoded, Entities, NoneWritten, MapAttrs, AttrsUnwritten;
    DecodedBack(p.text);
    if p.Then? {
      if !p.markup.Shut? {
        AttrsBack(p.markup.attrs);
      }
      PageBack(p.rest);
    }
  }

  // -------- reading what is printed --------

  /** No attribute has an equals sign in its name. */
  predicate NoEquals(item: Item)
    decreases item, 0
  {
    item.Html? ==> (forall p :: p in item.params ==> '=' !in p.name) && NoEqualsIn(item.content)
  }

  predicate NoEqualsIn(content: seq<Item>)
    decreases content, 1
  {
    content == [] || (NoEquals(content[0]) && NoEqualsIn(content[1..]))
  }

  lemma AttrStep(s: string, k: nat, e: nat)
    requires k == Find(s, '=') && 0 < k && k + 1 < |s| && s[0] == ' ' && s[k + 1] == '"'
    requires e == Find(s[k + 2..], '"') && e < |s[k + 2..]|
    ensures AttrsIn(s) == [Attr(s[1..k], s[k + 2..][..e])] + AttrsIn(s[k + 2..][e + 1..])
  {
  }

  lemma NameEnds(name: string, later: string)
    requires '=' !in name
    ensures Find(" " + name + ("=" + later), '=') == |name| + 1
  {
    hide Find;
    var first := " " + name;
    if '=' in first {
      var i :| 0 <= i < |first| && first[i] == '=';
      assert first[i] == if i == 0 then ' ' else name[i - 1];
      assert i > 0 ==> name[i - 1] in name;
      assert false;
    }
    FindBehind(first, '=', "=" + later);
    FindFirst("=" + later, '=');
  }

  lemma ValueEnds(value: string, more: string)
    requires '"' !in value
    ensures Find(value + ("\"" + more), '"') == |value|
  {
    hide Find;
    FindBehind(value, '"', "\"" + more);
    FindFirst("\"" + more, '"');
  }

  lemma AttrRead(name: string, value: string, more: string)
    requires '=' !in name && '"' !in value
    ensures AttrsIn(" " + name + ("=" + ("\"" + (value + ("\"" + more))))) == [Attr(name, value)] + AttrsIn(more)
  {
    hide Find, AttrsIn;
    var v := value + ("\"" + more);
    var s := " " + name + ("=" + ("\"" + v));
    var k := |name| + 1;
    NameEnds(name, "\"" + v);
    ValueEnds(value, more);
    assert s[0] == ' ' && s[k + 1] == '"' && s[1..k] == name && s[k + 2..] == v;
    assert v[..|value|] == value && v[|value| + 1..] == more;
    AttrStep(s, k, |value|);
  }

  lemma AttrText(name: string, value: string, more: string)
    ensures " " + name + "=\"" + value + "\"" + more == " " + name + ("=" + ("\"" + (value + ("\"" + more))))
  {
    assert "=\"" == "=" + "\"";
  }

  lemma {:induction false} AttrsRead(params: seq<Param>, m: Mode)
    requires PlainParams(params) && forall p :: p in params ==> '=' !in p.name && !(RAW_ATTR <= p.name)
    ensures AttrsIn(DirectAttrs(params, Escape, m)) == MapAttrs(Entities, AttrsOf(params))
  {
    hide AttrsIn, Entities, NoRaw;
    if params == [] {
      NoAttrs();
    } else {
      var p, more := params[0], DirectAttrs(params[1..], Escape, m);
      assert p in params;
      AttrsRead(params[1..], m);
      AttrOnPage(p, m, more);
      var first, later := AttrsOf([p]), AttrsOf(params[1..]);
      assert [p][1..] == [] && first + later == AttrsOf(params);
      MapAppend(first, later);
    }
  }

  lemma NoAttrs()
    ensures AttrsIn("") == []
  {
  }

  lemma AttrOnPage(p: Param, m: Mode, more: string)
    requires '=' !in p.name && !(RAW_ATTR <= p.name)
    ensures AttrsIn(DirectAttr(p, Escape, m) + more) == MapAttrs(Entities, AttrsOf([p])) + AttrsIn(more)
  {
    hide AttrsIn, Entities, NoRaw;
    assert "" + more == more && [p][1..] == [];
    if p.name != "" && p.value != "" && !(HIDDEN <= p.name) {
      EntitiesNoQuote(p.value);
      AttrRead(p.name, Entities(p.value), more);
      AttrText(p.name, Entities(p.value), more);
      var a := Attr(p.name, p.value);
      assert AttrsOf([p]) == [a] + [] && [a][1..] == [];
      assert MapAttrs(Entities, [a]) == [Attr(p.name, Entities(p.value))] + [];
    }
  }

  lemma EntitiesNoQuote(s: string)
    ensures '"' !in Entities(s) && '<' !in Entities(s)
  {
    EntitiesNoRaw(s);
  }

  lemma {:induction false} MapAppend(a: seq<Attr>, b: seq<Attr>)
    ensures MapAttrs(Entities, a + b) == MapAttrs(Entities, a) + MapAttrs(Entities, b)
  {
    hide Entities;
    if a == [] {
      assert a + b == b;
    } else {
      MapAppend(a[1..], b);
      assert (a + b)[0] == a[0] && (a + b)[1..] == a[1..] + b;
    }
  }

  lemma MarkupOpen(name: string, attrs: string)
    requires name != "" && '/' !in name && ' ' !in name && Written(attrs)
    ensures MarkupOf(name + attrs) == Open(name, AttrsIn(attrs))
    ensures MarkupOf(name + attrs + "/") == Single(name, AttrsIn(attrs))
  {
    hide AttrsIn, Find;
    var t := name + attrs;
    assert t[0] == name[0] && name[0] in name && name[|name| - 1] in name;
    assert t[|t| - 1] == if attrs == "" then name[|name| - 1] else attrs[|attrs| - 1];
    FindBehind(name, ' ', attrs);
    FindFirst(attrs, ' ');
    assert t[..|name|] == name && t[|name|..] == attrs;
    assert (t + "/")[..|t|] == t && (t + "/")[0] == t[0];
  }

  lemma MarkupShut(name: string)
    ensures MarkupOf("/" + name) == Shut(name)
  {
    assert ("/" + name)[1..] == name;
  }

  lemma MarkupBehind(t: string, text: string, s: string)
    ensures RawMarkup(t + text, s) == Behind(t, RawMarkup(text, s))
  {
    hide Find, MarkupOf, Raw;
    assert t + text + "<" + s == t + (text + "<" + s);
  }

  lemma RawText(t: string, more: string)
    requires '<' !in t
    ensures Raw(t + more) == Behind(t, Raw(more))
  {
    hide Find, MarkupOf, RawMarkup;
    FindBehind(t, '<', more);
    var i := Find(more, '<');
    if i < |more| {
      assert (t + more)[|t| + i + 1..] == more[i + 1..] && (t + more)[..|t| + i] == t + more[..i];
      MarkupBehind(t, more[..i], more[i + 1..]);
    }
  }

  lemma MarkupEnds(t: string, more: string)
    requires '>' !in t
    ensures RawMarkup("", t + (">" + more)) == Then("", MarkupOf(t), Raw(more))
  {
    hide MarkupOf, Raw, Find;
    var s := t + (">" + more);
    FindBehind(t, '>', ">" + more);
    FindFirst(">" + more, '>');
    assert s[..|t|] == t && s[|t| + 1..] == more;
  }

  lemma RawTag(t: string, more: string)
    requires '>' !in t
    ensures Raw("<" + t + ">" + more) == Then("", MarkupOf(t), Raw(more))
  {
    hide MarkupOf, RawMarkup, Find;
    var s := "<" + t + ">" + more;
    FindFirst(s, '<');
    assert s[1..] == t + (">" + more) && s[..0] == "";
    MarkupEnds(t, more);
  }

  lemma MappedBehind(t: string, p: Page)
    ensures Mapped(Entities, Behind(t, p)) == Behind(Entities(t), Mapped(Entities, p))
  {
    hide Entities;
    EntitiesConcat(t, p.text);
  }

  lemma {:induction false} SilentPrints(content: seq<Item>)
    requires AllOrdinary(content)
    ensures DirectAll(content, Escape) == "" <==> Silent(content)
  {
    if content != [] {
      var first, later := Direct(content[0], Escape), DirectAll(content[1..], Escape);
      SilentPrints(content[1..]);
      assert content[0] in content && forall c :: c in content <==> c == content[0] || c in content[1..];
      if content[0].Text? {
        EntitiesNoRaw(content[0].text);
      }
    }
  }

  /** From a printed item and what follows it, reading from bracket to bracket gives the
      item's page, in front of what is read of the rest. */
  lemma {:induction false} RawItem(item: Item, m: Mode, more: string, p: Page)
    requires PlainNames(item) && Ordinary(item) && NoEquals(item) && (m.Escape? || item.Html?)
    requires Raw(more) == Mapped(Entities, p)
    ensures Raw(Direct(item, m) + more) == Mapped(Entities, PageOf(item, p))
    decreases item, 0
  {
    hide Raw, RawMarkup, MarkupOf, AttrsIn, DirectAttrs, Entities, Find, AttrsOf, MapAttrs;
    NothingMapped();
    match item
    case Text(t) =>
      EntitiesNoQuote(t);
      RawText(Entities(t), more);
      MappedBehind(t, p);
    case Html(name, params, content) =>
      var attrs, data := DirectAttrs(params, Escape, m), DirectAll(content, Escape);
      AttrsWritten(params, m);
      AttrsRead(params, m);
      MarkupOpen(name, attrs);
      MarkupShut(name);
      NameUnbracketed(name);
      SilentPrints(content);
      if data == "" && name in VOID_TAGS {
        TagParts(name, attrs, more);
        RawTag(name + attrs + "/", more);
      } else {
        var behind := "<" + ("/" + name) + ">" + more;
        ElementParts(name, attrs, data, more);
        RawTag(name + attrs, data + behind);
        RawTag("/" + name, more);
        RawContent(content, behind, Then("", Shut(name), p));
      }
  }

  lemma NothingMapped()
    ensures Entities("") == ""
  {
  }

  lemma {:induction false} RawContent(content: seq<Item>, more: string, p: Page)
    requires AllPlain(content) && AllOrdinary(content) && NoEqualsIn(content)
    requires Raw(more) == Mapped(Entities, p)
    ensures Raw(DirectAll(content, Escape) + more) == Mapped(Entities, PageOfAll(content, p))
    decreases content, 1
  {
    hide Raw, Direct, Ordinary, NoEquals, PageOf, Mapped;
    if content == [] {
      assert "" + more == more;
    } else {
      var first, later := Direct(content[0], Escape), DirectAll(content[1..], Escape);
      Assoc(first, later, more);
      RawContent(content[1..], more, p);
      RawItem(content[0], Escape, later + more, PageOfAll(content[1..], p));
    }
  }

  /** What an ordinary root tag prints is read as its elements, attributes and texts, exactly
      if none of the four entities is written in its texts and values. */
  lemma ContentRecovered(item: Item)
    requires item.Html? && PlainNames(item) && Ordinary(item) && CleanItem(item) && NoEquals(item)
    ensures ReadPage(Print(item, false)) == PageOf(item, End("")) <==> Unwritten(PageOf(item, End("")))
  {
    hide Real, Direct, PlainNames, Ordinary, CleanItem, NoEquals, PageOf, Entities, Decoded;
    PrintedOnce(item);
    var out := Direct(item, Verbatim);
    assert out + "" == out && Raw("") == End("");
    NothingMapped();
    RawItem(item, Verbatim, "", End(""));
    PageBack(PageOf(item, End("")));
  }

  /** A text in which an entity is written is read differently. */
  lemma AmpersandLost()
    ensures Decoded(Entities("&lt;")) == "<"
  {
    var s := "&lt;";
    EntityOf('&');
    assert Entities(";") == ";" + "" && "t;"[1..] == ";" && "lt;"[1..] == "t;" && s[1..] == "lt;";
    assert Entities("t;") == "t" + ";" && Entities("lt;") == "l" + "t;" && Entities(s) == "&" + "lt;";
    assert EntityAt(s) == Some(('<', 4)) && s[4..] == "";
  }

  // -------- tags printed as they are --------

  /** The first parameter of its name says whether a tag is printed as it is. */
  lemma {:induction false} AsIsFirst(params: seq<Param>) returns (i: nat)
    ensures i <= |params| && forall j :: 0 <= j < i ==> params[j].name != "@DBP:PARAM@asis"
    ensures if AsIs(params) then i < |params| && params[i].name == "@DBP:PARAM@asis" && params[i].text == "1"
            else i == |params| || (params[i].name == "@DBP:PARAM@asis" && params[i].text != "1")
  {
    i := 0;
    if params != [] && params[0].name != AS_IS {
      var k := AsIsFirst(params[1..]);
      i := k + 1;
      assert forall j :: 0 < j < |params| ==> params[j] == params[1..][j - 1];
    }
  }

  /** The text of such a tag keeps its angle brackets and quotes. */
  lemma TextAsIs(name: string, params: seq<Param>, t: string)
    requires PlainNames(Html(name, params, [Text(t)])) && CleanItem(Html(name, params, [Text(t)]))
    requires AsIs(params) && t != ""
    ensures Print(Html(name, params, [Text(t)]), false)
         == "<" + name + DirectAttrs(params, Verbatim, Verbatim) + (">" + t + "</" + name + ">")
  {
    hide DirectAttrs, Real, Clean, PlainNames, CleanItem, AsIs;
    PrintedOnce(Html(name, params, [Text(t)]));
    assert [Text(t)][1..] == [] && DirectAll([Text(t)], Verbatim) == t + "" == t;
  }
}
