/** The Content-Type field of mail messages (section 5.1 of RFC 2045): its parser and its
    printer. */
module ContentTypes {
  import opened Basics

  // -------- tokens --------

  /** The place of the first delimiter, or the length. */
  function Cut(s: string, d: char): (k: nat)
    ensures k <= |s| && d !in s[..k] && (k < |s| ==> s[k] == d)
  {
    if s == "" || s[0] == d then 0
    else
      var k := Cut(s[1..], d);
      assert s[..k + 1] == [s[0]] + s[1..][..k];
      k + 1
  }

  function Head(s: string, d: char): (h: string)
    ensures d !in h && |h| <= |s|
  {
    s[..Cut(s, d)]
  }

  function Tail(s: string, d: char): (t: string)
    ensures s != "" ==> |t| < |s|
  {
    var k := Cut(s, d);
    if k == |s| then "" else s[k + 1..]
  }

  function Tokens(s: string, d: char): seq<string>
    decreases |s|
  {
    if s == "" then [] else [Head(s, d)] + Tokens(Tail(s, d), d)
  }

  lemma {:induction false} CutBehind(a: string, d: char, b: string)
    requires d !in a
    ensures Cut(a + b, d) == |a| + Cut(b, d)
  {
    if a == "" {
      assert a + b == b;
    } else {
      assert (a + b)[1..] == a[1..] + b && (a + b)[0] == a[0] && a[0] in a;
      assert forall x :: x in a[1..] ==> x in a;
      CutBehind(a[1..], d, b);
    }
  }

  /** A text without delimiters is a token if a delimiter or nothing follows. */
  lemma HeadAndTail(a: string, d: char, b: string)
    requires d !in a && (b == "" || b[0] == d)
    ensures Head(a + b, d) == a && Tail(a + b, d) == if b == "" then "" else b[1..]
  {
    CutBehind(a, d, b);
    if b != "" {
      assert (a + b)[|a| + 1..] == b[1..];
    }
  }

  /** `ItTokenizer`: what is left to read, and where the last token ended. */
  class Tokenizer {
    var source: string
    var bit: nat
    var tokEnd: nat
    var delim: char

    predicate Valid()
      reads this
    {
      bit == tokEnd <= |source|
    }

    function Rest(): string
      requires Valid()
      reads this
    {
      source[bit..]
    }

    constructor (source: string, delim: char)
      ensures Valid() && Rest() == source && this.delim == delim
    {
      this.source, this.delim, bit, tokEnd := source, delim, 0, 0;
    }

    method SetSource(source: string)
      modifies this
      ensures Valid() && Rest() == source && delim == old(delim)
    {
      this.source, bit, tokEnd := source, 0, 0;
    }

    method SetDelim(delim: char)
      requires Valid()
      modifies this`delim
      ensures this.delim == delim
    {
      this.delim := delim;
    }

    method Next() returns (ok: bool, dst: string)
      requires Valid()
      modifies this`bit, this`tokEnd
      ensures Valid() && ok == (old(Rest()) != "")
      ensures dst == Head(old(Rest()), delim) && Rest() == Tail(old(Rest()), delim)
    {
      hide Cut;
      if tokEnd == |source| {
        NoHead(delim);
        return false, "";
      }
      ghost var rest := Rest();
      tokEnd := FindDelim(source, bit, delim);
      dst := source[bit..tokEnd];
      assert dst == rest[..tokEnd - bit];
      if tokEnd != |source| {
        tokEnd := tokEnd + 1;
      }
      bit := tokEnd;
      ok := true;
    }
  }

  lemma NoHead(d: char)
    ensures Head("", d) == "" && Tail("", d) == ""
  {
  }

  method FindDelim(s: string, from: nat, d: char) returns (k: nat)
    requires from <= |s|
    ensures k == from + Cut(s[from..], d) && k <= |s|
  {
    k := from;
    while k != |s| && s[k] != d
      invariant from <= k <= |s|
      invariant from + Cut(s[from..], d) == k + Cut(s[k..], d)
    {
      assert s[k..][1..] == s[k + 1..];
      k := k + 1;
    }
  }

  // -------- blanks and quotes --------

  predicate Blank(c: char) {
    c == ' ' || c == '\t'
  }

  function TrimLeft(s: string): (r: string)
    ensures forall c :: c in r ==> c in s
    ensures r != "" ==> !Blank(r[0])
  {
    if s != "" && Blank(s[0]) then TrimLeft(s[1..]) else s
  }

  function TrimRight(s: string): (r: string)
    ensures forall c :: c in r ==> c in s
    ensures r != "" ==> !Blank(r[|r| - 1])
    ensures r <= s
  {
    if s != "" && Blank(s[|s| - 1]) then TrimRight(s[..|s| - 1]) else s
  }

  function Trim(s: string): string {
    TrimRight(TrimLeft(s))
  }

  predicate Trimmed(s: string) {
    s != "" ==> !Blank(s[0]) && !Blank(s[|s| - 1])
  }

  lemma TrimTrims(s: string)
    ensures Trimmed(Trim(s)) && forall c :: c in Trim(s) ==> c in s
    ensures Trimmed(s) ==> Trim(s) == s && Trim(" " + s) == s
  {
    var l, r := TrimLeft(s), Trim(s);
    if r != "" {
      assert r[0] == l[0];
    }
    assert (" " + s)[1..] == s;
  }

  predicate AllBlank(s: string) {
    forall i :: 0 <= i < |s| ==> Blank(s[i])
  }

  lemma {:induction false} TrimLeftPast(blanks: string, s: string)
    requires AllBlank(blanks)
    ensures TrimLeft(blanks + s) == TrimLeft(s)
  {
    if blanks == "" {
      assert blanks + s == s;
    } else {
      assert (blanks + s)[1..] == blanks[1..] + s && (blanks + s)[0] == blanks[0];
      TrimLeftPast(blanks[1..], s);
    }
  }

  lemma {:induction false} TrimRightPast(s: string, blanks: string)
    requires AllBlank(blanks)
    ensures TrimRight(s + blanks) == TrimRight(s)
  {
    var n := |blanks|;
    if n == 0 {
      assert s + blanks == s;
    } else {
      var t := s + blanks;
      assert t[..|t| - 1] == s + blanks[..n - 1] && t[|t| - 1] == blanks[n - 1];
      TrimRightPast(s, blanks[..n - 1]);
    }
  }

  /** Blanks around a text that does not begin or end with one are all that is cut off. */
  lemma TrimAround(before: string, s: string, behind: string)
    requires AllBlank(before) && AllBlank(behind) && Trimmed(s)
    ensures Trim(before + s + behind) == s
  {
    hide TrimLeft, TrimRight, AllBlank;
    assert before + s + behind == before + (s + behind);
    TrimLeftPast(before, s + behind);
    if s == "" {
      assert s + behind == behind + "" == s + behind;
      TrimLeftPast(behind, "");
      TrimEmpty();
    } else {
      TrimFirst(s + behind);
      TrimRightPast(s, behind);
      NothingToTrim(s);
    }
  }

  lemma TrimFirst(s: string)
    requires s == "" || !Blank(s[0])
    ensures TrimLeft(s) == s
  {
  }

  lemma TrimEmpty()
    ensures TrimLeft("") == "" && TrimRight("") == ""
  {
  }

  /** What is cut off are blanks. */
  predicate CutOff(s: string, r: string, i: nat) {
    i + |r| <= |s| && s[i..i + |r|] == r && AllBlank(s[..i]) && AllBlank(s[i + |r|..])
  }

  method FirstKept(s: string) returns (beg: nat)
    ensures beg <= |s| && TrimLeft(s) == s[beg..] && AllBlank(s[..beg])
  {
    beg := 0;
    assert s[0..] == s;
    while beg < |s| && Blank(s[beg])
      invariant 0 <= beg <= |s| && TrimLeft(s) == TrimLeft(s[beg..]) && AllBlank(s[..beg])
    {
      assert s[beg..][1..] == s[beg + 1..];
      beg := beg + 1;
    }
  }

  lemma NoBlanks()
    ensures AllBlank("")
  {
  }

  lemma BlankFirst(c: char, s: string)
    requires Blank(c) && AllBlank(s)
    ensures AllBlank([c]) && AllBlank([c] + s)
  {
  }

  method LastKept(s: string, beg: nat) returns (end: int)
    requires s != "" && beg <= |s|
    ensures beg - 1 <= end < |s| && (end > beg ==> !Blank(s[end])) && AllBlank(s[end + 1..])
    ensures TrimRight(s[beg..]) == TrimRight(s[beg..end + 1])
  {
    hide TrimRight, AllBlank;
    end := |s| - 1;
    NoBlanks();
    assert s[beg..end + 1] == s[beg..] && s[end + 1..] == "";
    while end > beg && Blank(s[end])
      invariant beg - 1 <= end < |s| && AllBlank(s[end + 1..])
      invariant TrimRight(s[beg..]) == TrimRight(s[beg..end + 1])
    {
      assert s[beg..end + 1] == s[beg..end] + [s[end]] && s[end..] == [s[end]] + s[end + 1..];
      BlankFirst(s[end], s[end + 1..]);
      TrimRightPast(s[beg..end], [s[end]]);
      end := end - 1;
    }
  }

  method RemoveExternalBlanks(s: string) returns (r: string)
    ensures r == Trim(s) && Trimmed(r)
    ensures exists i :: CutOff(s, r, i)
  {
    hide TrimLeft, TrimRight, AllBlank;
    TrimTrims(s);
    NoBlanks();
    if s == "" {
      assert CutOff(s, s, 0);
      return s;
    }
    var beg := FirstKept(s);
    var end := LastKept(s, beg);
    r := s[beg..end + 1];
    KeptAlone(s, beg, end);
    assert CutOff(s, r, beg);
  }

  /** What is left begins with a character that is kept. */
  lemma KeptAlone(s: string, beg: nat, end: int)
    requires beg - 1 <= end < |s| && TrimLeft(s) == s[beg..]
    requires end > beg ==> !Blank(s[end])
    ensures TrimRight(s[beg..end + 1]) == s[beg..end + 1]
  {
    hide TrimLeft, TrimRight;
    var r := s[beg..end + 1];
    if beg <= end {
      assert s[beg..][0] == s[beg];
      assert r[|r| - 1] == s[end];
    }
    NothingToTrim(r);
  }

  lemma NothingToTrim(r: string)
    requires r == "" || !Blank(r[|r| - 1])
    ensures TrimRight(r) == r
  {
  }

  function RemoveDquote(s: string): string {
    if |s| >= 2 && s[0] == '"' && s[|s| - 1] == '"' then s[1..|s| - 1] else s
  }

  // -------- fields --------

  datatype Param = Param(name: string, value: string)

  datatype Field = Field(kind: string, subtype: string, params: seq<Param>)

  const FRESH := Field("", "", [])

  /** A token without '=' is a parameter without name and value. */
  function ParseParam(t: string): Param {
    if '=' !in t then Param("", "")
    else Param(Trim(Head(t, '=')), RemoveDquote(Trim(Tail(t, '='))))
  }

  function ParseParams(tokens: seq<string>): (ps: seq<Param>)
    ensures |ps| == |tokens|
  {
    seq(|tokens|, i requires 0 <= i < |tokens| => ParseParam(tokens[i]))
  }

  /** The parameters are added to those that are there. */
  function Parse(before: Field, val: string): Field {
    if val == "" then before
    else
      var ct := Head(val, ';');
      Field(Head(ct, '/'), Head(Tail(ct, '/'), '/'), before.params + ParseParams(Tokens(Tail(val, ';'), ';')))
  }

  function ParamStr(p: Param): string {
    " " + p.name + "=\"" + p.value + "\""
  }

  function ParamsStr(params: seq<Param>): string {
    if params == [] then "" else ";" + ParamStr(params[0]) + ParamsStr(params[1..])
  }

  function Str(f: Field): string {
    f.kind + "/" + f.subtype + ParamsStr(f.params)
  }

  predicate ProperParam(p: Param) {
    '=' !in p.name && ';' !in p.name && Trimmed(p.name) && ';' !in p.value
  }

  predicate Proper(f: Field) {
    && '/' !in f.kind && ';' !in f.kind && '/' !in f.subtype && ';' !in f.subtype
    && forall i :: 0 <= i < |f.params| ==> ProperParam(f.params[i])
  }

  // -------- what is parsed is proper --------

  lemma TailSubset(s: string, d: char)
    ensures forall c :: c in Tail(s, d) ==> c in s
    ensures forall c :: c in Head(s, d) ==> c in s
  {
  }

  lemma ParsedParamProper(t: string)
    requires ';' !in t
    ensures ProperParam(ParseParam(t))
  {
    if '=' in t {
      TailSubset(t, '=');
      TrimTrims(Head(t, '='));
      TrimTrims(Tail(t, '='));
    }
  }

  lemma {:induction false} TokensFree(s: string, d: char)
    ensures forall i :: 0 <= i < |Tokens(s, d)| ==> d !in Tokens(s, d)[i]
    decreases |s|
  {
    if s != "" {
      TokensFree(Tail(s, d), d);
    }
  }

  lemma ParsedIsProper(val: string)
    ensures Proper(Parse(FRESH, val))
  {
    if val != "" {
      var ct := Head(val, ';');
      TailSubset(ct, '/');
      TailSubset(Tail(ct, '/'), '/');
      var tokens := Tokens(Tail(val, ';'), ';');
      TokensFree(Tail(val, ';'), ';');
      var params := ParseParams(tokens);
      assert [] + params == params;
      forall i | 0 <= i < |params| ensures ProperParam(params[i]) {
        ParsedParamProper(tokens[i]);
      }
    }
  }

  // -------- what is printed is parsed back --------

  lemma PrintedParam(p: Param)
    requires ProperParam(p)
    ensures ';' !in ParamStr(p) && ParseParam(ParamStr(p)) == p
  {
    hide Head, Tail, Trim, RemoveDquote;
    var t := ParamStr(p);
    var quoted := "\"" + p.value + "\"";
    QuotedParts(p.name, p.value);
    HeadAndTail(" " + p.name, '=', "=" + quoted);
    TrimTrims(p.name);
    TrimTrims(quoted);
  }

  lemma QuotedParts(name: string, value: string)
    ensures var quoted := "\"" + value + "\""; var t := " " + name + "=\"" + value + "\"";
      && t == " " + name + ("=" + quoted) && '=' in t && ("=" + quoted)[1..] == quoted
      && Trimmed(quoted) && RemoveDquote(quoted) == value
    ensures ';' !in name && ';' !in value ==> ';' !in " " + name + "=\"" + value + "\""
  {
    var quoted := "\"" + value + "\"";
    var t := " " + name + "=\"" + value + "\"";
    assert t == " " + name + ("=" + quoted);
    assert t[|name| + 1] == '=';
    assert quoted[1..|quoted| - 1] == value;
  }

  lemma {:induction false} PrintedParams(params: seq<Param>)
    requires forall i :: 0 <= i < |params| ==> ProperParam(params[i])
    ensures var s := ParamsStr(params);
      params != [] ==> s != "" && s[0] == ';' && ParseParams(Tokens(s[1..], ';')) == params
  {
    hide ParseParam, ParseParams, ParamStr, ProperParam, Head, Tail, Tokens;
    if params == [] {
      NoTokens();
    } else {
      var p, later := params[0], ParamsStr(params[1..]);
      PrintedParams(params[1..]);
      PrintedParam(p);
      NotEmpty(p);
      FirstToken(ParamStr(p), ';', later);
      ParamsBehind(";", ParamStr(p), later);
      var rest := if later == "" then "" else later[1..];
      NoTokens();
      ParseParamsFirst(ParamStr(p), Tokens(rest, ';'));
    }
  }

  lemma ParamsBehind(first: string, a: string, b: string)
    requires |first| == 1
    ensures (first + a + b)[1..] == a + b && (first + a + b)[0] == first[0]
  {
  }

  lemma ParseParamsFirst(t: string, tokens: seq<string>)
    ensures ParseParams([t] + tokens) == [ParseParam(t)] + ParseParams(tokens)
  {
    hide ParseParam;
  }

  lemma FirstToken(a: string, d: char, b: string)
    requires a != "" && d !in a && (b == "" || b[0] == d)
    ensures Tokens(a + b, d) == [a] + Tokens(if b == "" then "" else b[1..], d)
  {
    hide Head, Tail;
    HeadAndTail(a, d, b);
  }

  lemma NotEmpty(p: Param)
    ensures ParamStr(p) != ""
  {
  }

  lemma PrintedIsParsed(f: Field)
    requires Proper(f)
    ensures Parse(FRESH, Str(f)) == f
  {
    hide ProperParam, Head, Tail, Tokens, ParseParams, ParamsStr;
    var ct := f.kind + "/" + f.subtype;
    PrintedParams(f.params);
    PrintedKind(f.kind, f.subtype);
    assert f.params == [] ==> ParamsStr(f.params) == "" by { NoParams(); }
    HeadAndTail(ct, ';', ParamsStr(f.params));
    NoTokens();
    assert Str(f) == ct + ParamsStr(f.params) && Str(f) != "";
    assert [] + f.params == f.params;
    assert Parse(FRESH, Str(f)).params == f.params;
  }

  lemma NoParams()
    ensures ParamsStr([]) == ""
  {
  }

  lemma PrintedKind(kind: string, subtype: string)
    requires '/' !in kind && '/' !in subtype && ';' !in kind && ';' !in subtype
    ensures var ct := kind + "/" + subtype; ';' !in ct && Head(ct, '/') == kind && Head(Tail(ct, '/'), '/') == subtype
  {
    hide Head, Tail;
    var ct := kind + "/" + subtype;
    assert ct == kind + ("/" + subtype);
    HeadAndTail(kind, '/', "/" + subtype);
    assert ("/" + subtype)[1..] == subtype == subtype + "";
    HeadAndTail(subtype, '/', "");
  }

  lemma NoTokens()
    ensures ParseParams(Tokens("", ';')) == []
  {
  }

  /** A fresh field set from what a field prints is that field, exactly if the field is
      proper. */
  lemma RoundTrip(f: Field)
    ensures Parse(FRESH, Str(f)) == f <==> Proper(f)
  {
    hide Parse, Str, Proper;
    ParsedIsProper(Str(f));
    if Proper(f) {
      PrintedIsParsed(f);
    }
  }

  // -------- every way of writing a field --------

  /** A parameter as it may be written: with blanks around the name and the value, and the
      value in quotes or not. */
  datatype Spelling = Spelling(before: string, name: string, behind: string, lead: string, value: string, quoted: bool,
                               trail: string)
  {
    function Written(): string {
      before + name + behind + "=" + (lead + (if quoted then "\"" + value + "\"" else value) + trail)
    }

    /** Blanks are blanks, and nothing has another meaning where it stands. */
    predicate Fits() {
      && AllBlank(before) && AllBlank(behind) && AllBlank(lead) && AllBlank(trail)
      && ProperParam(Param(name, value))
      && (quoted || (Trimmed(value) && !(|value| >= 2 && value[0] == '"' && value[|value| - 1] == '"')))
    }
  }

  function Spelt(spellings: seq<Spelling>): string {
    if spellings == [] then "" else ";" + spellings[0].Written() + Spelt(spellings[1..])
  }

  predicate AllFit(spellings: seq<Spelling>) {
    forall i :: 0 <= i < |spellings| ==> spellings[i].Fits()
  }

  function Meant(spellings: seq<Spelling>): (r: seq<Param>)
    ensures |r| == |spellings|
  {
    if spellings == [] then []
    else [Param(spellings[0].name, spellings[0].value)] + Meant(spellings[1..])
  }

  lemma BlanksPlain(s: string)
    requires AllBlank(s)
    ensures '=' !in s && ';' !in s
  {
  }

  /** However a parameter is written, its name and its value are read. */
  lemma SpellingRead(p: Spelling)
    requires p.Fits()
    ensures ParseParam(p.Written()) == Param(p.name, p.value) && ';' !in p.Written() && p.Written() != ""
  {
    hide Head, Tail, Trim, AllBlank;
    BlanksPlain(p.before);
    BlanksPlain(p.behind);
    BlanksPlain(p.lead);
    BlanksPlain(p.trail);
    var value := if p.quoted then "\"" + p.value + "\"" else p.value;
    var left, right := p.before + p.name + p.behind, p.lead + value + p.trail;
    assert p.Written() == left + ("=" + right) && ("=" + right)[1..] == right;
    assert p.Written()[|left|] == '=';
    HeadAndTail(left, '=', "=" + right);
    TrimAround(p.before, p.name, p.behind);
    if p.quoted {
      QuotedParts(p.name, p.value);
    }
    TrimAround(p.lead, value, p.trail);
  }

  lemma {:induction false} SpellingsRead(spellings: seq<Spelling>)
    requires AllFit(spellings)
    ensures var s := Spelt(spellings);
      if spellings == [] then s == ""
      else s != "" && s[0] == ';' && ParseParams(Tokens(s[1..], ';')) == Meant(spellings)
  {
    hide ParseParam, ParseParams, Head, Tail, Tokens, Spelling.Fits, Spelling.Written;
    if spellings != [] {
      var t, later := spellings[0].Written(), Spelt(spellings[1..]);
      SpellingsRead(spellings[1..]);
      SpellingRead(spellings[0]);
      FirstToken(t, ';', later);
      ParamsBehind(";", t, later);
      NoTokens();
      ParseParamsFirst(t, Tokens(if later == "" then "" else later[1..], ';'));
    }
  }

  /** A field is read as its type, its subtype and its parameters in order, whether their
      values are in quotes or not and whatever blanks there are around names and values. */
  lemma SpeltIsParsed(kind: string, subtype: string, spellings: seq<Spelling>, before: Field)
    requires Proper(Field(kind, subtype, [])) && AllFit(spellings)
    ensures Parse(before, kind + "/" + subtype + Spelt(spellings))
         == Field(kind, subtype, before.params + Meant(spellings))
  {
    hide Head, Tail, Tokens, ParseParams, Spelt, AllFit, Meant;
    var ct, s := kind + "/" + subtype, Spelt(spellings);
    PrintedKind(kind, subtype);
    SpellingsRead(spellings);
    HeadAndTail(ct, ';', s);
    NoTokens();
    assert ct + s != "";
    assert spellings == [] ==> Meant(spellings) == [];
  }

  /** As the printer writes parameters. */
  function InQuotes(params: seq<Param>): (r: seq<Spelling>)
    ensures |r| == |params|
  {
    if params == [] then []
    else [Spelling(" ", params[0].name, "", "", params[0].value, true, "")] + InQuotes(params[1..])
  }

  /** What is printed is such a spelling of the field: a blank before each name, each value in
      quotes. */
  lemma {:induction false} PrintedSpelt(params: seq<Param>)
    ensures ParamsStr(params) == Spelt(InQuotes(params)) && Meant(InQuotes(params)) == params
  {
    hide Spelling.Written, ParamStr;
    if params != [] {
      var p, later := params[0], InQuotes(params[1..]);
      var first := Spelling(" ", p.name, "", "", p.value, true, "");
      PrintedSpelt(params[1..]);
      OneInQuotes(p);
      assert InQuotes(params) == [first] + later && InQuotes(params)[1..] == later;
      assert params == [p] + params[1..];
    }
  }

  lemma OneInQuotes(p: Param)
    ensures Spelling(" ", p.name, "", "", p.value, true, "").Written() == ParamStr(p)
  {
    var name, quoted := " " + p.name, "\"" + p.value + "\"";
    assert name + "" == name && "" + quoted + "" == quoted;
    QuotedParts(p.name, p.value);
    assert name + "=" + quoted == name + ("=" + quoted);
  }

  // -------- single parameters --------

  /** Names are compared without regard to case. */
  predicate SameName(a: string, b: string) {
    |a| == |b| && forall i :: 0 <= i < |a| ==> UpperChar(a[i]) == UpperChar(b[i])
  }

  function GetParam(params: seq<Param>, name: string): string {
    if params == [] then "" else if SameName(params[0].name, name) then params[0].value else GetParam(params[1..], name)
  }

  function SetParam(params: seq<Param>, name: string, value: string): seq<Param> {
    if params == [] then [Param(name, value)]
    else if SameName(params[0].name, name) then [params[0].(value := value)] + params[1..]
    else [params[0]] + SetParam(params[1..], name, value)
  }

  lemma {:induction false} SetThenGet(params: seq<Param>, name: string, value: string, other: string)
    ensures GetParam(SetParam(params, name, value), other)
         == if SameName(name, other) then value else GetParam(params, other)
  {
    if params != [] {
      SetThenGet(params[1..], name, value, other);
    }
  }

  // -------- the class --------

  lemma ReadOne(rest: string)
    ensures ParseParams(Tokens(rest, ';')) ==
      if rest == "" then [] else [ParseParam(Head(rest, ';'))] + ParseParams(Tokens(Tail(rest, ';'), ';'))
  {
    hide Head, Tail, ParseParam;
  }

  lemma RestIsTail(val: string)
    ensures var n := |Head(val, ';')| + 1; val[if n < |val| then n else |val|..] == Tail(val, ';')
  {
  }

  class ContentType {
    var kind: string
    var subtype: string
    var params: seq<Param>

    function Now(): Field
      reads this
    {
      Field(kind, subtype, params)
    }

    constructor ()
      ensures Now() == FRESH
    {
      kind, subtype, params := "", "", [];
    }

    static method NewParam(t: string) returns (p: Param)
      ensures p == ParseParam(t)
    {
      p := Param("", "");
      var bit := 0;
      assert t[0..] == t;
      while bit < |t|
        invariant 0 <= bit <= |t| && '=' !in t[..bit] && p == Param("", "")
      {
        if t[bit] == '=' {
          HeadAndTail(t[..bit], '=', t[bit..]);
          assert t[..bit] + t[bit..] == t && t[bit..][1..] == t[bit + 1..];
          var n := RemoveExternalBlanks(t[..bit]);
          var v := RemoveExternalBlanks(t[bit + 1..]);
          return Param(n, RemoveDquote(v));
        }
        assert t[..bit + 1] == t[..bit] + [t[bit]];
        bit := bit + 1;
      }
      assert t[..bit] == t;
    }

    method Set(val: string)
      modifies this
      ensures Now() == Parse(old(Now()), val)
    {
      hide ParseParams, Tokens, Head, Tail, Cut;
      var stok := new Tokenizer(val, ';');
      var ok, ct := stok.Next();
      if !ok {
        return;
      }
      stok.SetDelim('/');
      stok.SetSource(ct);
      var _, stype := stok.Next();
      var _, ssubtype := stok.Next();
      kind, subtype := stype, ssubtype;
      var start := if |ct| + 1 < |val| then |ct| + 1 else |val|;
      var rest := val[start..];
      RestIsTail(val);
      if rest == "" {
        NoTokens();
        assert params + [] == params;
        return;
      }
      stok.SetDelim(';');
      stok.SetSource(rest);
      AddParams(stok);
    }

    /** The loop of `set` over the parameters. */
    method AddParams(stok: Tokenizer)
      requires stok.Valid() && stok.delim == ';'
      modifies this`params, stok
      ensures params == old(params) + ParseParams(Tokens(old(stok.Rest()), ';'))
    {
      hide Head, Tail, Tokens, ParseParam, ParseParams;
      ghost var all := params + ParseParams(Tokens(stok.Rest(), ';'));
      ReadOne(stok.Rest());
      var more, paramValue := stok.Next();
      while more
        invariant stok.Valid() && stok.delim == ';'
        invariant all == if more then params + ([ParseParam(paramValue)] + ParseParams(Tokens(stok.Rest(), ';')))
                         else params
        decreases if more then 1 + |stok.Rest()| else 0
      {
        var p := NewParam(paramValue);
        ReadOne(stok.Rest());
        ghost var later := ParseParams(Tokens(stok.Rest(), ';'));
        assert params + ([p] + later) == params + [p] + later;
        params := params + [p];
        more, paramValue := stok.Next();
      }
    }

    method Print() returns (s: string)
      ensures s == Str(Now())
    {
      s := kind + "/" + subtype;
      ghost var start := s;
      var i := 0;
      while i < |params|
        invariant 0 <= i <= |params|
        invariant s + ParamsStr(params[i..]) == start + ParamsStr(params)
      {
        assert params[i..][1..] == params[i + 1..];
        var p := params[i];
        Longer(s, p, ParamsStr(params[i + 1..]));
        s := s + ("; " + p.name + "=\"" + p.value + "\"");
        i := i + 1;
      }
    }

    method SetOne(name: string, value: string)
      modifies this`params
      ensures params == SetParam(old(params), name, value)
    {
      var i := 0;
      while i < |params|
        invariant 0 <= i <= |params| && params == old(params)
        invariant SetParam(params, name, value) == params[..i] + SetParam(params[i..], name, value)
      {
        assert params[i..][1..] == params[i + 1..];
        if SameName(params[i].name, name) {
          assert params[i := params[i].(value := value)]
              == params[..i] + [params[i].(value := value)] + params[i + 1..];
          params := params[i := params[i].(value := value)];
          return;
        }
        i := i + 1;
      }
      params := params + [Param(name, value)];
    }

    method GetOne(name: string) returns (value: string)
      ensures value == GetParam(params, name)
    {
      var i := 0;
      while i < |params|
        invariant 0 <= i <= |params| && GetParam(params, name) == GetParam(params[i..], name)
      {
        assert params[i..][1..] == params[i + 1..];
        if SameName(params[i].name, name) {
          return params[i].value;
        }
        i := i + 1;
      }
      value := "";
    }
  }

  lemma Longer(s: string, p: Param, later: string)
    ensures s + (";" + ParamStr(p) + later) == s + ("; " + p.name + "=\"" + p.value + "\"") + later
  {
    assert ";" + ParamStr(p) == "; " + p.name + "=\"" + p.value + "\"";
  }
}
