/** The rewriting of SQL statements: '?' and ':name' outside quotes become the numbered
    markers of the database, and the names of their parameters are collected. */
module SqlRewrite {

  predicate NameChar(c: char) {
    '0' <= c <= '9' || 'A' <= c <= 'Z' || 'a' <= c <= 'z' || c == '_'
  }

  function Digit(d: nat): char
    requires d < 10
  {
    (d + '0' as int) as char
  }

  function Decimal(n: nat): (s: string)
    ensures s != ""
  {
    if n < 10 then [Digit(n)] else Decimal(n / 10) + [Digit(n % 10)]
  }

  predicate IsDigits(s: string) {
    forall i :: 0 <= i < |s| ==> '0' <= s[i] <= '9'
  }

  /** The number that digits stand for. */
  function DigitsValue(s: string): nat
    requires IsDigits(s)
  {
    if s == "" then 0 else 10 * DigitsValue(s[..|s| - 1]) + (s[|s| - 1] as int - '0' as int)
  }

  /** Reading the digits of a number gives the number, which has no leading zero. */
  lemma {:induction false} DecimalRead(n: nat)
    ensures IsDigits(Decimal(n)) && DigitsValue(Decimal(n)) == n
    ensures n > 0 ==> Decimal(n)[0] != '0'
  {
    var s := Decimal(n);
    if n < 10 {
      assert s[..0] == "" && s[0] == Digit(n);
    } else {
      DecimalRead(n / 10);
      assert s[..|s| - 1] == Decimal(n / 10) && s[|s| - 1] == Digit(n % 10);
    }
  }

  /** How many characters of a name there are at the beginning. */
  function NameLength(s: string): (k: nat)
    ensures k <= |s| && (forall i :: 0 <= i < k ==> NameChar(s[i])) && (k < |s| ==> !NameChar(s[k]))
  {
    if s == "" || !NameChar(s[0]) then 0 else 1 + NameLength(s[1..])
  }

  // -------- what a statement consists of --------

  /** Text, mark, text, mark, ... , text; a mark is the name of its parameter, which is
      empty for '?'. */
  datatype Query = End(text: string) | Mark(text: string, name: string, rest: Query)

  function Before(c: char, q: Query): Query {
    q.(text := [c] + q.text)
  }

  /** `ssq` and `dsq`: inside single and double quotes. */
  function Read(s: string, ssq: bool, dsq: bool): Query
    decreases |s|
  {
    if s == "" then End("")
    else if s[0] == '\'' then Before(s[0], Read(s[1..], !ssq, dsq))
    else if s[0] == '"' then Before(s[0], Read(s[1..], ssq, !dsq))
    else if s[0] == '?' && !ssq && !dsq then Mark("", "", Read(s[1..], ssq, dsq))
    else if s[0] == ':' && !ssq && !dsq then
      var k := NameLength(s[1..]);
      Mark("", s[1..1 + k], Read(s[1 + k..], ssq, dsq))
    else Before(s[0], Read(s[1..], ssq, dsq))
  }

  /** The statement for the database: the marks are numbered from `n` + 1 on. */
  function Numbered(q: Query, n: nat): string {
    match q
    case End(text) => text
    case Mark(text, _, rest) => text + ("$" + Decimal(n + 1)) + Numbered(rest, n + 1)
  }

  function Names(q: Query): seq<string> {
    if q.End? then [] else [q.name] + Names(q.rest)
  }

  function MarkerFor(name: string): (m: string)
    ensures m != "" && (m[0] == '?' || m[0] == ':')
  {
    if name == "" then "?" else ":" + name
  }

  /** The marks put back as they are written. */
  function Restored(q: Query): string {
    match q
    case End(text) => text
    case Mark(text, name, rest) => text + MarkerFor(name) + Restored(rest)
  }

  // -------- what is promised of it --------

  /** Every ':' outside quotes has a name. */
  predicate Named(s: string, ssq: bool, dsq: bool)
    decreases |s|
  {
    s == "" ||
    (if s[0] == '\'' then Named(s[1..], !ssq, dsq)
     else if s[0] == '"' then Named(s[1..], ssq, !dsq)
     else (s[0] == ':' && !ssq && !dsq ==> |s| > 1 && NameChar(s[1])) && Named(s[1..], ssq, dsq))
  }

  /** How many '?' and ':' there are outside quotes. */
  function Markers(s: string, ssq: bool, dsq: bool): nat
    decreases |s|
  {
    if s == "" then 0
    else if s[0] == '\'' then Markers(s[1..], !ssq, dsq)
    else if s[0] == '"' then Markers(s[1..], ssq, !dsq)
    else (if (s[0] == '?' || s[0] == ':') && !ssq && !dsq then 1 else 0) + Markers(s[1..], ssq, dsq)
  }

  lemma {:induction false} NameSkipped(s: string, k: nat, ssq: bool, dsq: bool)
    requires k <= |s| && forall i :: 0 <= i < k ==> NameChar(s[i])
    ensures Named(s, ssq, dsq) <==> Named(s[k..], ssq, dsq)
    ensures Markers(s, ssq, dsq) == Markers(s[k..], ssq, dsq)
  {
    if k > 0 {
      NameSkipped(s[1..], k - 1, ssq, dsq);
      assert s[1..][k - 1..] == s[k..] && NameChar(s[0]);
    } else {
      assert s[0..] == s;
    }
  }

  /** There is one parameter for each marker outside quotes, and none else. */
  lemma {:induction false} OneParameterEach(s: string, ssq: bool, dsq: bool)
    ensures |Names(Read(s, ssq, dsq))| == Markers(s, ssq, dsq)
    decreases |s|
  {
    if s != "" {
      var c := s[0];
      if c == ':' && !ssq && !dsq {
        var k := NameLength(s[1..]);
        NameSkipped(s[1..], k, ssq, dsq);
        assert s[1..][k..] == s[1 + k..];
        OneParameterEach(s[1 + k..], ssq, dsq);
      } else {
        OneParameterEach(s[1..], if c == '\'' then !ssq else ssq, if c == '"' then !dsq else dsq);
      }
    }
  }

  lemma RestoredFirst(c: char, q: Query)
    ensures Restored(Before(c, q)) == [c] + Restored(q)
  {
    hide MarkerFor;
    match q
    case End(text) =>
    case Mark(text, name, rest) =>
      assert [c] + text + MarkerFor(name) + Restored(rest) == [c] + (text + MarkerFor(name) + Restored(rest));
  }

  lemma RestoredBefore(c: char, q: Query, s: string)
    requires s != "" && s[0] == c
    ensures Restored(Before(c, q)) == s <==> Restored(q) == s[1..]
  {
    hide Restored;
    RestoredFirst(c, q);
    assert s == [c] + s[1..];
    assert ([c] + Restored(q))[1..] == Restored(q);
  }

  lemma Joined(first: string, p: string, back: string, s: string)
    requires |first| == 1 && |p| < |s|
    ensures first + p + back == s <==> first == s[..1] && p == s[1..1 + |p|] && back == s[1 + |p|..]
  {
    var r := first + p + back;
    assert r[..1] == first && r[1..1 + |p|] == p && r[1 + |p|..] == back;
    assert s[..1] + s[1..1 + |p|] + s[1 + |p|..] == s;
  }

  lemma MarkerBack(s: string, p: string, back: string)
    requires s != "" && (s[0] == '?' || s[0] == ':') && |p| < |s| && s[1..1 + |p|] == p && (s[0] == '?' ==> p == "")
    ensures MarkerFor(p) + back == s <==> back == s[1 + |p|..] && (s[0] == ':' ==> p != "")
  {
    var first := if p == "" then "?" else ":";
    assert MarkerFor(p) == first + p && s[..1] == [s[0]];
    Joined(first, p, back, s);
  }

  lemma RestoredMark(name: string, q: Query, s: string)
    requires s != "" && |name| < |s| && s[1..1 + |name|] == name
    ensures s[0] == ':' && name != "" ==> (Restored(Mark("", name, q)) == s <==> Restored(q) == s[1 + |name|..])
    ensures s[0] == ':' && name == "" ==> Restored(Mark("", name, q)) != s
    ensures s[0] == '?' && name == "" ==> (Restored(Mark("", name, q)) == s <==> Restored(q) == s[1..])
  {
    hide MarkerFor;
    assert Restored(Mark("", name, q)) == "" + MarkerFor(name) + Restored(q) == MarkerFor(name) + Restored(q);
    if s[0] == ':' || (s[0] == '?' && name == "") {
      MarkerBack(s, name, Restored(q));
    }
  }

  /** Putting the marks back gives the statement, exactly if each ':' outside quotes has a
      name: without one it is taken for '?'. */
  lemma {:induction false} RestoresStatement(s: string, ssq: bool, dsq: bool)
    ensures Restored(Read(s, ssq, dsq)) == s <==> Named(s, ssq, dsq)
    decreases |s|
  {
    hide Restored;
    if s == "" {
      RestoredEnd();
    } else {
      var c := s[0];
      if c == ':' && !ssq && !dsq {
        var k := NameLength(s[1..]);
        var name := s[1..1 + k];
        assert s[1..][..k] == name && s[1..][k..] == s[1 + k..];
        NameSkipped(s[1..], k, ssq, dsq);
        RestoresStatement(s[1 + k..], ssq, dsq);
        RestoredMark(name, Read(s[1 + k..], ssq, dsq), s);
      } else {
        var ssq', dsq' := if c == '\'' then !ssq else ssq, if c == '"' then !dsq else dsq;
        RestoresStatement(s[1..], ssq', dsq');
        RestoredBefore(c, Read(s[1..], ssq', dsq'), s);
        if c == '?' {
          RestoredMark("", Read(s[1..], ssq', dsq'), s);
        }
      }
    }
  }

  lemma RestoredEnd()
    ensures Restored(End("")) == ""
  {
  }

  // -------- the loop --------

  lemma NumberedBefore(q: string, c: char, rest: Query, n: nat)
    ensures q + Numbered(Before(c, rest), n) == q + [c] + Numbered(rest, n)
  {
    if rest.Mark? {
      var later := ("$" + Decimal(n + 1)) + Numbered(rest.rest, n + 1);
      assert q + ([c] + rest.text + ("$" + Decimal(n + 1)) + Numbered(rest.rest, n + 1))
          == q + [c] + (rest.text + later);
    } else {
      assert q + ([c] + rest.text) == q + [c] + rest.text;
    }
  }

  lemma NumberedMark(q: string, name: string, rest: Query, n: nat)
    ensures q + Numbered(Mark("", name, rest), n) == q + ("$" + Decimal(n + 1)) + Numbered(rest, n + 1)
  {
    assert "" + ("$" + Decimal(n + 1)) == "$" + Decimal(n + 1);
  }

  lemma NamesBefore(c: char, q: Query)
    ensures Names(Before(c, q)) == Names(q)
  {
  }

  /** The first character of a statement. */
  lemma ReadFirst(s: string, ssq: bool, dsq: bool)
    requires s != ""
    ensures var c, quoted := s[0], ssq || dsq;
      Read(s, ssq, dsq) ==
        if c == ':' && !quoted then
          var k := NameLength(s[1..]); Mark("", s[1..1 + k], Read(s[1 + k..], ssq, dsq))
        else if c == '?' && !quoted then Mark("", "", Read(s[1..], ssq, dsq))
        else Before(c, Read(s[1..], if c == '\'' then !ssq else ssq, if c == '"' then !dsq else dsq))
  {
  }

  // -------- what the markers are --------

  /** Texts with a marker between each two of them. */
  function Woven(texts: seq<string>, marks: seq<string>): string
    requires |texts| == |marks| + 1
  {
    if marks == [] then texts[0] else texts[0] + marks[0] + Woven(texts[1..], marks[1..])
  }

  function Texts(q: Query): (r: seq<string>)
    ensures |r| == |Names(q)| + 1
  {
    match q
    case End(text) => [text]
    case Mark(text, _, rest) => [text] + Texts(rest)
  }

  /** '$' and the number `k`, read as a decimal, without leading zeros. */
  predicate IsNumber(m: string, k: nat) {
    m != "" && m[0] == '$' && IsDigits(m[1..]) && DigitsValue(m[1..]) == k && |m| > 1 && m[1] != '0'
  }

  function MarkersFor(names: seq<string>): (r: seq<string>)
    ensures |r| == |names|
  {
    seq(|names|, i requires 0 <= i < |names| => MarkerFor(names[i]))
  }

  lemma NumberFor(k: nat)
    requires k > 0
    ensures IsNumber("$" + Decimal(k), k)
  {
    hide Decimal;
    DecimalRead(k);
    assert ("$" + Decimal(k))[1..] == Decimal(k);
  }

  lemma {:induction false} NumberedWoven(q: Query, n: nat) returns (marks: seq<string>)
    ensures |marks| == |Names(q)| && Numbered(q, n) == Woven(Texts(q), marks)
    ensures forall k :: 0 <= k < |marks| ==> IsNumber(marks[k], n + k + 1)
  {
    hide IsNumber, Decimal;
    match q
    case End(text) =>
      marks := [];
    case Mark(text, _, rest) =>
      var later := NumberedWoven(rest, n + 1);
      NumberFor(n + 1);
      var first := "$" + Decimal(n + 1);
      marks := [first] + later;
      assert marks[1..] == later && Texts(q)[1..] == Texts(rest);
  }

  lemma {:induction false} RestoredWoven(q: Query)
    ensures Restored(q) == Woven(Texts(q), MarkersFor(Names(q)))
  {
    match q
    case End(text) =>
    case Mark(text, name, rest) =>
      RestoredWoven(rest);
      assert MarkersFor(Names(q))[1..] == MarkersFor(Names(rest)) && Texts(q)[1..] == Texts(rest);
  }

  /** How a marker is written for a parameter: '?' for one without a name, or ':' and the
      name, which may be missing. */
  predicate WrittenFor(m: string, name: string) {
    m == ":" + name || (m == "?" && name == "")
  }

  lemma WovenBefore(c: char, texts: seq<string>, marks: seq<string>)
    requires |texts| == |marks| + 1
    ensures Woven([[c] + texts[0]] + texts[1..], marks) == [c] + Woven(texts, marks)
  {
    var more := [[c] + texts[0]] + texts[1..];
    assert more[1..] == texts[1..];
    if marks != [] {
      var later := Woven(texts[1..], marks[1..]);
      assert [c] + texts[0] + marks[0] + later == [c] + (texts[0] + marks[0] + later);
    }
  }

  lemma WovenMark(m: string, texts: seq<string>, marks: seq<string>)
    requires |texts| == |marks| + 1
    ensures Woven([""] + texts, [m] + marks) == m + Woven(texts, marks)
  {
    assert ([""] + texts)[1..] == texts && ([m] + marks)[1..] == marks && "" + m == m;
  }

  /** Every statement is its texts with its markers between them. */
  lemma {:induction false} StatementWoven(s: string, ssq: bool, dsq: bool) returns (written: seq<string>)
    ensures var q := Read(s, ssq, dsq);
      && |written| == |Names(q)| && s == Woven(Texts(q), written)
      && forall k :: 0 <= k < |written| ==> WrittenFor(written[k], Names(q)[k])
    decreases |s|
  {
    hide Woven, WrittenFor, Read;
    written := [];
    if s == "" {
      AtEnd(0);
      NothingWoven();
    } else {
      ReadFirst(s, ssq, dsq);
      var c, quoted := s[0], ssq || dsq;
      assert s == [c] + s[1..];
      if c == ':' && !quoted {
        var k := NameLength(s[1..]);
        var name, rest := s[1..1 + k], Read(s[1 + k..], ssq, dsq);
        var later := StatementWoven(s[1 + k..], ssq, dsq);
        written := [":" + name] + later;
        WovenMark(":" + name, Texts(rest), later);
        assert s == ":" + name + s[1 + k..];
        MarkWritten(":" + name, name, later, Names(rest));
      } else if c == '?' && !quoted {
        var rest := Read(s[1..], ssq, dsq);
        var later := StatementWoven(s[1..], ssq, dsq);
        written := ["?"] + later;
        WovenMark("?", Texts(rest), later);
        MarkWritten("?", "", later, Names(rest));
      } else {
        var ssq', dsq' := if c == '\'' then !ssq else ssq, if c == '"' then !dsq else dsq;
        var rest := Read(s[1..], ssq', dsq');
        written := StatementWoven(s[1..], ssq', dsq');
        WovenBefore(c, Texts(rest), written);
        TextsBefore(c, rest);
        NamesBefore(c, rest);
      }
    }
  }

  lemma NothingWoven()
    ensures Woven([""], []) == ""
  {
  }

  lemma TextsBefore(c: char, q: Query)
    ensures Texts(Before(c, q)) == [[c] + Texts(q)[0]] + Texts(q)[1..]
  {
  }

  lemma MarkWritten(m: string, name: string, later: seq<string>, names: seq<string>)
    requires m == ":" + name || (m == "?" && name == "")
    requires |later| == |names| && forall k :: 0 <= k < |later| ==> WrittenFor(later[k], names[k])
    ensures forall k :: 0 <= k < |later| + 1 ==> WrittenFor(([m] + later)[k], ([name] + names)[k])
  {
    forall k | 0 <= k < |later| + 1 ensures WrittenFor(([m] + later)[k], ([name] + names)[k]) {
      if k > 0 {
        assert ([m] + later)[k] == later[k - 1] && ([name] + names)[k] == names[k - 1];
      }
    }
  }

  /** The statement is some texts with markers between them; what is returned is the same
      texts with "$1", "$2", ... between them. */
  method Parse(statement: string)
    returns (parsed: string, parameters: seq<string>, ghost texts: seq<string>, ghost marks: seq<string>,
             ghost written: seq<string>)
    ensures |texts| == |marks| + 1 && |marks| == |parameters| && parsed == Woven(texts, marks)
    ensures forall k :: 0 <= k < |marks| ==> IsNumber(marks[k], k + 1)
    ensures |written| == |parameters| && statement == Woven(texts, written)
    ensures forall k :: 0 <= k < |written| ==> WrittenFor(written[k], parameters[k])
    ensures Named(statement, false, false) ==> statement == Woven(texts, MarkersFor(parameters))
    ensures var q := Read(statement, false, false); parsed == Numbered(q, 0) && parameters == Names(q)
    ensures |parameters| == Markers(statement, false, false)
  {
    hide Numbered, Names, Decimal, Markers, Read, Named, Woven, Texts, MarkersFor, IsNumber, WrittenFor;
    OneParameterEach(statement, false, false);
    ghost var whole := Read(statement, false, false);
    parameters := [];
    var q, ssq, dsq, n, i := "", false, false, 0, 0;
    assert statement[0..] == statement;
    while i < |statement|
      invariant 0 <= i <= |statement|
      invariant q + Numbered(Read(statement[i..], ssq, dsq), n) == Numbered(whole, 0)
      invariant parameters + Names(Read(statement[i..], ssq, dsq)) == Names(whole)
      decreases |statement| - i
    {
      ghost var s := statement[i..];
      var c := statement[i];
      assert s[1..] == statement[i + 1..];
      ReadFirst(s, ssq, dsq);
      if c == ':' && !ssq && !dsq {
        var p := ReadName(statement, i + 1);
        ghost var rest := Read(statement[i + 1 + |p|..], ssq, dsq);
        assert s[1 + |p|..] == statement[i + 1 + |p|..];
        assert Read(s, ssq, dsq) == Mark("", p, rest);
        NumberedMark(q, p, rest, n);
        NamesMark(parameters, p, rest);
        parameters := parameters + [p];
        n := n + 1;
        q := q + ("$" + Decimal(n));
        i := i + |p|;
      } else if c == '?' && !ssq && !dsq {
        ghost var rest := Read(statement[i + 1..], ssq, dsq);
        NumberedMark(q, "", rest, n);
        NamesMark(parameters, "", rest);
        parameters := parameters + [""];
        n := n + 1;
        q := q + ("$" + Decimal(n));
      } else {
        if c == '\'' {
          ssq := !ssq;
        } else if c == '"' {
          dsq := !dsq;
        }
        ghost var rest := Read(statement[i + 1..], ssq, dsq);
        NumberedBefore(q, c, rest, n);
        NamesBefore(c, rest);
        q := q + [c];
      }
      i := i + 1;
    }
    AtEnd(n);
    assert statement[i..] == "" && q + "" == q && parameters + [] == parameters;
    parsed := q;
    texts := Texts(whole);
    marks := NumberedWoven(whole, 0);
    written := StatementWoven(statement, false, false);
    RestoredWoven(whole);
    RestoresStatement(statement, false, false);
  }

  lemma AtEnd(n: nat)
    ensures Numbered(Read("", false, false), n) == "" && Names(End("")) == []
    ensures forall ssq: bool, dsq: bool :: Read("", ssq, dsq) == End("")
  {
  }

  lemma NamesMark(parameters: seq<string>, name: string, rest: Query)
    ensures parameters + Names(Mark("", name, rest)) == parameters + [name] + Names(rest)
  {
  }

  method ReadName(s: string, from: nat) returns (p: string)
    requires from <= |s|
    ensures from + |p| <= |s| && p == s[from..][..NameLength(s[from..])] == s[from..from + |p|]
  {
    var i := from;
    while i < |s| && NameChar(s[i])
      invariant from <= i <= |s|
      invariant NameLength(s[from..]) == i - from + NameLength(s[i..])
    {
      assert s[i..][1..] == s[i + 1..];
      i := i + 1;
    }
    p := s[from..i];
  }

  // -------- from the returned strings alone --------

  /** Replaces "$1", "$2", ... outside quotes by the markers of the parameters, as one who
      has only the two results would. */
  function PutBack(parsed: string, names: seq<string>, k: nat, ssq: bool, dsq: bool): string
    decreases |parsed|
  {
    var number := "$" + Decimal(k + 1);
    if parsed == "" then ""
    else if parsed[0] == '\'' then [parsed[0]] + PutBack(parsed[1..], names, k, !ssq, dsq)
    else if parsed[0] == '"' then [parsed[0]] + PutBack(parsed[1..], names, k, ssq, !dsq)
    else if !ssq && !dsq && names != [] && number <= parsed then
      MarkerFor(names[0]) + PutBack(parsed[|number|..], names[1..], k + 1, ssq, dsq)
    else [parsed[0]] + PutBack(parsed[1..], names, k, ssq, dsq)
  }

  /** Nowhere outside quotes does the statement itself have the number of the next marker,
      after `k` markers have been read. */
  predicate NoStray(s: string, k: nat, ssq: bool, dsq: bool)
    decreases |s|
  {
    s == "" ||
    (if s[0] == '\'' then NoStray(s[1..], k, !ssq, dsq)
     else if s[0] == '"' then NoStray(s[1..], k, ssq, !dsq)
     else if (s[0] == '?' || s[0] == ':') && !ssq && !dsq then NoStray(s[1..], k + 1, ssq, dsq)
     else
       && !(!ssq && !dsq && Markers(s, ssq, dsq) > 0 && "$" + Decimal(k + 1) <= s)
       && NoStray(s[1..], k, ssq, dsq))
  }

  predicate Digits(d: string) {
    forall i :: 0 <= i < |d| ==> '0' <= d[i] <= '9'
  }

  lemma {:induction false} DecimalDigits(n: nat)
    ensures Digits(Decimal(n))
  {
    if n >= 10 {
      DecimalDigits(n / 10);
    }
  }

  lemma NumberedFirst(s: string, k: nat, ssq: bool, dsq: bool)
    requires s != ""
    ensures var c := s[0]; var out := Numbered(Read(s, ssq, dsq), k);
      if (c == '?' || c == ':') && !ssq && !dsq then
        (var p := if c == '?' then "" else s[1..1 + NameLength(s[1..])];
         && out == "$" + Decimal(k + 1) + Numbered(Read(s[1 + |p|..], ssq, dsq), k + 1)
         && Names(Read(s, ssq, dsq)) == [p] + Names(Read(s[1 + |p|..], ssq, dsq)))
      else
        (var ssq', dsq' := if c == '\'' then !ssq else ssq, if c == '"' then !dsq else dsq;
         && out == [c] + Numbered(Read(s[1..], ssq', dsq'), k)
         && Names(Read(s, ssq, dsq)) == Names(Read(s[1..], ssq', dsq')))
  {
    hide Numbered, Names, Decimal, Read;
    ReadFirst(s, ssq, dsq);
    var c := s[0];
    if (c == '?' || c == ':') && !ssq && !dsq {
      var p := if c == '?' then "" else s[1..1 + NameLength(s[1..])];
      var rest := Read(s[1 + |p|..], ssq, dsq);
      NumberedMark("", p, rest, k);
      NamesMark([], p, rest);
      Empty(Numbered(Mark("", p, rest), k), "$" + Decimal(k + 1), Numbered(rest, k + 1));
      assert [] + Names(Mark("", p, rest)) == Names(Mark("", p, rest)) && [] + [p] == [p];
    } else {
      var rest := Read(s[1..], if c == '\'' then !ssq else ssq, if c == '"' then !dsq else dsq);
      NumberedBefore("", c, rest, k);
      NamesBefore(c, rest);
      Empty(Numbered(Before(c, rest), k), [c], Numbered(rest, k));
    }
  }

  lemma Empty(a: string, b: string, c: string)
    requires "" + a == "" + b + c
    ensures a == b + c
  {
    assert "" + a == a && "" + b == b;
  }

  /** Digits at the beginning of the result come from the statement: a marker begins with '$'. */
  lemma {:induction false} DigitsFromText(d: string, t: string, k: nat, ssq: bool, dsq: bool)
    requires Digits(d)
    ensures d <= Numbered(Read(t, ssq, dsq), k) <==> d <= t
    decreases |d|
  {
    hide Numbered, Names, Decimal, Read;
    if d != "" {
      if t == "" {
        NothingRead(k, ssq, dsq);
      } else {
        NumberedFirst(t, k, ssq, dsq);
        var out := Numbered(Read(t, ssq, dsq), k);
        if (t[0] == '?' || t[0] == ':') && !ssq && !dsq {
          assert out[0] == '$' && '0' <= d[0] <= '9';
        } else {
          var ssq', dsq' := if t[0] == '\'' then !ssq else ssq, if t[0] == '"' then !dsq else dsq;
          DigitsFromText(d[1..], t[1..], k, ssq', dsq');
          PrefixStep(d, t);
          PrefixStep(d, out);
          assert out[1..] == Numbered(Read(t[1..], ssq', dsq'), k);
        }
      }
    }
  }

  lemma NothingRead(k: nat, ssq: bool, dsq: bool)
    ensures Numbered(Read("", ssq, dsq), k) == ""
  {
  }

  lemma PrefixStep(d: string, t: string)
    requires d != "" && t != ""
    ensures d <= t <==> d[0] == t[0] && d[1..] <= t[1..]
  {
    if d[0] == t[0] && d[1..] <= t[1..] {
      forall i | 0 <= i < |d| ensures d[i] == t[i] {
        if i > 0 {
          assert d[1..][i - 1] == t[1..][i - 1];
        }
      }
    }
  }

  lemma {:induction false} NameNotStray(s: string, n: nat, k: nat, ssq: bool, dsq: bool)
    requires n <= |s| && forall i :: 0 <= i < n ==> NameChar(s[i])
    ensures NoStray(s, k, ssq, dsq) <==> NoStray(s[n..], k, ssq, dsq)
  {
    hide Decimal, Markers;
    if n > 0 {
      NameNotStray(s[1..], n - 1, k, ssq, dsq);
      assert s[1..][n - 1..] == s[n..] && NameChar(s[0]);
      assert ("$" + Decimal(k + 1))[0] == '$';
    } else {
      assert s[0..] == s;
    }
  }

  lemma PutBackMark(number: string, name: string, rest: string, names: seq<string>, k: nat, ssq: bool, dsq: bool)
    requires number == "$" + Decimal(k + 1) && !ssq && !dsq
    ensures PutBack(number + rest, [name] + names, k, ssq, dsq)
        == MarkerFor(name) + PutBack(rest, names, k + 1, ssq, dsq)
  {
    hide Decimal;
    assert (number + rest)[0] == '$' && (number + rest)[|number|..] == rest && number <= number + rest;
    assert ([name] + names)[1..] == names;
  }

  /** The two results give back the statement exactly if each ':' outside quotes has a name
      and the statement has none of the numbers of its own where the next one is awaited. */
  lemma {:induction false} ResultsRestore(s: string, k: nat, ssq: bool, dsq: bool)
    ensures var q := Read(s, ssq, dsq);
      PutBack(Numbered(q, k), Names(q), k, ssq, dsq) == s <==> Named(s, ssq, dsq) && NoStray(s, k, ssq, dsq)
    decreases |s|
  {
    hide Numbered, Names, Decimal, Read, PutBack, Markers, MarkerFor, NameLength;
    if s == "" {
      NothingRead(k, ssq, dsq);
      PutBackNothing(Names(Read(s, ssq, dsq)), k, ssq, dsq);
    } else {
      var c := s[0];
      NumberedFirst(s, k, ssq, dsq);
      if (c == '?' || c == ':') && !ssq && !dsq {
        var p := if c == '?' then "" else s[1..1 + NameLength(s[1..])];
        var t := s[1 + |p|..];
        ResultsRestore(t, k + 1, ssq, dsq);
        var back := PutBack(Numbered(Read(t, ssq, dsq), k + 1), Names(Read(t, ssq, dsq)), k + 1, ssq, dsq);
        PutBackMark("$" + Decimal(k + 1), p, Numbered(Read(t, ssq, dsq), k + 1), Names(Read(t, ssq, dsq)), k, ssq, dsq);
        MarkerBack(s, p, back);
        NameSkipped(s[1..], |p|, ssq, dsq);
        NameNotStray(s[1..], |p|, k + 1, ssq, dsq);
        assert s[1..][|p|..] == t;
      } else {
        var ssq', dsq' := if c == '\'' then !ssq else ssq, if c == '"' then !dsq else dsq;
        var rest, names := Numbered(Read(s[1..], ssq', dsq'), k), Names(Read(s[1..], ssq', dsq'));
        ResultsRestore(s[1..], k, ssq', dsq');
        OneParameterEach(s, ssq, dsq);
        StrayFound(s, rest, k, ssq', dsq');
        PutBackFirst(c, rest, names, k, ssq, dsq);
        var back := PutBack(rest, names, k, ssq', dsq');
        TextBack(s, back);
      }
    }
  }

  lemma TextBack(s: string, back: string)
    requires s != ""
    ensures [s[0]] + back == s <==> back == s[1..]
  {
    assert s == [s[0]] + s[1..] && ([s[0]] + back)[1..] == back;
  }

  lemma PutBackNothing(names: seq<string>, k: nat, ssq: bool, dsq: bool)
    ensures PutBack("", names, k, ssq, dsq) == ""
  {
  }

  /** A marker of the statement is put back unless it is a ':' without a name. */
  lemma StrayFound(s: string, rest: string, k: nat, ssq: bool, dsq: bool)
    requires s != "" && rest == Numbered(Read(s[1..], ssq, dsq), k)
    ensures "$" + Decimal(k + 1) <= [s[0]] + rest <==> "$" + Decimal(k + 1) <= s
  {
    hide Numbered, Read, Decimal;
    DecimalDigits(k + 1);
    DigitsFromText(Decimal(k + 1), s[1..], k, ssq, dsq);
    var number := "$" + Decimal(k + 1);
    PrefixStep(number, s);
    PrefixStep(number, [s[0]] + rest);
    assert number[1..] == Decimal(k + 1) && ([s[0]] + rest)[1..] == rest;
  }

  /** Other text is copied, unless it is taken for the next number. */
  lemma PutBackFirst(c: char, rest: string, names: seq<string>, k: nat, ssq: bool, dsq: bool)
    ensures var ssq', dsq' := if c == '\'' then !ssq else ssq, if c == '"' then !dsq else dsq;
      var out := PutBack([c] + rest, names, k, ssq, dsq);
      if !ssq && !dsq && names != [] && "$" + Decimal(k + 1) <= [c] + rest then
        c == '$' && out != "" && (out[0] == '?' || out[0] == ':')
      else out == [c] + PutBack(rest, names, k, ssq', dsq')
  {
    hide Decimal;
    assert ([c] + rest)[1..] == rest && ("$" + Decimal(k + 1))[0] == '$';
  }

  // -------- examples --------

  /** Of two ':' without names, "::" becomes "??". */
  lemma UnnamedLost()
    ensures Restored(Read("::", false, false)) != "::"
  {
    RestoresStatement("::", false, false);
  }

  /** A statement that has "$1" itself is taken to have the marker there. */
  lemma StrayNumber()
    ensures var q := Read("$1?", false, false); PutBack(Numbered(q, 0), Names(q), 0, false, false) != "$1?"
  {
    hide Read, Numbered, Names, PutBack;
    ResultsRestore("$1?", 0, false, false);
    assert "$" + Decimal(1) == "$1";
    OneMarker();
  }

  lemma OneMarker()
    ensures Markers("$1?", false, false) == 1
  {
    assert "$1?"[1..] == "1?" && "1?"[1..] == "?" && "?"[1..] == "";
    assert Markers("?", false, false) == 1 && Markers("1?", false, false) == 1;
  }
}
