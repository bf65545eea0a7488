/** The search of a word in a text with a table of shifts, looking at the word's last
    byte first. */
module BoyerMoore {

  newtype Byte = x: int | 0 <= x < 256

  /** A byte of the word as the program compares it: as a `char`, which is signed on some
      platforms and unsigned on others. */
  function AsChar(b: Byte, signed: bool): int {
    if signed && b >= 128 then b as int - 256 else b as int
  }

  /** Where `char` is signed, only words of 7-bit bytes can be found. */
  predicate Findable(word: seq<Byte>, signed: bool) {
    signed ==> forall i :: 0 <= i < |word| ==> word[i] < 128
  }

  /** The word stands in the text at `k`. */
  predicate Occurs(text: seq<Byte>, word: seq<Byte>, k: nat) {
    k + |word| <= |text| && forall i :: 0 <= i < |word| ==> text[k + i] == word[i]
  }

  /** The place of the first occurrence, or the end of the text if there is none. */
  ghost predicate IsFirst(text: seq<Byte>, word: seq<Byte>, r: nat) {
    && (forall k :: 0 <= k < r ==> !Occurs(text, word, k))
    && (Occurs(text, word, r) || (r == |text| && forall k: nat :: !Occurs(text, word, k)))
  }

  /** The last place of a byte in a word, or -1. */
  function Last(word: seq<Byte>, c: Byte): (i: int)
    ensures -1 <= i < |word| && (i >= 0 ==> word[i] == c)
    ensures forall k :: i < k < |word| ==> word[k] != c
  {
    if word == [] then -1
    else if word[|word| - 1] == c then |word| - 1
    else Last(word[..|word| - 1], c)
  }

  function ShiftOf(word: seq<Byte>, c: Byte): (d: nat)
    ensures d <= |word|
  {
    |word| - 1 - Last(word, c)
  }

  /** From `t` on, the word agrees with the window of the text that starts at `w`. */
  predicate Agrees(text: seq<Byte>, word: seq<Byte>, signed: bool, w: nat, t: int)
    requires w + |word| <= |text|
  {
    -1 <= t < |word| && forall k :: t < k < |word| ==> text[w + k] as int == AsChar(word[k], signed)
  }

  predicate NoneBefore(text: seq<Byte>, word: seq<Byte>, w: nat) {
    forall k :: 0 <= k < w ==> !Occurs(text, word, k)
  }

  /** No start of a window that a shift skips can be an occurrence. */
  lemma SkipsNone(text: seq<Byte>, word: seq<Byte>, signed: bool, w: nat, t: nat)
    requires Findable(word, signed) && w + |word| <= |text| && t < |word| && NoneBefore(text, word, w)
    requires text[w + t] as int != AsChar(word[t], signed)
    ensures var d := ShiftOf(word, text[w + t]);
      NoneBefore(text, word, w + t + (if |word| - t > d then |word| - t else d) - (|word| - 1))
  {
    var c := text[w + t];
    var d := ShiftOf(word, c);
    var next := w + t + (if |word| - t > d then |word| - t else d) - (|word| - 1);
    forall k | 0 <= k < next ensures !Occurs(text, word, k) {
      if k >= w {
        var i := t - (k - w);
        assert k == w || Last(word, c) < i < t;
        assert word[i] != c && text[k + i] == c;
      }
    }
  }

  lemma NotFound(text: seq<Byte>, word: seq<Byte>, signed: bool, w: nat)
    requires Findable(word, signed) ==> NoneBefore(text, word, w)
    requires w + |word| > |text|
    ensures Findable(word, signed) ==> IsFirst(text, word, |text|)
  {
  }

  lemma EmptyWord(text: seq<Byte>, signed: bool)
    ensures Findable([], signed) && IsFirst(text, [], 0)
  {
    assert Occurs(text, [], 0);
  }

  /** Where all of the word has been compared, it could be found and stands in the text. */
  lemma WholeWord(text: seq<Byte>, word: seq<Byte>, signed: bool, w: nat)
    requires w + |word| <= |text| && Agrees(text, word, signed, w, -1)
    ensures Findable(word, signed) && Occurs(text, word, w)
  {
    forall i | 0 <= i < |word| ensures (signed ==> word[i] < 128) && text[w + i] == word[i] {
      assert text[w + i] as int == AsChar(word[i], signed);
    }
  }

  /** Fills the table of shifts. */
  method Shifts(word: seq<Byte>) returns (shift: array<nat>)
    ensures shift.Length == 256 && fresh(shift)
    ensures forall c: Byte :: shift[c as int] == ShiftOf(word, c)
  {
    shift := new nat[256](_ => |word|);
    for i := 0 to |word|
      invariant forall c: Byte :: shift[c as int] == |word| - 1 - Last(word[..i], c)
    {
      assert word[..i + 1][..i] == word[..i];
      shift[word[i] as int] := |word| - i - 1;
    }
    assert word[..|word|] == word;
  }

  /** The first occurrence, or the end; but where `char` is signed, a word with a byte above
      127 is never found. */
  method FindBm(text: seq<Byte>, word: seq<Byte>, signed: bool) returns (r: nat)
    ensures r <= |text|
    ensures Findable(word, signed) ==> IsFirst(text, word, r)
    ensures !Findable(word, signed) ==> r == |text|
  {
    hide Findable, AsChar, ShiftOf, Last, Occurs;
    var bLen := |word|;
    if bLen == 0 {
      EmptyWord(text, signed);
    }
    var shift := Shifts(word);
    var i, t := bLen - 1, bLen - 1;
    while t >= 0
      invariant -1 <= t < bLen && i >= t && (bLen == 0 ==> i == -1)
      invariant i - t + bLen <= |text| ==> Agrees(text, word, signed, i - t, t)
      invariant t < bLen - 1 ==> i - t + bLen <= |text|
      invariant Findable(word, signed) ==> NoneBefore(text, word, i - t)
      invariant forall c: Byte :: shift[c as int] == ShiftOf(word, c)
      decreases |text| + bLen - (i - t), t
    {
      if i >= |text| {
        NotFound(text, word, signed, i - t);
        return |text|;
      }
      var c := text[i];
      ghost var w0, t0 := i - t, t;
      while c as int != AsChar(word[t], signed)
        invariant 0 <= t < bLen && t <= i < |text| && c == text[i] && i - t + bLen <= |text|
        invariant i - t > w0 || (i - t == w0 && t == t0)
        invariant Agrees(text, word, signed, i - t, t)
        invariant Findable(word, signed) ==> NoneBefore(text, word, i - t)
        invariant forall c: Byte :: shift[c as int] == ShiftOf(word, c)
        decreases |text| - (i - t)
      {
        if Findable(word, signed) {
          SkipsNone(text, word, signed, i - t, t);
        }
        i := i + if bLen - t > shift[c as int] then bLen - t else shift[c as int];
        if i >= |text| {
          NotFound(text, word, signed, i - (bLen - 1));
          return |text|;
        }
        t := bLen - 1;
        c := text[i];
      }
      i, t := i - 1, t - 1;
    }
    r := i + 1;
    if bLen > 0 {
      WholeWord(text, word, signed, r);
    }
  }

  /** What is returned is the first occurrence, or the end, exactly if `char` is unsigned or
      the word has 7-bit bytes only or does not occur. */
  method Find(text: seq<Byte>, word: seq<Byte>, signed: bool) returns (r: nat)
    ensures IsFirst(text, word, r) <==> Findable(word, signed) || forall k: nat :: !Occurs(text, word, k)
  {
    r := FindBm(text, word, signed);
    if !Findable(word, signed) {
      assert word != [];
    }
  }

  /** The byte 200 stands in front of the text, and the end of the text is the answer. */
  lemma HighByteMissed()
    ensures Occurs([200], [200], 0) && !Findable([200], true) && !IsFirst([200], [200], 1)
  {
    var word: seq<Byte> := [200];
    assert word[0] == 200 && Occurs(word, word, 0);
  }
}
