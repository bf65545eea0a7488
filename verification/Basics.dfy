/** What several of the models share. */
module Basics {

  datatype Option<+T> = None | Some(value: T)

  lemma Assoc<T>(a: seq<T>, b: seq<T>, c: seq<T>)
    ensures (a + b) + c == a + (b + c)
  {
  }

  /** `toupper` in the C locale. */
  function UpperChar(c: char): char {
    if 'a' <= c <= 'z' then (c as int - 32) as char else c
  }

  /** The same letter of the alphabet in any case, or the same character. */
  predicate SameLetter(a: char, b: char) {
    a == b || LowerOf(a, b) || LowerOf(b, a)
  }

  predicate LowerOf(a: char, b: char) {
    'a' <= a <= 'z' && 'A' <= b <= 'Z' && a as int - 'a' as int == b as int - 'A' as int
  }

  lemma UpperMeets(a: char, b: char)
    ensures UpperChar(a) == UpperChar(b) <==> SameLetter(a, b)
  {
  }

  /** All parts, one behind the other. */
  function Concat(parts: seq<string>): string {
    if parts == [] then "" else parts[0] + Concat(parts[1..])
  }

  /** One part is itself, and what comes first stands first. */
  lemma {:induction false} ConcatInOrder(a: seq<string>, b: seq<string>, s: string)
    ensures Concat([]) == "" && Concat([s]) == s && Concat(a + b) == Concat(a) + Concat(b)
  {
    assert [s][1..] == [] && s + "" == s;
    if a == [] {
      assert a + b == b && "" + Concat(b) == Concat(b);
    } else {
      ConcatInOrder(a[1..], b, s);
      assert (a + b)[0] == a[0] && (a + b)[1..] == a[1..] + b;
      Assoc(a[0], Concat(a[1..]), Concat(b));
    }
  }
}
