/**
 * The few JavaScript string built-ins the storefront relies on, restricted to
 * ASCII letters for case mapping: `toLowerCase`, `toUpperCase`, `includes`,
 * `split`, `join`, and a code-point lexicographic order standing in for
 * `localeCompare` and the default `sort`.
 */
module Text {

  function LowerChar(c: char): (d: char)
    ensures 'A' <= c <= 'Z' ==> d as int == c as int + 32
    ensures !('A' <= c <= 'Z') ==> d == c
  {
    if 'A' <= c <= 'Z' then (c as int + 32) as char else c
  }

  function UpperChar(c: char): (d: char)
    ensures 'a' <= c <= 'z' ==> d as int == c as int - 32
    ensures !('a' <= c <= 'z') ==> d == c
  {
    if 'a' <= c <= 'z' then (c as int - 32) as char else c
  }

  /** `s.toLowerCase()` on ASCII letters. */
  function Lower(s: string): (r: string)
    ensures |r| == |s|
    ensures forall i :: 0 <= i < |s| ==> r[i] == LowerChar(s[i])
  {
    seq(|s|, i requires 0 <= i < |s| => LowerChar(s[i]))
  }

  /** `s.toUpperCase()` on ASCII letters. */
  function Upper(s: string): (r: string)
    ensures |r| == |s|
    ensures forall i :: 0 <= i < |s| ==> r[i] == UpperChar(s[i])
  {
    seq(|s|, i requires 0 <= i < |s| => UpperChar(s[i]))
  }

  /** Upper-casing forgets how a letter was typed: both cases map to the same result. */
  lemma UpperOfLower(s: string)
    ensures Upper(Lower(s)) == Upper(s)
  {
    forall i | 0 <= i < |s|
      ensures Upper(Lower(s))[i] == Upper(s)[i]
    {
      var c := s[i];
      if 'A' <= c <= 'Z' {
        assert LowerChar(c) as int == c as int + 32;
      }
    }
  }

  /** `s.includes(t)`: `t` occurs in `s` as a contiguous block. */
  predicate Contains(s: string, t: string)
  {
    t <= s || (s != [] && Contains(s[1..], t))
  }

  /** Every string includes the empty string. */
  lemma ContainsEmpty(s: string)
    ensures Contains(s, "")
  {
  }

  /**
   * Lexicographic order on code points: the order of JavaScript's default
   * `Array.prototype.sort` (and the model's stand-in for `localeCompare`).
   */
  predicate StrLe(a: string, b: string)
  {
    if a == [] then true
    else if b == [] then false
    else if a[0] != b[0] then a[0] < b[0]
    else StrLe(a[1..], b[1..])
  }

  lemma {:induction false} StrLeTotal(a: string, b: string)
    ensures StrLe(a, b) || StrLe(b, a)
  {
    if a != [] && b != [] && a[0] == b[0] {
      StrLeTotal(a[1..], b[1..]);
    }
  }

  lemma {:induction false} StrLeTransitive(a: string, b: string, c: string)
    requires StrLe(a, b) && StrLe(b, c)
    ensures StrLe(a, c)
  {
    if a != [] && b != [] && c != [] && a[0] == b[0] && b[0] == c[0] {
      StrLeTransitive(a[1..], b[1..], c[1..]);
    }
  }

  lemma {:induction false} StrLeAntisymmetric(a: string, b: string)
    requires StrLe(a, b) && StrLe(b, a)
    ensures a == b
  {
    if a != [] && b != [] {
      StrLeAntisymmetric(a[1..], b[1..]);
      assert a == [a[0]] + a[1..];
      assert b == [b[0]] + b[1..];
    }
  }

  /**
   * `s.split([sep])`: the pieces between separators; always at least one piece,
   * and an empty string splits into one empty piece.
   */
  function Split(s: string, sep: char): (r: seq<string>)
    ensures |r| >= 1
    ensures forall k :: 0 <= k < |r| ==> sep !in r[k]
  {
    if s == [] then [[]]
    else
      var rest := Split(s[1..], sep);
      if s[0] == sep then [[]] + rest
      else [[s[0]] + rest[0]] + rest[1..]
  }

  /** `words.join([sep])`. */
  function Join(words: seq<string>, sep: char): string
  {
    if |words| == 0 then []
    else if |words| == 1 then words[0]
    else words[0] + [sep] + Join(words[1..], sep)
  }

  /** A string without the separator is a single piece. */
  lemma {:induction false} SplitWord(w: string, sep: char)
    requires sep !in w
    ensures Split(w, sep) == [w]
  {
    if w != [] {
      SplitWord(w[1..], sep);
      assert [w[0]] + w[1..] == w;
    }
  }

  /** A separator-free word followed by the separator splits off as the first piece. */
  lemma {:induction false} SplitAfterWord(w: string, t: string, sep: char)
    requires sep !in w
    ensures Split(w + [sep] + t, sep) == [w] + Split(t, sep)
  {
    var s := w + [sep] + t;
    if w == [] {
      assert s[1..] == t;
    } else {
      assert s[1..] == w[1..] + [sep] + t;
      SplitAfterWord(w[1..], t, sep);
      assert [s[0]] + w[1..] == w;
    }
  }

  /** Joining separator-free words and splitting again gives back the words. */
  lemma {:induction false} SplitJoin(words: seq<string>, sep: char)
    requires words != []
    requires forall k :: 0 <= k < |words| ==> sep !in words[k]
    ensures Split(Join(words, sep), sep) == words
  {
    if |words| == 1 {
      SplitWord(words[0], sep);
    } else {
      SplitJoin(words[1..], sep);
      SplitAfterWord(words[0], Join(words[1..], sep), sep);
      assert [words[0]] + words[1..] == words;
    }
  }

  /** Prepending a character to the first word prepends it to the joined string. */
  lemma JoinConsFirst(c: char, w: string, ws: seq<string>, sep: char)
    ensures Join([[c] + w] + ws, sep) == [c] + Join([w] + ws, sep)
  {
    if |ws| > 0 {
      assert ([[c] + w] + ws)[1..] == ws;
      assert ([w] + ws)[1..] == ws;
    }
  }
}
