/**
  Go's `strings.Title`, the fallback every enum rendering uses for a value
  it does not know. A letter is upper-cased when the character before it is
  a word separator; the first character counts as following a space.
 */
module Text {

  /** Go's `isSeparator`: ASCII letters, digits and '_' join words, every
      other ASCII character separates them; beyond ASCII only white space
      separates (letters and digits never do, nor does anything else). */
  predicate IsSeparator(ch: char) {
    if ch <= '\U{7F}' then
      !(('0' <= ch <= '9') || ('a' <= ch <= 'z') || ('A' <= ch <= 'Z') || ch == '_')
    else
      IsUnicodeSpace(ch)
  }

  /** Go's `unicode.IsSpace` above ASCII. */
  predicate IsUnicodeSpace(ch: char) {
    ch == '\U{85}' || ch == '\U{A0}' || ch == '\U{1680}' ||
    ('\U{2000}' <= ch <= '\U{200A}') || ch == '\U{2028}' || ch == '\U{2029}' ||
    ch == '\U{202F}' || ch == '\U{205F}' || ch == '\U{3000}'
  }

  predicate IsLower(ch: char) {
    'a' <= ch <= 'z'
  }

  /** `unicode.ToTitle` on ASCII; other characters are left as they are. */
  function ToTitle(ch: char): (t: char)
    ensures !IsLower(t)
    ensures IsSeparator(t) == IsSeparator(ch)
    ensures !IsLower(ch) ==> t == ch
  {
    if IsLower(ch) then (ch as int - 32) as char else ch
  }

  /** The characters of `s` after `strings.Map` has seen `prev` just before them. */
  function TitleFrom(prev: char, s: string): (t: string)
    ensures |t| == |s|
    decreases |s|
  {
    if s == [] then []
    else [if IsSeparator(prev) then ToTitle(s[0]) else s[0]] + TitleFrom(s[0], s[1..])
  }

  /** `strings.Title(s)`. */
  function Title(s: string): string {
    TitleFrom(' ', s)
  }

  predicate StartsLower(s: string) {
    s != [] && IsLower(s[0])
  }

  /** Title-casing never starts a string with a lower-case ASCII letter. */
  lemma TitleStartsUpper(s: string)
    requires s != []
    ensures |Title(s)| == |s| && !IsLower(Title(s)[0])
  {
  }

  /** So a title-cased string is never one that starts lower-case. */
  lemma TitleNeverStartsLower(s: string)
    ensures !StartsLower(Title(s))
  {
    if s != [] {
      TitleStartsUpper(s);
    }
  }

  /** Inside a word (no separators) only the first letter can change. */
  lemma {:induction false} TitleFromWord(prev: char, s: string)
    requires !IsSeparator(prev)
    requires forall i :: 0 <= i < |s| ==> !IsSeparator(s[i])
    ensures TitleFrom(prev, s) == s
    decreases |s|
  {
    if s != [] {
      TitleFromWord(s[0], s[1..]);
    }
  }

  /** `strings.Title` of a single word upper-cases its first letter only. */
  lemma TitleOfWord(s: string)
    requires s != []
    requires forall i :: 0 <= i < |s| ==> !IsSeparator(s[i])
    ensures Title(s) == [ToTitle(s[0])] + s[1..]
  {
    TitleFromWord(s[0], s[1..]);
  }

  /** Title-casing twice is title-casing once, for any two starting
      characters that agree on being separators. */
  lemma {:induction false} TitleFromIdempotent(p: char, q: char, s: string)
    requires IsSeparator(p) == IsSeparator(q)
    ensures TitleFrom(q, TitleFrom(p, s)) == TitleFrom(p, s)
    decreases |s|
  {
    if s != [] {
      var t := TitleFrom(p, s);
      TitleFromIdempotent(s[0], t[0], s[1..]);
      assert t[1..] == TitleFrom(s[0], s[1..]);
    }
  }

  lemma TitleIdempotent(s: string)
    ensures Title(Title(s)) == Title(s)
  {
    TitleFromIdempotent(' ', ' ', s);
  }
}
