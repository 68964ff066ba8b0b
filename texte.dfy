/** The JavaScript string operations the core relies on: `trim() === ''`,
    `toLowerCase()`, `includes()` and `split(' ')`. Strings are `seq<char>`. */
module Texte {
  import opened Listes

  /** The characters `String.prototype.trim` removes (ECMAScript WhiteSpace
      and LineTerminator). */
  predicate EstEspaceBlanc(c: char)
  {
    c == '\t' || c == '\n' || c == '\U{000B}' || c == '\U{000C}' || c == '\r' || c == ' '
    || c == '\U{00A0}' || c == '\U{1680}' || ('\U{2000}' <= c <= '\U{200A}')
    || c == '\U{2028}' || c == '\U{2029}' || c == '\U{202F}' || c == '\U{205F}'
    || c == '\U{3000}' || c == '\U{FEFF}'
  }

  /** `s.trim() === ''`. */
  predicate EstBlanc(s: string)
  {
    forall i :: 0 <= i < |s| ==> EstEspaceBlanc(s[i])
  }

  /** Lower-casing of one character: ASCII and the Latin letters used in French. */
  function Minuscule(c: char): (m: char)
    ensures 'A' <= c <= 'Z' ==> 'a' <= m <= 'z'
    ensures 'a' <= c <= 'z' ==> m == c
  {
    if 'A' <= c <= 'Z' then (c as int + 32) as char
    else if '\U{00C0}' <= c <= '\U{00DE}' && c != '\U{00D7}' then (c as int + 32) as char
    else if c == '\U{0152}' then '\U{0153}'
    else if c == '\U{0178}' then '\U{00FF}'
    else c
  }

  /** `s.toLowerCase()`. */
  function EnMinuscules(s: string): (r: string)
    ensures |r| == |s|
    ensures forall i :: 0 <= i < |s| ==> r[i] == Minuscule(s[i])
  {
    if s == [] then [] else [Minuscule(s[0])] + EnMinuscules(s[1..])
  }

  /** `s.includes(t)`: `t` occurs in `s` at some position. */
  predicate Contient(s: string, t: string)
  {
    exists i :: 0 <= i <= |s| - |t| && t <= s[i..]
  }

  lemma ContientVide(s: string)
    ensures Contient(s, "")
  {
    assert "" <= s[0..];
  }

  /** A prefix of an occurring string occurs too. */
  lemma ContientPrefixe(s: string, t: string, u: string)
    requires Contient(s, t) && u <= t
    ensures Contient(s, u)
  {
    var i :| 0 <= i <= |s| - |t| && t <= s[i..];
    assert u <= s[i..];
  }

  /** Lower-casing twice is lower-casing once. */
  lemma MinusculesIdempotent(s: string)
    ensures EnMinuscules(EnMinuscules(s)) == EnMinuscules(s)
  {
  }

  /** `s.split(' ')`: the pieces between single spaces, empty pieces kept. */
  function Decouper(s: string): (r: seq<string>)
    ensures |r| >= 1
    ensures forall k :: 0 <= k < |r| ==> ' ' !in r[k]
  {
    if s == [] then [""]
    else if s[0] == ' ' then [""] + Decouper(s[1..])
    else
      var reste := Decouper(s[1..]);
      [[s[0]] + reste[0]] + reste[1..]
  }

  /** `s.split(' ').filter(Boolean)`: the search terms. */
  function Mots(s: string): (r: seq<string>)
    ensures forall k :: 0 <= k < |r| ==> r[k] != "" && ' ' !in r[k]
  {
    Filtrer(Decouper(s), (w: string) => w != "")
  }

  /** Every non-space character of `s` lies in some search term, so a string
      that is not only spaces yields at least one term. */
  lemma {:induction false} MotsNonVides(s: string, i: nat)
    requires i < |s| && s[i] != ' '
    ensures Mots(s) != []
  {
    var d := Decouper(s);
    if s[0] == ' ' {
      MotsNonVides(s[1..], i - 1);
      assert d == [""] + Decouper(s[1..]);
      FiltrerConcat([""], Decouper(s[1..]), (w: string) => w != "");
    } else {
      assert d[0] != "";
      assert d[0] in Mots(s);
    }
  }

  /** A string made only of spaces yields no term. */
  lemma {:induction false} MotsEspaces(s: string)
    requires forall i :: 0 <= i < |s| ==> s[i] == ' '
    ensures Mots(s) == []
  {
    var d := Decouper(s);
    if s != [] {
      MotsEspaces(s[1..]);
      assert d == [""] + Decouper(s[1..]);
      FiltrerConcat([""], Decouper(s[1..]), (w: string) => w != "");
    }
  }
}
