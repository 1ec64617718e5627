/** Trimming and the case-insensitive keys of names. */
module Texts {
  /** White space as Unicode defines it. */
  predicate IsSpace(c: char) {
    '\t' <= c <= '\r' || c == ' ' || c == '\U{85}' || c == '\U{A0}' || c == '\U{1680}' || '\U{2000}' <= c <= '\U{200A}'
    || c == '\U{2028}' || c == '\U{2029}' || c == '\U{202F}' || c == '\U{205F}' || c == '\U{3000}'
  }

  function TrimLeft(s: string): string { if s != [] && IsSpace(s[0]) then TrimLeft(s[1..]) else s }

  function TrimRight(s: string): string { if s != [] && IsSpace(s[|s| - 1]) then TrimRight(s[..|s| - 1]) else s }

  function TrimSpace(s: string): string { TrimRight(TrimLeft(s)) }

  /** Lower case of the ASCII letters, and of the two other letters whose lower case is an ASCII letter. */
  function LowerChar(c: char): char {
    if 'A' <= c <= 'Z' then c - 'A' + 'a' else if c == '\U{130}' then 'i' else if c == '\U{212A}' then 'k' else c
  }

  function Lower(s: string): string { seq(|s|, i requires 0 <= i < |s| => LowerChar(s[i])) }

  /** The case-insensitive natural key of a named entry. */
  function NameKey(name: string): string { Lower(TrimSpace(name)) }

  predicate HasPrefix(s: string, prefix: string) { prefix <= s }

  predicate Contains(s: string, part: string) { exists i :: 0 <= i <= |s| && HasPrefix(s[i..], part) }

  predicate Without(s: string, c: char) { forall i :: 0 <= i < |s| ==> s[i] != c }

  lemma {:induction false} TrimLeftWithout(s: string, c: char)
    requires Without(s, c)
    ensures Without(TrimLeft(s), c)
  {
    if s != [] && IsSpace(s[0]) {
      TrimLeftWithout(s[1..], c);
    }
  }

  lemma {:induction false} TrimRightWithout(s: string, c: char)
    requires Without(s, c)
    ensures Without(TrimRight(s), c)
  {
    if s != [] && IsSpace(s[|s| - 1]) {
      TrimRightWithout(s[..|s| - 1], c);
    }
  }

  lemma KeyWithoutNul(name: string)
    requires Without(name, '\0')
    ensures Without(NameKey(name), '\0')
  {
    TrimLeftWithout(name, '\0');
    TrimRightWithout(TrimLeft(name), '\0');
  }

  /* ---------- Keys ---------- */

  predicate SameLetter(c: char, d: char) { c == d || ('A' <= c <= 'Z' && d == c - 'A' + 'a') }

  lemma LowerKeepsSpaces(c: char)
    ensures IsSpace(LowerChar(c)) <==> IsSpace(c)
  {
  }

  lemma {:induction false} TrimLeftFollows(s: string, t: string)
    requires |s| == |t| && forall i :: 0 <= i < |s| ==> LowerChar(s[i]) == LowerChar(t[i])
    ensures |TrimLeft(s)| == |TrimLeft(t)|
    ensures forall i :: 0 <= i < |TrimLeft(s)| ==> LowerChar(TrimLeft(s)[i]) == LowerChar(TrimLeft(t)[i])
  {
    hide LowerChar, IsSpace;
    if s != [] {
      LowerKeepsSpaces(s[0]);
      LowerKeepsSpaces(t[0]);
      if IsSpace(s[0]) {
        TrimLeftFollows(s[1..], t[1..]);
      }
    }
  }

  lemma {:induction false} TrimRightFollows(s: string, t: string)
    requires |s| == |t| && forall i :: 0 <= i < |s| ==> LowerChar(s[i]) == LowerChar(t[i])
    ensures |TrimRight(s)| == |TrimRight(t)|
    ensures forall i :: 0 <= i < |TrimRight(s)| ==> LowerChar(TrimRight(s)[i]) == LowerChar(TrimRight(t)[i])
  {
    hide LowerChar, IsSpace;
    if s != [] {
      var last := |s| - 1;
      LowerKeepsSpaces(s[last]);
      LowerKeepsSpaces(t[last]);
      if IsSpace(s[last]) {
        TrimRightFollows(s[..last], t[..last]);
      }
    }
  }

  /** Names that differ only in the case of ASCII letters have one key. */
  lemma KeyIgnoresCase(s: string, t: string)
    requires |s| == |t| && forall i :: 0 <= i < |s| ==> SameLetter(s[i], t[i])
    ensures NameKey(s) == NameKey(t)
  {
    forall i | 0 <= i < |s| ensures LowerChar(s[i]) == LowerChar(t[i]) {
    }
    TrimLeftFollows(s, t);
    TrimRightFollows(TrimLeft(s), TrimLeft(t));
    hide TrimLeft, TrimRight;
    assert Lower(TrimSpace(s)) == Lower(TrimSpace(t));
  }

  /** White space around a name does not matter. */
  lemma KeyIgnoresSpace(s: string, c: char)
    requires c == ' ' || c == '\t' || c == '\n'
    ensures NameKey([c] + s) == NameKey(s)
    ensures TrimLeft(s) != [] ==> NameKey(s + [c]) == NameKey(s)
  {
    assert IsSpace(c);
    assert ([c] + s)[1..] == s && TrimLeft([c] + s) == TrimLeft(s);
    if TrimLeft(s) != [] {
      var trimmed := TrimLeft(s);
      TrimLeftAppended(s, c);
      hide TrimLeft, Lower, IsSpace;
      assert (trimmed + [c])[..|trimmed|] == trimmed;
      assert TrimRight(trimmed + [c]) == TrimRight(trimmed);
    }
  }

  /** A key has no white space around it. */
  lemma KeysAreTrimmed(s: string)
    ensures var key := NameKey(s); key != [] ==> !IsSpace(key[0]) && !IsSpace(key[|key| - 1])
  {
    hide TrimLeft, TrimRight, IsSpace, LowerChar;
    TrimmedLeft(s);
    TrimmedRight(TrimLeft(s));
    var trimmed := TrimSpace(s);
    if trimmed != [] {
      LowerKeepsSpaces(trimmed[0]);
      LowerKeepsSpaces(trimmed[|trimmed| - 1]);
    }
  }

  lemma {:induction false} TrimLeftAppended(s: string, c: char)
    requires TrimLeft(s) != []
    ensures TrimLeft(s + [c]) == TrimLeft(s) + [c]
  {
    hide IsSpace;
    if IsSpace(s[0]) {
      TrimLeftAppended(s[1..], c);
      assert (s + [c])[1..] == s[1..] + [c];
    }
  }

  lemma {:induction false} TrimmedLeft(s: string)
    ensures TrimLeft(s) != [] ==> !IsSpace(TrimLeft(s)[0])
  {
    hide IsSpace;
    if s != [] && IsSpace(s[0]) {
      TrimmedLeft(s[1..]);
    }
  }

  lemma {:induction false} TrimmedRight(s: string)
    ensures TrimRight(s) <= s && (TrimRight(s) != [] ==> !IsSpace(TrimRight(s)[|TrimRight(s)| - 1]))
  {
    hide IsSpace;
    if s != [] && IsSpace(s[|s| - 1]) {
      TrimmedRight(s[..|s| - 1]);
    }
  }
}
