/**
  Case-insensitive comparison of `FString` keys. A `TMap` keyed by `FString`
  hashes and compares its keys ignoring case, with each character folded by
  `TChar::ToUpper`, which maps the ASCII letters 'a'..'z' to upper case and
  leaves every other character as it is. `Fold` gives the canonical key of a
  URI; `EqualsIgnoreCase` is the comparison stated character by character.
 */
module CaseFold {
  predicate IsLower(c: char) {
    'a' <= c <= 'z'
  }

  function ToUpper(c: char): (u: char)
    ensures !IsLower(u)
  {
    if IsLower(c) then (c as int - 32) as char else c
  }

  /** Two characters that `TChar::ToUpper` does not tell apart. */
  predicate SameIgnoringCase(x: char, y: char) {
    x == y || (IsLower(x) && y as int == x as int - 32) || (IsLower(y) && x as int == y as int - 32)
  }

  /** `FString` equality ignoring case. */
  predicate EqualsIgnoreCase(a: string, b: string) {
    |a| == |b| && forall i :: 0 <= i < |a| ==> SameIgnoringCase(a[i], b[i])
  }

  /** Every character upper-cased: the key under which the map files a URI. */
  function Fold(s: string): (r: string)
    ensures |r| == |s|
    ensures forall i :: 0 <= i < |s| ==> r[i] == ToUpper(s[i])
    decreases |s|
  {
    if s == [] then [] else [ToUpper(s[0])] + Fold(s[1..])
  }

  /** Folding a folded key changes nothing. */
  lemma FoldIdempotent(s: string)
    ensures Fold(Fold(s)) == Fold(s)
  {
    var f := Fold(s);
    assert forall i :: 0 <= i < |f| ==> Fold(f)[i] == f[i];
  }

  /** Two URIs share a folded key exactly when they are equal ignoring case. */
  lemma FoldEqualIff(a: string, b: string)
    ensures Fold(a) == Fold(b) <==> EqualsIgnoreCase(a, b)
  {
    if Fold(a) == Fold(b) {
      forall i | 0 <= i < |a| ensures SameIgnoringCase(a[i], b[i]) {
        assert ToUpper(a[i]) == Fold(a)[i] == Fold(b)[i] == ToUpper(b[i]);
      }
    }
    if EqualsIgnoreCase(a, b) {
      assert forall i :: 0 <= i < |a| ==> Fold(a)[i] == Fold(b)[i];
    }
  }
}
