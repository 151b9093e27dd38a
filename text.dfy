/**
 * Case-insensitive text comparison as the catalog's name lookup does it:
 * letters A-Z and a-z compare equal, every other character compares as
 * itself.
 */
module Text {

  function Lower(c: char): (r: char)
  {
    if 'A' <= c <= 'Z' then (c as int + ('a' as int - 'A' as int)) as char else c
  }

  function LowerAll(s: string): (r: string)
    ensures |r| == |s|
    ensures forall i :: 0 <= i < |s| ==> r[i] == Lower(s[i])
  {
    if s == [] then [] else [Lower(s[0])] + LowerAll(s[1..])
  }

  /** `text` begins with `prefix`, ignoring letter case (Django's istartswith). */
  predicate IStartsWith(text: string, prefix: string)
  {
    |prefix| <= |text| && forall i :: 0 <= i < |prefix| ==> Lower(text[i]) == Lower(prefix[i])
  }

  /** A case-blind prefix match is an ordinary prefix match after lower-casing both sides. */
  lemma IStartsWithIsLoweredPrefix(text: string, prefix: string)
    ensures IStartsWith(text, prefix) <==> LowerAll(prefix) <= LowerAll(text)
  {

  }

  /** The letter case of the typed prefix does not change the outcome. */
  lemma IStartsWithIgnoresPrefixCase(text: string, prefix: string)
    ensures IStartsWith(text, prefix) <==> IStartsWith(text, LowerAll(prefix))
  {

  }

  /** The example of a name filter: "Bo" selects a product named "bottle". */
  lemma BoMatchesBottle()
    ensures IStartsWith("bottle", "Bo")
    ensures !IStartsWith("bottle", "Bx")
  {
    assert Lower('B') == 'b';
    assert "bottle"[1] == 'o' && "Bx"[1] == 'x';
    assert Lower("bottle"[1]) != Lower("Bx"[1]);
  }
}
