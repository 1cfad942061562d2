/**
 * Session identifiers (server/lib/Util.js): `createSessionId(length = 5)`
 * appends `length` characters drawn from a 62-character alphanumeric
 * alphabet. The random draw `Math.floor(Math.random() * 62)` is an input:
 * one index in [0, 62) per character.
 */
module SessionIds {

  const Upper: string := "ABCDEFGHIJKLMNOPQRSTUVWXYZ"
  const Lower: string := "abcdefghijklmnopqrstuvwxyz"
  const Digits: string := "0123456789"

  /** The `characters` string, upper case, then lower case, then digits. */
  const Alphabet: string := Upper + Lower + Digits

  /** The length `createSessionId` uses when it is given none. */
  const DefaultLength: nat := 5

  /** A character class `[A-Za-z0-9]`, as in the express route pattern. */
  predicate IsAlnum(c: char) {
    ('A' <= c <= 'Z') || ('a' <= c <= 'z') || ('0' <= c <= '9')
  }

  /** The route `/:sessionId([A-Za-z0-9]{5})` accepts exactly these strings. */
  predicate MatchesRoute(s: string) {
    |s| == 5 && forall i :: 0 <= i < |s| ==> IsAlnum(s[i])
  }

  /** A draw of `Math.floor(Math.random() * characters.length)`. */
  predicate ValidDraws(draws: seq<int>) {
    forall i :: 0 <= i < |draws| ==> 0 <= draws[i] < |Alphabet|
  }

  /** The number of loop iterations for a given `length` argument. */
  function Iterations(length: int): nat {
    if length < 0 then 0 else length
  }

  /** The identifier the loop spells out of a sequence of draws. */
  function Spell(draws: seq<int>): (s: string)
    requires ValidDraws(draws)
    ensures |s| == |draws|
    ensures forall i :: 0 <= i < |draws| ==> s[i] == Alphabet[draws[i]]
  {
    if draws == [] then [] else Spell(draws[..|draws| - 1]) + [Alphabet[draws[|draws| - 1]]]
  }

  /** Position of an alphanumeric character in the alphabet. */
  function IndexOf(c: char): (i: int)
    requires IsAlnum(c)
    ensures 0 <= i < |Alphabet| && Alphabet[i] == c
  {
    var i := if 'A' <= c <= 'Z' then c as int - 'A' as int
      else if 'a' <= c <= 'z' then 26 + (c as int - 'a' as int)
      else 52 + (c as int - '0' as int);
    AlphabetAt(i);
    i
  }

  /** Character codes of the three runs of the alphabet. */
  lemma UpperCodes(i: int)
    requires 0 <= i < |Upper|
    ensures Upper[i] as int == 'A' as int + i
  {
  }

  lemma LowerCodes(i: int)
    requires 0 <= i < |Lower|
    ensures Lower[i] as int == 'a' as int + i
  {
  }

  lemma DigitCodes(i: int)
    requires 0 <= i < |Digits|
    ensures Digits[i] as int == '0' as int + i
  {
  }

  /** The character at each position, with its code. */
  lemma AlphabetAt(i: int)
    requires 0 <= i < |Alphabet|
    ensures i < 26 ==> Alphabet[i] as int == 'A' as int + i
    ensures 26 <= i < 52 ==> Alphabet[i] as int == 'a' as int + (i - 26)
    ensures 52 <= i ==> Alphabet[i] as int == '0' as int + (i - 52)
  {
    if i < 26 {
      assert Alphabet[i] == Upper[i];
      UpperCodes(i);
    } else if i < 52 {
      assert Alphabet[i] == Lower[i - 26];
      LowerCodes(i - 26);
    } else {
      assert Alphabet[i] == Digits[i - 52];
      DigitCodes(i - 52);
    }
  }

  /** The alphabet has no repeated character, so a draw is recovered from its character. */
  lemma IndexOfAlphabet(i: int)
    requires 0 <= i < |Alphabet|
    ensures IsAlnum(Alphabet[i]) && IndexOf(Alphabet[i]) == i
  {
    AlphabetAt(i);
  }

  /** Every character of the alphabet is alphanumeric, and every alphanumeric character is in it. */
  lemma AlphabetIsAlnum(c: char)
    ensures c in Alphabet <==> IsAlnum(c)
  {
    if IsAlnum(c) {
      var i := IndexOf(c);
      assert Alphabet[i] == c;
    }
    if c in Alphabet {
      var i :| 0 <= i < |Alphabet| && Alphabet[i] == c;
      IndexOfAlphabet(i);
    }
  }

  /** Reading an identifier back into draws. */
  function Unspell(s: string): (draws: seq<int>)
    requires forall i :: 0 <= i < |s| ==> IsAlnum(s[i])
    ensures |draws| == |s| && ValidDraws(draws)
  {
    seq(|s|, i requires 0 <= i < |s| => IndexOf(s[i]))
  }

  /** Distinct draw sequences give distinct identifiers. */
  lemma SpellRoundTrip(draws: seq<int>)
    requires ValidDraws(draws)
    ensures forall i :: 0 <= i < |draws| ==> IsAlnum(Spell(draws)[i])
    ensures Unspell(Spell(draws)) == draws
  {
    var s := Spell(draws);
    forall i | 0 <= i < |draws|
      ensures IsAlnum(s[i]) && IndexOf(s[i]) == draws[i]
    {
      IndexOfAlphabet(draws[i]);
    }
  }

  /** Every string the route accepts is the identifier of some draws of the default length. */
  lemma RouteIdsAreSpelled(s: string)
    requires MatchesRoute(s)
    ensures ValidDraws(Unspell(s)) && |Unspell(s)| == DefaultLength && Spell(Unspell(s)) == s
  {
  }

  /** With the default length, every generated identifier matches the route pattern. */
  lemma DefaultIdMatchesRoute(draws: seq<int>)
    requires ValidDraws(draws) && |draws| == DefaultLength
    ensures MatchesRoute(Spell(draws))
  {
    forall i | 0 <= i < |draws| ensures IsAlnum(Spell(draws)[i]) {
      IndexOfAlphabet(draws[i]);
    }
  }

  /** `Util.createSessionId(length = 5)`: one character per draw, appended in order. */
  method CreateSessionId(draws: seq<int>, length: int := DefaultLength) returns (result: string)
    requires |draws| == Iterations(length) && ValidDraws(draws)
    ensures |result| == Iterations(length)
    ensures result == Spell(draws)
    ensures forall i :: 0 <= i < |result| ==> result[i] in Alphabet
  {
    result := "";
    var i := 0;
    while i < length
      invariant 0 <= i <= Iterations(length)
      invariant result == Spell(draws[..i])
    {
      assert draws[..i + 1][..i] == draws[..i];
      result := result + [Alphabet[draws[i]]];
      i := i + 1;
    }
    assert draws[..i] == draws;
  }
}
