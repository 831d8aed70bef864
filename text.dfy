/** The two string operations the booking filter relies on: lower-casing
    (`String.prototype.toLowerCase`, modelled for ASCII letters only) and
    substring search (`String.prototype.includes`). */
module Text {

  predicate IsUpperChar(c: char) {
    'A' <= c <= 'Z'
  }

  predicate IsLowerChar(c: char) {
    'a' <= c <= 'z'
  }

  /** Lower-cases one ASCII letter; every other character is left alone. */
  function LowerChar(c: char): char {
    if IsUpperChar(c) then (c as int + 32) as char else c
  }

  /** Upper-cases one ASCII letter; every other character is left alone. */
  function UpperChar(c: char): char {
    if IsLowerChar(c) then (c as int - 32) as char else c
  }

  /** `s.toLowerCase()`: character by character, and no upper-case letter survives. */
  function Lower(s: string): (r: string)
    ensures |r| == |s|
    ensures forall i :: 0 <= i < |s| ==> r[i] == LowerChar(s[i])
    ensures forall i :: 0 <= i < |r| ==> !IsUpperChar(r[i])
  {
    if s == [] then [] else [LowerChar(s[0])] + Lower(s[1..])
  }

  /** `s.toUpperCase()`, used to state that changing the case of a text does
      not change what it matches. */
  function Upper(s: string): (r: string)
    ensures |r| == |s|
    ensures forall i :: 0 <= i < |s| ==> r[i] == UpperChar(s[i])
    ensures forall i :: 0 <= i < |r| ==> !IsLowerChar(r[i])
  {
    if s == [] then [] else [UpperChar(s[0])] + Upper(s[1..])
  }

  /** Lower-casing twice is lower-casing once. */
  lemma LowerIdempotent(s: string)
    ensures Lower(Lower(s)) == Lower(s)
  {
  }

  /** Upper-casing a text first does not change its lower-cased form: a
      query typed in capitals matches what the same query in small letters does. */
  lemma LowerOfUpper(s: string)
    ensures Lower(Upper(s)) == Lower(s)
  {
  }

  /** Lower-casing works piece by piece. */
  lemma LowerAppend(a: string, b: string)
    ensures Lower(a + b) == Lower(a) + Lower(b)
  {
  }

  /** `hay.includes(needle)`: the needle is a prefix of some suffix of hay. */
  predicate Includes(hay: string, needle: string)
    ensures needle == [] ==> Includes(hay, needle)
    ensures Includes(hay, needle) ==> |needle| <= |hay|
    decreases |hay|
  {
    needle <= hay || (hay != [] && Includes(hay[1..], needle))
  }

  /** The needle occurs in hay starting at position i. */
  ghost predicate OccursAt(hay: string, needle: string, i: int) {
    0 <= i && i + |needle| <= |hay| && hay[i..i + |needle|] == needle
  }

  /** The needle occurs somewhere in hay. */
  ghost predicate Occurs(hay: string, needle: string) {
    exists i :: OccursAt(hay, needle, i)
  }

  /** `includes` finds exactly the substrings: it holds iff the needle occurs
      at some offset. */
  lemma {:induction false} IncludesIffOccurs(hay: string, needle: string)
    ensures Includes(hay, needle) <==> Occurs(hay, needle)
    decreases |hay|
  {
    if Includes(hay, needle) {
      if needle <= hay {
        assert OccursAt(hay, needle, 0);
      } else {
        IncludesIffOccurs(hay[1..], needle);
        var i :| OccursAt(hay[1..], needle, i);
        assert hay[1..][i..i + |needle|] == hay[i + 1..i + 1 + |needle|];
        assert OccursAt(hay, needle, i + 1);
      }
    }
    if exists i :: OccursAt(hay, needle, i) {
      var i :| OccursAt(hay, needle, i);
      if i == 0 {
        assert needle <= hay;
      } else {
        assert hay[1..][i - 1..i - 1 + |needle|] == hay[i..i + |needle|];
        assert OccursAt(hay[1..], needle, i - 1);
        IncludesIffOccurs(hay[1..], needle);
      }
    }
  }

  /** `s.includes("")` holds for every s. */
  lemma IncludesEmpty(hay: string)
    ensures Includes(hay, "")
  {
  }

  /** A text cannot include a needle holding a character the text lacks. */
  lemma {:induction false} MissingCharExcludes(hay: string, needle: string, c: char)
    requires c in needle && c !in hay
    ensures !Includes(hay, needle)
    decreases |hay|
  {
    if hay != [] {
      MissingCharExcludes(hay[1..], needle, c);
    }
  }

  /** Lower-casing neither adds nor removes a character that is not a letter. */
  lemma LowerKeepsNonLetter(s: string, c: char)
    requires !IsUpperChar(c) && !IsLowerChar(c)
    ensures c in Lower(s) <==> c in s
  {
  }

  /** A text that ends with the needle includes it. */
  lemma {:induction false} IncludesAtEnd(prefix: string, needle: string)
    ensures Includes(prefix + needle, needle)
    decreases |prefix|
  {
    if prefix != [] {
      IncludesAtEnd(prefix[1..], needle);
      assert (prefix + needle)[1..] == prefix[1..] + needle;
    }
  }
}
