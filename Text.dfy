/**
 * The two string operations the disaster-type classifier relies on:
 * `String.prototype.toLowerCase`, restricted to ASCII letters, and
 * `String.prototype.includes`.
 */
module Text {

  predicate IsUpper(c: char) {
    'A' <= c <= 'Z'
  }

  function LowerChar(c: char): char {
    if IsUpper(c) then (c as int - 'A' as int + 'a' as int) as char else c
  }

  /** `s.toLowerCase()` for ASCII: every upper-case letter is replaced by its lower-case form. */
  function Lower(s: string): (r: string)
    ensures |r| == |s|
    ensures forall i :: 0 <= i < |s| ==> r[i] == LowerChar(s[i])
    ensures forall i :: 0 <= i < |r| ==> !IsUpper(r[i])
  {
    if s == [] then [] else [LowerChar(s[0])] + Lower(s[1..])
  }

  /** Lower-casing twice is lower-casing once. */
  lemma {:induction false} LowerIdempotent(s: string)
    ensures Lower(Lower(s)) == Lower(s)
  {
    if s != [] {
      LowerIdempotent(s[1..]);
      assert Lower(s)[1..] == Lower(s[1..]);
    }
  }

  predicate StartsWith(text: string, prefix: string) {
    |prefix| <= |text| && text[..|prefix|] == prefix
  }

  /** `text.includes(word)`: `word` occurs in `text` at some position. */
  predicate Contains(text: string, word: string)
    decreases |text|
  {
    StartsWith(text, word) || (|text| > 0 && Contains(text[1..], word))
  }

  /** An occurrence at position `i` is found by `Contains`. */
  lemma {:induction false} ContainsAt(text: string, word: string, i: nat)
    requires i + |word| <= |text|
    requires text[i..i + |word|] == word
    ensures Contains(text, word)
    decreases i
  {
    if i > 0 {
      assert text[1..][i - 1..i - 1 + |word|] == word;
      ContainsAt(text[1..], word, i - 1);
    }
  }

  /** Conversely, whatever `Contains` finds is an occurrence at some position. */
  lemma {:induction false} ContainsWitness(text: string, word: string) returns (i: nat)
    requires Contains(text, word)
    ensures i + |word| <= |text| && text[i..i + |word|] == word
    decreases |text|
  {
    if StartsWith(text, word) {
      i := 0;
    } else {
      var j := ContainsWitness(text[1..], word);
      assert text[1..][j..j + |word|] == text[j + 1..j + 1 + |word|];
      i := j + 1;
    }
  }
}
