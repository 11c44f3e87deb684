/** Text primitives shared by the three analyzers: lower-casing, the
    capital test, stripping, character counts and the substring test,
    restricted to ASCII, plus the "lexicon entries found in a text" filter
    that every keyword table of the services is queried with. */
module Text {

  predicate IsUpper(c: char) {
    'A' <= c <= 'Z'
  }

  predicate IsDigit(c: char) {
    '0' <= c <= '9'
  }

  /** The whitespace characters stripping removes, ASCII part. */
  predicate IsSpace(c: char) {
    c == ' ' || 9 <= c as int <= 13 || 28 <= c as int <= 31
  }

  function LowerChar(c: char): (r: char)
    ensures !IsUpper(r)
    ensures !IsUpper(c) ==> r == c
  {
    if IsUpper(c) then (c as int + 32) as char else c
  }

  /** Lower-casing: every capital becomes its lower-case letter, every
      other character is kept. */
  function Lower(s: string): (r: string)
    ensures |r| == |s|
    ensures forall i :: 0 <= i < |r| ==> !IsUpper(r[i])
    ensures forall i :: 0 <= i < |s| && !IsUpper(s[i]) ==> r[i] == s[i]
    ensures forall i :: 0 <= i < |s| && IsUpper(s[i]) ==> r[i] as int == s[i] as int + 32
  {
    seq(|s|, i requires 0 <= i < |s| => LowerChar(s[i]))
  }

  /** Leading whitespace removed. */
  function StripLeft(s: string): (r: string)
    ensures r == [] || !IsSpace(r[0])
    ensures r == [] <==> forall i :: 0 <= i < |s| ==> IsSpace(s[i])
  {
    if s != [] && IsSpace(s[0]) then StripLeft(s[1..]) else s
  }

  /** Trailing whitespace removed. */
  function StripRight(s: string): (r: string)
    ensures r == [] || !IsSpace(r[|r| - 1])
    ensures s != [] && !IsSpace(s[0]) ==> r != [] && r[0] == s[0]
  {
    if s != [] && IsSpace(s[|s| - 1]) then StripRight(s[..|s| - 1]) else s
  }

  /** Whitespace removed at both ends, as Python's strip does. */
  function Strip(s: string): (r: string)
    ensures r == [] || (!IsSpace(r[0]) && !IsSpace(r[|r| - 1]))
  {
    StripRight(StripLeft(s))
  }

  /** The blank test of the analyzers: the text is empty, or stripping it
      leaves nothing; that is, every character is whitespace. */
  predicate IsBlank(s: string): (b: bool)
    ensures b <==> s == [] || Strip(s) == []
  {
    forall i :: 0 <= i < |s| ==> IsSpace(s[i])
  }

  predicate StartsWith(s: string, prefix: string) {
    |prefix| <= |s| && s[..|prefix|] == prefix
  }

  /** The substring test: `needle` occurs somewhere in `hay`. */
  predicate Contains(hay: string, needle: string)
    decreases |hay|
  {
    StartsWith(hay, needle) || (|hay| > 0 && Contains(hay[1..], needle))
  }

  /** `needle` occurs in `hay` starting at index `i`. */
  predicate OccursAt(hay: string, needle: string, i: nat) {
    i + |needle| <= |hay| && hay[i..i + |needle|] == needle
  }

  /** An occurrence at a known position is enough for `Contains`. */
  lemma {:induction false} ContainsAt(hay: string, needle: string, i: nat)
    requires OccursAt(hay, needle, i)
    ensures Contains(hay, needle)
  {
    if i > 0 {
      assert hay[1..][i - 1..i - 1 + |needle|] == hay[i..i + |needle|];
      ContainsAt(hay[1..], needle, i - 1);
    } else {
      assert hay[..|needle|] == needle;
    }
  }

  /** `Contains` holds exactly when `needle` occurs at some index of `hay`. */
  lemma {:induction false} ContainsIsOccurrence(hay: string, needle: string)
    ensures Contains(hay, needle) <==> exists i: nat :: OccursAt(hay, needle, i)
  {
    if Contains(hay, needle) {
      if StartsWith(hay, needle) {
        assert OccursAt(hay, needle, 0);
      } else {
        ContainsIsOccurrence(hay[1..], needle);
        var i: nat :| OccursAt(hay[1..], needle, i);
        assert hay[i + 1..i + 1 + |needle|] == hay[1..][i..i + |needle|];
        assert OccursAt(hay, needle, i + 1);
      }
    } else {
      forall i: nat ensures !OccursAt(hay, needle, i) {
        if OccursAt(hay, needle, i) {
          ContainsAt(hay, needle, i);
        }
      }
    }
  }

  /** The number of occurrences of the character `c` in `s`. */
  function CountChar(s: string, c: char): (n: nat)
    ensures n <= |s|
    ensures n == 0 <==> c !in s
  {
    if s == [] then 0
    else CountChar(s[..|s| - 1], c) + (if s[|s| - 1] == c then 1 else 0)
  }

  /** The number of capital letters in `s`. */
  function CountUpper(s: string): (n: nat)
    ensures n <= |s|
    ensures n == 0 <==> forall i :: 0 <= i < |s| ==> !IsUpper(s[i])
  {
    if s == [] then 0
    else CountUpper(s[..|s| - 1]) + (if IsUpper(s[|s| - 1]) then 1 else 0)
  }

  predicate NoDuplicates<T(==)>(s: seq<T>) {
    forall i, j :: 0 <= i < j < |s| ==> s[i] != s[j]
  }

  /** `r` is `s` with some elements removed, the rest kept in order. */
  predicate IsSubsequence<T(==)>(r: seq<T>, s: seq<T>)
    decreases |s|
  {
    if r == [] then true
    else if s == [] then false
    else if r[|r| - 1] == s[|s| - 1] then IsSubsequence(r[..|r| - 1], s[..|s| - 1])
    else IsSubsequence(r, s[..|s| - 1])
  }

  /** The lexicon entries that occur in `text`, in lexicon order. */
  function KeywordsIn(lexicon: seq<string>, text: string): (r: seq<string>)
    ensures |r| <= |lexicon|
    ensures forall w :: w in r <==> w in lexicon && Contains(text, w)
    ensures IsSubsequence(r, lexicon)
    decreases |lexicon|
  {
    if lexicon == [] then []
    else
      var init := KeywordsIn(lexicon[..|lexicon| - 1], text);
      var w := lexicon[|lexicon| - 1];
      assert lexicon == lexicon[..|lexicon| - 1] + [w];
      if Contains(text, w) then init + [w] else init
  }

  /** A lexicon without repeated entries yields a keyword list without
      repeated entries. */
  lemma {:induction false} KeywordsInDistinct(lexicon: seq<string>, text: string)
    requires NoDuplicates(lexicon)
    ensures NoDuplicates(KeywordsIn(lexicon, text))
    decreases |lexicon|
  {
    if lexicon != [] {
      var prefix := lexicon[..|lexicon| - 1];
      var w := lexicon[|lexicon| - 1];
      KeywordsInDistinct(prefix, text);
      assert w !in prefix by {
        forall i | 0 <= i < |prefix| ensures prefix[i] != w {
          assert prefix[i] == lexicon[i];
        }
      }
      assert w !in KeywordsIn(prefix, text);
    }
  }

  /** Number of lexicon entries that occur in `a` or in `b`, each entry
      counted once. */
  function CountMentioned(lexicon: seq<string>, a: string, b: string): (n: nat)
    ensures n <= |lexicon|
    decreases |lexicon|
  {
    if lexicon == [] then 0
    else
      var w := lexicon[|lexicon| - 1];
      CountMentioned(lexicon[..|lexicon| - 1], a, b)
        + (if Contains(a, w) || Contains(b, w) then 1 else 0)
  }

  /** An entry found in both texts is counted once: the count is the sum of
      the two single-text keyword lists less the entries found in both, so
      it lies between the larger list and the sum of the two. */
  lemma {:induction false} CountMentionedBounds(lexicon: seq<string>, a: string, b: string)
    ensures |KeywordsIn(lexicon, a)| <= CountMentioned(lexicon, a, b)
    ensures |KeywordsIn(lexicon, b)| <= CountMentioned(lexicon, a, b)
    ensures CountMentioned(lexicon, a, b) <= |KeywordsIn(lexicon, a)| + |KeywordsIn(lexicon, b)|
    ensures CountMentioned(lexicon, a, b)
              == |KeywordsIn(lexicon, a)| + |KeywordsIn(lexicon, b)|
                 - |KeywordsIn(KeywordsIn(lexicon, a), b)|
    decreases |lexicon|
  {
    if lexicon != [] {
      var init := lexicon[..|lexicon| - 1];
      var w := lexicon[|lexicon| - 1];
      CountMentionedBounds(init, a, b);
      var ka := KeywordsIn(init, a);
      if Contains(a, w) {
        assert (ka + [w])[..|ka|] == ka;
      }
    }
  }

  /** A word occurring in `text` is found, in its lower-case form, in the
      lowercased text. */
  lemma LowerFound(text: string, word: string, i: nat)
    requires OccursAt(text, word, i)
    ensures Contains(Lower(text), Lower(word))
  {
    assert Lower(text)[i..i + |word|] == Lower(word);
    ContainsAt(Lower(text), Lower(word), i);
  }

  /** Where three words sit in a text assembled around them. */
  lemma ThreeOccurrences(text: string, s0: string, a: string, s1: string, b: string,
                         s2: string, c: string, s3: string)
    requires text == s0 + a + s1 + b + s2 + c + s3
    ensures OccursAt(text, a, |s0|)
    ensures OccursAt(text, b, |s0| + |a| + |s1|)
    ensures OccursAt(text, c, |s0| + |a| + |s1| + |b| + |s2|)
  {
    var i, j, k := |s0|, |s0| + |a| + |s1|, |s0| + |a| + |s1| + |b| + |s2|;
    assert text[i..i + |a|] == a;
    assert text[j..j + |b|] == b;
    assert text[k..k + |c|] == c;
  }

  /** A sequence holding three different values has at least three elements. */
  lemma ThreeDistinctMembers<T>(s: seq<T>, x: T, y: T, z: T)
    requires x in s && y in s && z in s
    requires x != y && y != z && x != z
    ensures |s| >= 3
  {
    var i :| 0 <= i < |s| && s[i] == x;
    var j :| 0 <= j < |s| && s[j] == y;
    var k :| 0 <= k < |s| && s[k] == z;
  }

  /** Three words of a text whose lower-case forms are different lexicon
      entries are all found, so the keyword list has at least three. */
  lemma ThreeWordsFound(lexicon: seq<string>, text: string, s0: string, a: string, s1: string,
                        b: string, s2: string, c: string, s3: string)
    requires text == s0 + a + s1 + b + s2 + c + s3
    requires Lower(a) in lexicon && Lower(b) in lexicon && Lower(c) in lexicon
    requires Lower(a) != Lower(b) && Lower(b) != Lower(c) && Lower(a) != Lower(c)
    ensures var found := KeywordsIn(lexicon, Lower(text));
            Lower(a) in found && Lower(b) in found && Lower(c) in found && |found| >= 3
  {
    ThreeOccurrences(text, s0, a, s1, b, s2, c, s3);
    LowerFound(text, a, |s0|);
    LowerFound(text, b, |s0| + |a| + |s1|);
    LowerFound(text, c, |s0| + |a| + |s1| + |b| + |s2|);
    ThreeDistinctMembers(KeywordsIn(lexicon, Lower(text)), Lower(a), Lower(b), Lower(c));
  }
}
