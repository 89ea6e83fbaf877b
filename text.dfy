/** The string operations the handlers use: character counts, ASCII
    lowercasing, single-character substitution, re.sub('&', 'and', ...),
    substring search and str.split(sep)[0]. */
module Text {

  /** Number of occurrences of c in s. */
  function Occurrences(s: string, c: char): nat
  {
    if s == [] then 0 else (if s[0] == c then 1 else 0) + Occurrences(s[1..], c)
  }

  lemma {:induction false} NoOccurrences(s: string, c: char)
    ensures Occurrences(s, c) == 0 <==> c !in s
  {
    if s != [] {
      NoOccurrences(s[1..], c);
      assert s == [s[0]] + s[1..];
    }
  }

  lemma {:induction false} OccurrencesAppend(a: string, b: string, c: char)
    ensures Occurrences(a + b, c) == Occurrences(a, c) + Occurrences(b, c)
  {
    if a != [] {
      OccurrencesAppend(a[1..], b, c);
      assert (a + b)[1..] == a[1..] + b;
    } else {
      assert a + b == b;
    }
  }

  predicate IsAsciiUpper(c: char)
  {
    'A' <= c <= 'Z'
  }

  predicate IsAsciiLower(c: char)
  {
    'a' <= c <= 'z'
  }

  function LowerChar(c: char): char
  {
    if IsAsciiUpper(c) then (c as int + 32) as char else c
  }

  /** str.lower(), restricted to the ASCII letters A-Z. */
  function Lower(s: string): (r: string)
    ensures |r| == |s|
    ensures forall i :: 0 <= i < |s| ==> r[i] == LowerChar(s[i])
    ensures forall i :: 0 <= i < |r| ==> !IsAsciiUpper(r[i])
  {
    if s == [] then [] else [LowerChar(s[0])] + Lower(s[1..])
  }

  /** Lowercasing neither creates nor removes a character that is not a letter. */
  lemma {:induction false} LowerKeepsOccurrences(s: string, c: char)
    requires !IsAsciiUpper(c) && !IsAsciiLower(c)
    ensures Occurrences(Lower(s), c) == Occurrences(s, c)
  {
    if s != [] {
      LowerKeepsOccurrences(s[1..], c);
      assert Lower(s)[1..] == Lower(s[1..]);
    }
  }

  /** re.sub(from, to, s) where both are single characters. */
  function ReplaceChar(s: string, from: char, to: char): (r: string)
    ensures |r| == |s|
    ensures forall i :: 0 <= i < |s| ==> r[i] == (if s[i] == from then to else s[i])
  {
    if s == [] then [] else [if s[0] == from then to else s[0]] + ReplaceChar(s[1..], from, to)
  }

  /** After replacing from by to, the to characters are the old from and to characters together. */
  lemma {:induction false} ReplaceCharCounts(s: string, from: char, to: char)
    requires from != to
    ensures Occurrences(ReplaceChar(s, from, to), to) == Occurrences(s, from) + Occurrences(s, to)
    ensures Occurrences(ReplaceChar(s, from, to), from) == 0
  {
    if s != [] {
      ReplaceCharCounts(s[1..], from, to);
      assert ReplaceChar(s, from, to)[1..] == ReplaceChar(s[1..], from, to);
    }
  }

  /** re.sub('&', 'and', s): every ampersand becomes the word "and". */
  function ReplaceAmpersands(s: string): (r: string)
    ensures '&' !in r
    ensures |r| == |s| + 2 * Occurrences(s, '&')
  {
    if s == [] then []
    else (if s[0] == '&' then "and" else [s[0]]) + ReplaceAmpersands(s[1..])
  }

  /** A title without an ampersand is passed on unchanged. */
  lemma {:induction false} ReplaceAmpersandsWithoutAmpersand(s: string)
    requires '&' !in s
    ensures ReplaceAmpersands(s) == s
  {
    if s != [] {
      assert s[0] != '&';
      assert forall c :: c in s[1..] ==> c in s;
      ReplaceAmpersandsWithoutAmpersand(s[1..]);
      assert s == [s[0]] + s[1..];
    }
  }

  /** The replacement works character by character: it distributes over
      concatenation, ... */
  lemma {:induction false} ReplaceAmpersandsAppend(a: string, b: string)
    ensures ReplaceAmpersands(a + b) == ReplaceAmpersands(a) + ReplaceAmpersands(b)
  {
    if a != [] {
      var head := if a[0] == '&' then "and" else [a[0]];
      assert (a + b)[0] == a[0] && (a + b)[1..] == a[1..] + b;
      ReplaceAmpersandsAppend(a[1..], b);
      calc {
        ReplaceAmpersands(a + b);
        head + ReplaceAmpersands(a[1..] + b);
        head + (ReplaceAmpersands(a[1..]) + ReplaceAmpersands(b));
        (head + ReplaceAmpersands(a[1..])) + ReplaceAmpersands(b);
      }
    } else {
      assert a + b == b;
    }
  }

  /** ... turns an ampersand into "and", and keeps every other character. */
  lemma ReplaceAmpersandsChar(c: char)
    ensures ReplaceAmpersands([c]) == (if c == '&' then "and" else [c])
  {
    assert [c][1..] == [];
  }

  /** A title with a single ampersand, such as "Fast & Furious", is looked
      up with the ampersand spelled out and the rest unchanged. */
  lemma SpelledOut(before: string, after: string)
    requires '&' !in before && '&' !in after
    ensures ReplaceAmpersands(before + "&" + after) == before + "and" + after
  {
    ReplaceAmpersandsAppend(before + "&", after);
    ReplaceAmpersandsAppend(before, "&");
    ReplaceAmpersandsWithoutAmpersand(before);
    ReplaceAmpersandsWithoutAmpersand(after);
    ReplaceAmpersandsChar('&');
  }

  /** Python's `sub in s`. */
  predicate HasSubstring(s: string, sub: string)
    decreases |s|
  {
    (|sub| <= |s| && s[..|sub|] == sub) || (s != [] && HasSubstring(s[1..], sub))
  }

  /** sub occurs in s starting at index i. */
  predicate OccursAt(s: string, sub: string, i: nat)
  {
    i + |sub| <= |s| && s[i..i + |sub|] == sub
  }

  /** HasSubstring means exactly "sub occurs at some index of s". */
  lemma {:induction false} HasSubstringAt(s: string, sub: string)
    ensures HasSubstring(s, sub) <==> exists i: nat :: OccursAt(s, sub, i)
  {
    if |sub| <= |s| && s[..|sub|] == sub {
      assert OccursAt(s, sub, 0);
    } else if s == [] {
      assert forall i: nat :: !OccursAt(s, sub, i);
    } else {
      HasSubstringAt(s[1..], sub);
      assert !OccursAt(s, sub, 0);
      forall i: nat ensures OccursAt(s[1..], sub, i) <==> OccursAt(s, sub, i + 1) {
        if i + 1 + |sub| <= |s| {
          assert s[1..][i..i + |sub|] == s[i + 1..i + 1 + |sub|];
        }
      }
      if exists i: nat :: OccursAt(s, sub, i) {
        var i: nat :| OccursAt(s, sub, i);
        assert OccursAt(s[1..], sub, i - 1);
      }
    }
  }

  /** str.split(sep)[0]: the part of s before the first sep (all of s when
      sep does not occur). */
  function BeforeFirst(s: string, sep: char): (r: string)
    ensures r <= s
    ensures sep !in r
    ensures |r| < |s| ==> s[|r|] == sep
  {
    if s == [] || s[0] == sep then [] else [s[0]] + BeforeFirst(s[1..], sep)
  }
}
