/** The Python `str` operations the name derivation uses, on ASCII text:
    `lower`, `capitalize`, `find`, slicing with negative indices, `replace`
    with an empty replacement, `startswith`, `split('.')[-1]`, `split()` and
    `' '.join`. */
module PyStr {

  predicate IsUpper(c: char) { 'A' <= c <= 'Z' }
  predicate IsLower(c: char) { 'a' <= c <= 'z' }

  /** The ASCII characters for which `str.isspace()` holds (and on which `split()` splits). */
  predicate IsSpace(c: char) { c == ' ' || '\t' <= c <= '\r' || '\U{1C}' <= c <= '\U{1F}' }

  function ToLower(c: char): (r: char)
    ensures !IsUpper(r)
    ensures IsUpper(c) ==> IsLower(r)
    ensures !IsUpper(c) ==> r == c
  {
    if IsUpper(c) then (c as int + 32) as char else c
  }

  function ToUpper(c: char): (r: char)
    ensures !IsLower(r)
    ensures IsLower(c) ==> IsUpper(r)
    ensures !IsLower(c) ==> r == c
  {
    if IsLower(c) then (c as int - 32) as char else c
  }

  /** `s.lower()` */
  function Lower(s: string): (r: string)
    ensures |r| == |s|
    ensures forall i :: 0 <= i < |s| ==> r[i] == ToLower(s[i])
  {
    if s == [] then [] else [ToLower(s[0])] + Lower(s[1..])
  }

  predicate NoUpper(s: string) { forall i :: 0 <= i < |s| ==> !IsUpper(s[i]) }

  /** `s.capitalize()`: the first character upper-cased, the rest lower-cased. */
  function Capitalize(s: string): (r: string)
    ensures |r| == |s|
    ensures s != [] ==> r[0] == ToUpper(s[0]) && r[1..] == Lower(s[1..])
  {
    if s == [] then [] else [ToUpper(s[0])] + Lower(s[1..])
  }

  /** `s.find(c)`: the first index of `c`, or -1. */
  function Find(s: string, c: char): (r: int)
    ensures -1 <= r < |s|
    ensures r == -1 <==> c !in s
    ensures r >= 0 ==> s[r] == c && c !in s[..r]
  {
    if s == [] then -1
    else if s[0] == c then 0
    else
      var k := Find(s[1..], c);
      assert s[1..][..k + 1] == s[1..k + 2] by { assert k + 1 <= |s[1..]| || k == -1; }
      if k == -1 then -1 else k + 1
  }

  /** The index a slice bound stands for, Python style: negative counts from the end, then clamped. */
  function SliceBound(i: int, n: nat): (r: nat)
    ensures r <= n
    ensures 0 <= i <= n ==> r == i
    ensures i < 0 && 0 <= n + i ==> r == n + i
  {
    if i < 0 then (if n + i < 0 then 0 else n + i) else if i > n then n else i
  }

  /** `s[i:j]` */
  function Slice(s: string, i: int, j: int): (r: string)
    ensures |r| <= |s|
    ensures 0 <= i <= j <= |s| ==> r == s[i..j]
    ensures |s| > 0 && i == 0 && j == -1 ==> r == s[..|s| - 1]
  {
    var a, b := SliceBound(i, |s|), SliceBound(j, |s|);
    if a < b then s[a..b] else []
  }

  lemma SliceChars(s: string, i: int, j: int, c: char)
    requires c in Slice(s, i, j)
    ensures c in s
  {
    var a, b := SliceBound(i, |s|), SliceBound(j, |s|);
    var r := Slice(s, i, j);
    var k :| 0 <= k < |r| && r[k] == c;
    assert r[k] == s[a + k];
  }

  /** `s.startswith(p)` */
  predicate StartsWith(s: string, p: string) { |p| <= |s| && s[..|p|] == p }

  /** `s.replace(pat, '')`: every non-overlapping occurrence of `pat`, scanning
      from the left, is deleted. */
  function RemoveAll(s: string, pat: string): (r: string)
    requires pat != []
    ensures |r| <= |s|
    decreases |s|
  {
    if |s| < |pat| then s
    else if s[..|pat|] == pat then RemoveAll(s[|pat|..], pat)
    else [s[0]] + RemoveAll(s[1..], pat)
  }

  /** Deleting occurrences introduces no new character. */
  lemma {:induction false} RemoveAllChars(s: string, pat: string, c: char)
    requires pat != [] && c in RemoveAll(s, pat)
    ensures c in s
    decreases |s|
  {
    if |s| < |pat| {
    } else if s[..|pat|] == pat {
      RemoveAllChars(s[|pat|..], pat, c);
    } else if c != s[0] {
      RemoveAllChars(s[1..], pat, c);
    }
  }

  /** `s.split(sep)[-1]`: the text after the last `sep`, or all of `s`. */
  function LastSegment(s: string, sep: char): (r: string)
    ensures sep !in r
    ensures |r| <= |s| && r == s[|s| - |r|..]
    ensures |r| == |s| || s[|s| - |r| - 1] == sep
  {
    if s == [] then []
    else if s[|s| - 1] == sep then []
    else
      var init := s[..|s| - 1];
      var r := LastSegment(init, sep) + [s[|s| - 1]];
      assert init[|init| - (|r| - 1)..] + [s[|s| - 1]] == s[|s| - |r|..];
      r
  }

  /** `s` with every character for which `IsSpace` holds deleted. */
  function StripSpaces(s: string): (r: string)
    ensures forall c :: c in r ==> c in s && !IsSpace(c)
  {
    if s == [] then [] else (if IsSpace(s[0]) then [] else [s[0]]) + StripSpaces(s[1..])
  }

  lemma {:induction false} StripSpacesAppend(a: string, b: string)
    ensures StripSpaces(a + b) == StripSpaces(a) + StripSpaces(b)
  {
    if a == [] {
      assert a + b == b;
    } else {
      assert (a + b)[0] == a[0];
      assert (a + b)[1..] == a[1..] + b;
      StripSpacesAppend(a[1..], b);
    }
  }

  lemma {:induction false} StripSpacesNoop(s: string)
    requires forall c :: c in s ==> !IsSpace(c)
    ensures StripSpaces(s) == s
  {
    if s != [] {
      StripSpacesNoop(s[1..]);
    }
  }

  /** The length of the word at the front of `s` (the longest prefix without whitespace). */
  function WordLength(s: string): (n: nat)
    ensures n <= |s|
    ensures forall i :: 0 <= i < n ==> !IsSpace(s[i])
    ensures n == |s| || IsSpace(s[n])
  {
    if s == [] || IsSpace(s[0]) then 0 else 1 + WordLength(s[1..])
  }

  predicate IsWord(w: string) { w != [] && forall i :: 0 <= i < |w| ==> !IsSpace(w[i]) }

  function Concat(ws: seq<string>): string
  {
    if ws == [] then [] else ws[0] + Concat(ws[1..])
  }

  /** `s.split()`: the maximal runs of non-whitespace characters, in order. */
  function Words(s: string): (ws: seq<string>)
    decreases |s|
  {
    if s == [] then []
    else if IsSpace(s[0]) then Words(s[1..])
    else
      var n := WordLength(s);
      [s[..n]] + Words(s[n..])
  }

  /** `split()` yields non-empty whitespace-free words that together hold every
      non-whitespace character of the input, in order. */
  lemma WordsSpec(s: string)
    ensures forall k :: 0 <= k < |Words(s)| ==> IsWord(Words(s)[k])
    ensures Concat(Words(s)) == StripSpaces(s)
  {
    WordsAreWords(s);
    WordsConcat(s);
  }

  lemma {:induction false} WordsAreWords(s: string)
    ensures forall k :: 0 <= k < |Words(s)| ==> IsWord(Words(s)[k])
    decreases |s|
  {
    if s == [] {
    } else if IsSpace(s[0]) {
      WordsAreWords(s[1..]);
    } else {
      var n := WordLength(s);
      WordsAreWords(s[n..]);
      var ws := Words(s);
      assert ws == [s[..n]] + Words(s[n..]);
      forall k | 0 <= k < |ws| ensures IsWord(ws[k]) {
        if k > 0 {
          assert ws[k] == Words(s[n..])[k - 1];
        }
      }
    }
  }

  lemma {:induction false} WordsConcat(s: string)
    ensures Concat(Words(s)) == StripSpaces(s)
    decreases |s|
  {
    if s == [] {
    } else if IsSpace(s[0]) {
      WordsConcat(s[1..]);
    } else {
      var n := WordLength(s);
      WordsConcat(s[n..]);
      var ws := Words(s);
      assert ws == [s[..n]] + Words(s[n..]);
      assert ws[1..] == Words(s[n..]);
      assert Concat(ws) == s[..n] + Concat(Words(s[n..]));
      assert s == s[..n] + s[n..];
      StripSpacesAppend(s[..n], s[n..]);
      StripSpacesNoop(s[..n]);
    }
  }

  /** `' '.join(ws)` */
  function Join(ws: seq<string>): string
  {
    if ws == [] then [] else if |ws| == 1 then ws[0] else ws[0] + " " + Join(ws[1..])
  }

  /** Whitespace only as single spaces between words: none leading, none
      trailing, none doubled, and no other whitespace character. */
  predicate Tidy(s: string)
  {
    forall i :: 0 <= i < |s| && IsSpace(s[i]) ==>
      s[i] == ' ' && 0 < i < |s| - 1 && !IsSpace(s[i + 1])
  }

  /** A word, a space and tidy text that starts with a word make tidy text. */
  lemma TidyCons(w: string, rest: string)
    requires IsWord(w) && Tidy(rest) && rest != [] && !IsSpace(rest[0])
    ensures Tidy(w + " " + rest)
  {
    var s := w + " " + rest;
    forall i | 0 <= i < |s|
      ensures IsSpace(s[i]) ==> s[i] == ' ' && 0 < i < |s| - 1 && !IsSpace(s[i + 1])
    {
      if i < |w| {
        assert s[i] == w[i];
      } else if i > |w| {
        assert s[i] == rest[i - |w| - 1];
        if IsSpace(s[i]) {
          assert s[i + 1] == rest[i - |w|];
        }
      } else {
        assert s[i + 1] == rest[0];
      }
    }
  }

  lemma StripWordSpace(w: string)
    requires IsWord(w)
    ensures StripSpaces(w + " ") == w
  {
    StripSpacesNoop(w);
    StripSpacesAppend(w, " ");
    assert StripSpaces(" ") == [];
  }

  /** Joining words with single spaces gives tidy text that reads back as the
      words once the spaces are deleted. */
  lemma {:induction false} JoinWords(ws: seq<string>)
    requires forall k :: 0 <= k < |ws| ==> IsWord(ws[k])
    ensures Tidy(Join(ws))
    ensures StripSpaces(Join(ws)) == Concat(ws)
    ensures ws != [] ==> Join(ws) != [] && !IsSpace(Join(ws)[0])
  {
    if |ws| == 1 {
      StripSpacesNoop(ws[0]);
      assert Concat(ws) == ws[0] + Concat([]);
    } else if |ws| > 1 {
      var w, rest := ws[0], Join(ws[1..]);
      JoinWords(ws[1..]);
      assert Join(ws) == w + " " + rest;
      TidyCons(w, rest);
      StripWordSpace(w);
      StripSpacesAppend(w + " ", rest);
      assert (w + " " + rest)[0] == w[0];
    }
  }

  /** `s` with every `c` deleted. */
  function RemoveChar(s: string, c: char): string
  {
    if s == [] then [] else (if s[0] == c then [] else [s[0]]) + RemoveChar(s[1..], c)
  }

  lemma {:induction false} RemoveCharAppend(a: string, b: string, c: char)
    ensures RemoveChar(a + b, c) == RemoveChar(a, c) + RemoveChar(b, c)
  {
    if a == [] {
      assert a + b == b;
    } else {
      assert (a + b)[0] == a[0];
      assert (a + b)[1..] == a[1..] + b;
      RemoveCharAppend(a[1..], b, c);
    }
  }

  /** In tidy text the only whitespace is the single space, so deleting the
      spaces deletes all whitespace. */
  lemma {:induction false} TidyStrip(s: string)
    requires forall i :: 0 <= i < |s| && IsSpace(s[i]) ==> s[i] == ' '
    ensures StripSpaces(s) == RemoveChar(s, ' ')
  {
    if s != [] {
      assert forall i :: 0 <= i < |s[1..]| && IsSpace(s[1..][i]) ==> s[1..][i] == ' ' by {
        forall i | 0 <= i < |s[1..]| ensures IsSpace(s[1..][i]) ==> s[1..][i] == ' ' {
          assert s[1..][i] == s[i + 1];
        }
      }
      TidyStrip(s[1..]);
    }
  }

  /** Lower-casing never creates a character that is not a lower-case letter. */
  lemma LowerAbsent(s: string, ch: char)
    requires !IsLower(ch) && ch !in s
    ensures ch !in Lower(s)
  {
    forall i | 0 <= i < |s| ensures Lower(s)[i] != ch {
      assert s[i] != ch;
    }
  }
}
