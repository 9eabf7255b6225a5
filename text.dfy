/** ASCII models of the Python `str` operations the query compiler relies on:
    `lower()`, `title()`, `replace("__", ".")`, `replace(".", "__")`, the
    substring tests `"__" in s` / `"." in s` and `split(".")[0]`.
    Only the ASCII letters change case; every other character is kept. */
module Text {

  predicate IsUpper(c: char) { 'A' <= c <= 'Z' }

  predicate IsLowerLetter(c: char) { 'a' <= c <= 'z' }

  predicate IsLetter(c: char) { IsUpper(c) || IsLowerLetter(c) }

  /** `c.lower()` for one character */
  function LowerChar(c: char): char {
    if IsUpper(c) then (c as int + 32) as char else c
  }

  /** `c.upper()` for one character */
  function UpperChar(c: char): char {
    if IsLowerLetter(c) then (c as int - 32) as char else c
  }

  /** `s.lower()`: every character is lower-cased in place. */
  function Lower(s: string): (r: string)
    ensures |r| == |s|
    ensures forall i :: 0 <= i < |s| ==> r[i] == LowerChar(s[i])
  {
    if s == [] then [] else [LowerChar(s[0])] + Lower(s[1..])
  }

  /** `"__" in s` */
  predicate HasDunder(s: string) {
    |s| >= 2 && ((s[0] == '_' && s[1] == '_') || HasDunder(s[1..]))
  }

  /** `s.replace("__", ".")`: a left-to-right scan replacing non-overlapping pairs. */
  function ReplaceDunder(s: string): (r: string)
    ensures |r| <= |s|
    ensures (r == []) == (s == [])
  {
    if |s| < 2 then s
    else if s[0] == '_' && s[1] == '_' then "." + ReplaceDunder(s[2..])
    else [s[0]] + ReplaceDunder(s[1..])
  }

  /** `s.replace(".", "__")` */
  function ReplaceDot(s: string): (r: string)
    ensures |r| >= |s|
  {
    if s == [] then []
    else (if s[0] == '.' then "__" else [s[0]]) + ReplaceDot(s[1..])
  }

  /** No dot survives `replace(".", "__")`. */
  lemma {:induction false} ReplaceDotLeavesNoDot(s: string)
    ensures '.' !in ReplaceDot(s)
  {
    if s != [] {
      ReplaceDotLeavesNoDot(s[1..]);
    }
  }

  /** `replace(".", "__")` leaves a string without dots unchanged. */
  lemma {:induction false} ReplaceDotFixes(s: string)
    requires '.' !in s
    ensures ReplaceDot(s) == s
  {
    if s != [] {
      ReplaceDotFixes(s[1..]);
      assert s == [s[0]] + s[1..];
    }
  }

  /** `s.split(".")[0]`: the longest prefix of `s` without a dot. */
  function FirstSegment(s: string): (r: string)
    ensures r <= s
    ensures '.' !in r
    ensures |r| < |s| ==> s[|r|] == '.'
  {
    if s == [] || s[0] == '.' then [] else [s[0]] + FirstSegment(s[1..])
  }

  /** `s.title()` continued after a character that was (`cased`) or was not a letter. */
  function TitleFrom(s: string, cased: bool): (r: string)
    ensures |r| == |s|
    ensures s != [] && IsLowerLetter(s[0]) && !cased ==> IsUpper(r[0])
  {
    if s == [] then []
    else
      var c := if !IsLetter(s[0]) then s[0] else if cased then LowerChar(s[0]) else UpperChar(s[0]);
      [c] + TitleFrom(s[1..], IsLetter(s[0]))
  }

  /** `s.title()`: each run of letters gets an upper-case first letter and
      lower-case rest. */
  function Title(s: string): (r: string)
    ensures |r| == |s|
    ensures s != [] && IsLowerLetter(s[0]) ==> IsUpper(r[0])
  {
    TitleFrom(s, false)
  }

  /** Title-casing changes only the case of letters. */
  lemma {:induction false} TitleFromKeepsLetters(s: string, cased: bool)
    ensures forall i :: 0 <= i < |s| ==> LowerChar(TitleFrom(s, cased)[i]) == LowerChar(s[i])
    ensures Lower(TitleFrom(s, cased)) == Lower(s)
  {
    if s != [] {
      TitleFromKeepsLetters(s[1..], IsLetter(s[0]));
      var r := TitleFrom(s, cased);
      assert r[0] == (if !IsLetter(s[0]) then s[0] else if cased then LowerChar(s[0]) else UpperChar(s[0]));
      assert r[1..] == TitleFrom(s[1..], IsLetter(s[0]));
      forall i | 0 <= i < |s| ensures LowerChar(r[i]) == LowerChar(s[i]) {
        if i > 0 {
          assert r[i] == r[1..][i - 1] && s[i] == s[1..][i - 1];
        }
      }
      LowerAgrees(r, s);
    }
  }

  /** Strings that agree up to letter case have the same lower-case form. */
  lemma LowerAgrees(a: string, b: string)
    requires |a| == |b| && forall i :: 0 <= i < |a| ==> LowerChar(a[i]) == LowerChar(b[i])
    ensures Lower(a) == Lower(b)
  {
    assert forall i :: 0 <= i < |a| ==> Lower(a)[i] == Lower(b)[i];
  }

  /** Inside a word, lower-case letters stay as they are. */
  lemma {:induction false} TitleLowerRun(w: string, rest: string)
    requires forall i :: 0 <= i < |w| ==> IsLowerLetter(w[i])
    ensures TitleFrom(w + rest, true) == w + TitleFrom(rest, true)
  {
    if w == [] {
      assert w + rest == rest;
    } else {
      assert (w + rest)[0] == w[0] && (w + rest)[1..] == w[1..] + rest;
      TitleLowerRun(w[1..], rest);
      assert w == [w[0]] + w[1..];
    }
  }

  /** A lower-case word after a non-letter gets an upper-case first letter. */
  lemma TitleWord(w: string, rest: string)
    requires w != [] && forall i :: 0 <= i < |w| ==> IsLowerLetter(w[i])
    ensures TitleFrom(w + rest, false) == [UpperChar(w[0])] + w[1..] + TitleFrom(rest, true)
  {
    var s := w + rest;
    assert s[0] == w[0] && IsLetter(w[0]) && s[1..] == w[1..] + rest;
    assert TitleFrom(s, false) == [UpperChar(w[0])] + TitleFrom(w[1..] + rest, true);
    TitleLowerRun(w[1..], rest);
    assert [UpperChar(w[0])] + (w[1..] + TitleFrom(rest, true)) == [UpperChar(w[0])] + w[1..] + TitleFrom(rest, true);
  }

  /** `title()` of lower-case words joined by `"__"`: each word gets an
      upper-case first letter, and the separators are kept. */
  lemma TitleDunderWords(a: string, b: string, c: string)
    requires a != [] && forall i :: 0 <= i < |a| ==> IsLowerLetter(a[i])
    requires b != [] && forall i :: 0 <= i < |b| ==> IsLowerLetter(b[i])
    requires c != [] && forall i :: 0 <= i < |c| ==> IsLowerLetter(c[i])
    ensures Title(a + ("__" + (b + ("__" + c)))) ==
      [UpperChar(a[0])] + a[1..] + ("__" + ([UpperChar(b[0])] + b[1..] + ("__" + ([UpperChar(c[0])] + c[1..]))))
  {
    var tail := "__" + c;
    TitleAfterDunder(c, [], true);
    assert c + [] == c && TitleFrom([], true) == [];
    var tb := TitleFrom("__" + (b + tail), true);
    TitleAfterDunder(b, tail, true);
    TitleWord(a, "__" + (b + tail));
    assert [UpperChar(a[0])] + a[1..] + tb == [UpperChar(a[0])] + a[1..] + ("__" + ([UpperChar(b[0])] + b[1..] + ("__" + ([UpperChar(c[0])] + c[1..]))));
  }

  /** After `"__"`, a lower-case word is capitalised, whatever came before. */
  lemma TitleAfterDunder(w: string, rest: string, cased: bool)
    requires w != [] && forall i :: 0 <= i < |w| ==> IsLowerLetter(w[i])
    ensures TitleFrom("__" + (w + rest), cased) == "__" + ([UpperChar(w[0])] + w[1..] + TitleFrom(rest, true))
  {
    assert "__" + (w + rest) == "_" + ("_" + (w + rest));
    TitleUnderscore("_" + (w + rest), cased);
    TitleUnderscore(w + rest, false);
    TitleWord(w, rest);
  }

  /** An underscore is kept and ends the current word. */
  lemma TitleUnderscore(rest: string, cased: bool)
    ensures TitleFrom("_" + rest, cased) == "_" + TitleFrom(rest, false)
  {
    assert ("_" + rest)[0] == '_' && ("_" + rest)[1..] == rest;
  }

  lemma LowerIdempotent(s: string)
    ensures Lower(Lower(s)) == Lower(s)
  {
  }

  /** Separators are not letters, so lower-casing neither adds nor removes them. */
  lemma {:induction false} LowerKeepsSeparators(s: string)
    ensures HasDunder(Lower(s)) == HasDunder(s)
    ensures ('.' in Lower(s)) == ('.' in s)
    ensures ('_' in Lower(s)) == ('_' in s)
  {
    if s != [] {
      LowerKeepsSeparators(s[1..]);
      assert Lower(s) == [LowerChar(s[0])] + Lower(s[1..]);
      assert Lower(s)[1..] == Lower(s[1..]);
      assert s == [s[0]] + s[1..];
    }
  }

  /** The scan copies a first character that is not an underscore. */
  lemma ReplaceDunderHead(s: string)
    requires s != [] && s[0] != '_'
    ensures ReplaceDunder(s) != [] && ReplaceDunder(s)[0] == s[0]
  {
  }

  /** After `replace("__", ".")` no `"__"` is left. */
  lemma {:induction false} ReplaceDunderLeavesNoDunder(s: string)
    ensures !HasDunder(ReplaceDunder(s))
  {
    if |s| < 2 {
    } else if s[0] == '_' && s[1] == '_' {
      ReplaceDunderLeavesNoDunder(s[2..]);
      var t := ReplaceDunder(s[2..]);
      assert ("." + t)[1..] == t;
    } else {
      ReplaceDunderLeavesNoDunder(s[1..]);
      var t := ReplaceDunder(s[1..]);
      if s[0] == '_' {
        ReplaceDunderHead(s[1..]);
      }
      assert ([s[0]] + t)[1..] == t;
    }
  }

  /** `replace("__", ".")` changes nothing in a string without `"__"`. */
  lemma {:induction false} ReplaceDunderFixes(s: string)
    requires !HasDunder(s)
    ensures ReplaceDunder(s) == s
  {
    if |s| >= 2 {
      ReplaceDunderFixes(s[1..]);
      assert s == [s[0]] + s[1..];
    }
  }

  lemma ReplaceDunderIdempotent(s: string)
    ensures ReplaceDunder(ReplaceDunder(s)) == ReplaceDunder(s)
  {
    ReplaceDunderLeavesNoDunder(s);
    ReplaceDunderFixes(ReplaceDunder(s));
  }

  /** Lower-casing and separator rewriting commute. */
  lemma {:induction false} LowerReplaceDunderCommute(s: string)
    ensures Lower(ReplaceDunder(s)) == ReplaceDunder(Lower(s))
  {
    var l := Lower(s);
    if |s| < 2 {
    } else if s[0] == '_' && s[1] == '_' {
      LowerReplaceDunderCommute(s[2..]);
      assert l[2..] == Lower(s[2..]);
      assert Lower("." + ReplaceDunder(s[2..])) == "." + Lower(ReplaceDunder(s[2..]));
    } else {
      LowerReplaceDunderCommute(s[1..]);
      assert l[1..] == Lower(s[1..]);
      assert Lower([s[0]] + ReplaceDunder(s[1..])) == [LowerChar(s[0])] + Lower(ReplaceDunder(s[1..]));
    }
  }

  /** Flattening a dotted path without underscores and rewriting it back is the identity. */
  lemma {:induction false} DotDunderRoundTrip(s: string)
    requires '_' !in s
    ensures ReplaceDunder(ReplaceDot(s)) == s
  {
    if s != [] {
      DotDunderRoundTrip(s[1..]);
      var t := ReplaceDot(s[1..]);
      if s[0] == '.' {
        assert ("__" + t)[2..] == t;
      } else if t == [] {
        assert s == [s[0]];
      } else {
        assert ([s[0]] + t)[1..] == t;
        assert s == [s[0]] + s[1..];
      }
    }
  }

  /** Rewriting `"__"` to dots in a string without dots and flattening back is the identity. */
  lemma {:induction false} DunderDotRoundTrip(s: string)
    requires '.' !in s
    ensures ReplaceDot(ReplaceDunder(s)) == s
  {
    if |s| < 2 {
    } else if s[0] == '_' && s[1] == '_' {
      DunderDotRoundTrip(s[2..]);
      var t := ReplaceDunder(s[2..]);
      assert ("." + t)[1..] == t;
      assert s == "__" + s[2..];
    } else {
      DunderDotRoundTrip(s[1..]);
      var t := ReplaceDunder(s[1..]);
      assert ([s[0]] + t)[1..] == t;
      assert s == [s[0]] + s[1..];
    }
  }

  /** `lower()` works character by character, so it distributes over concatenation. */
  lemma LowerAppend(a: string, b: string)
    ensures Lower(a + b) == Lower(a) + Lower(b)
  {
  }

  /** `replace(".", "__")` distributes over concatenation. */
  lemma {:induction false} ReplaceDotAppend(a: string, b: string)
    ensures ReplaceDot(a + b) == ReplaceDot(a) + ReplaceDot(b)
  {
    if a == [] {
      assert a + b == b;
    } else {
      assert (a + b)[0] == a[0] && (a + b)[1..] == a[1..] + b;
      ReplaceDotAppend(a[1..], b);
    }
  }
}
