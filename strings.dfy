/**
 * The few Python `str` operations the pipeline's templates are built from:
 * `strip()`, `split(sep)`, `split()`, `sep.join(...)`, `replace`, `lower()`,
 * `capitalize()`, the `in` substring test, `endswith`, `str(int)` and the
 * ordering `sorted` uses on file names.
 */
module Strings {

  /** A character Python's `str.isspace()` accepts; `strip()` and `split()` use this set. */
  predicate IsSpace(c: char) {
    || c == ' ' || c == '\t' || c == '\n' || c == '\r' || c == '\U{B}' || c == '\U{C}'
    || ('\U{1C}' <= c <= '\U{1F}') || c == '\U{85}' || c == '\U{A0}' || c == '\U{1680}'
    || ('\U{2000}' <= c <= '\U{200A}') || c == '\U{2028}' || c == '\U{2029}'
    || c == '\U{202F}' || c == '\U{205F}' || c == '\U{3000}'
  }

  /** `s` is whitespace only (or empty). */
  predicate Blank(s: string) {
    forall i :: 0 <= i < |s| ==> IsSpace(s[i])
  }

  /** `s` neither starts nor ends with whitespace: what `strip()` returns. */
  predicate Stripped(s: string) {
    s == [] || (!IsSpace(s[0]) && !IsSpace(s[|s| - 1]))
  }

  // ---------------------------------------------------------------------------
  // strip()

  /** `s.lstrip()`: drops the whitespace prefix, so what is left is a suffix of `s`. */
  function StripLeft(s: string): (r: string)
    ensures |r| <= |s| && r == s[|s| - |r|..]
    ensures r == [] || !IsSpace(r[0])
    ensures forall i :: 0 <= i < |s| - |r| ==> IsSpace(s[i])
  {
    if s != [] && IsSpace(s[0]) then StripLeft(s[1..]) else s
  }

  /** `s.rstrip()`: drops the whitespace suffix, so what is left is a prefix of `s`. */
  function StripRight(s: string): (r: string)
    ensures |r| <= |s| && r == s[..|r|]
    ensures r == [] || !IsSpace(r[|r| - 1])
    ensures forall i :: |r| <= i < |s| ==> IsSpace(s[i])
  {
    if s != [] && IsSpace(s[|s| - 1]) then StripRight(s[..|s| - 1]) else s
  }

  /** `s.strip()`: a stripped piece of `s`, empty exactly when `s` is all whitespace. */
  function Strip(s: string): (r: string)
    ensures Stripped(r)
    ensures |r| <= |s|
    ensures r == [] <==> Blank(s)
  {
    var l := StripLeft(s);
    var r := StripRight(l);
    assert r == [] ==> l == [] by {
      if l != [] {
        assert !IsSpace(l[0]);
      }
    }
    r
  }

  /** `strip()` only removes characters, so one absent from `s` is absent from `s.strip()`. */
  lemma StripAvoids(s: string, c: char)
    requires c !in s
    ensures c !in Strip(s)
  {
    var l := StripLeft(s);
    assert c !in l by {
      assert l == s[|s| - |l|..];
    }
    assert StripRight(l) == l[..|StripRight(l)|];
  }

  /** A string that is already stripped is left alone by `strip()`. */
  lemma StripFixedPoint(s: string)
    requires Stripped(s)
    ensures Strip(s) == s
  {
    if s != [] {
      assert StripLeft(s) == s;
      assert StripRight(s) == s;
    }
  }

  /** Whitespace in front of a string does not survive `strip()`. */
  lemma {:induction false} StripLeadingSpace(pad: string, s: string)
    requires Blank(pad)
    ensures StripLeft(pad + s) == StripLeft(s)
    ensures Strip(pad + s) == Strip(s)
  {
    if pad != [] {
      assert (pad + s)[0] == pad[0];
      assert (pad + s)[1..] == pad[1..] + s;
      StripLeadingSpace(pad[1..], s);
      assert StripLeft(pad + s) == StripLeft(pad[1..] + s);
    } else {
      assert pad + s == s;
    }
  }

  /** Whitespace behind a string does not survive `strip()`. */
  lemma {:induction false} StripTrailingSpace(s: string, pad: string)
    requires Blank(pad)
    ensures StripRight(s + pad) == StripRight(s)
  {
    if pad != [] {
      assert (s + pad)[|s + pad| - 1] == pad[|pad| - 1];
      assert (s + pad)[..|s + pad| - 1] == s + pad[..|pad| - 1];
      StripTrailingSpace(s, pad[..|pad| - 1]);
      assert StripRight(s + pad) == StripRight(s + pad[..|pad| - 1]);
    } else {
      assert s + pad == s;
    }
  }

  /** Stripping `x + y`, where `y` is itself stripped and not empty, keeps all of `y` at the end. */
  lemma StripKeepsTail(x: string, y: string)
    requires y != [] && Stripped(y)
    ensures EndsWith(Strip(x + y), y)
  {
    StripOfTail(x, y);
    SuffixOfAppend(StripLeft(x), y);
  }

  /** Only the front of `x + y` is stripped when `y` is stripped and not empty. */
  lemma StripOfTail(x: string, y: string)
    requires y != [] && Stripped(y)
    ensures Strip(x + y) == StripLeft(x) + y
  {
    var l := StripLeft(x) + y;
    assert StripLeft(x + y) == l by {
      StripLeftConcat(x, y);
    }
    assert StripRight(l) == l by {
      SuffixOfAppend(StripLeft(x), y);
      StripRightNonSpaceEnd(l);
    }
  }

  /** `rstrip()` leaves a string that ends with a non-space alone. */
  lemma StripRightNonSpaceEnd(l: string)
    requires l != [] && !IsSpace(l[|l| - 1])
    ensures StripRight(l) == l
  {
  }

  /** The end of a concatenation is its second part. */
  lemma SuffixOfAppend<T>(a: seq<T>, b: seq<T>)
    requires b != []
    ensures (a + b)[|a + b| - |b|..] == b && (a + b)[|a + b| - 1] == b[|b| - 1]
  {
  }

  /** One space and then a visible character: `lstrip` drops just that space. */
  lemma StripLeftOneSpace(s: string)
    requires |s| >= 2 && IsSpace(s[0]) && !IsSpace(s[1])
    ensures StripLeft(s) == s[1..]
  {
    assert s[1..][0] == s[1];
  }

  /** Left-stripping a text that is not all whitespace only touches that text, whatever follows it. */
  lemma {:induction false} StripLeftAppend(a: string, b: string)
    requires !Blank(a)
    ensures StripLeft(a + b) == StripLeft(a) + b
  {
    assert (a + b)[0] == a[0];
    if IsSpace(a[0]) {
      assert (a + b)[1..] == a[1..] + b;
      assert !Blank(a[1..]) by {
        var k :| 0 <= k < |a| && !IsSpace(a[k]);
        assert a[1..][k - 1] == a[k];
      }
      StripLeftAppend(a[1..], b);
    }
  }

  /** Whitespace behind a text does not survive `strip()`. */
  lemma StripTrailingPad(x: string, pad: string)
    requires Blank(pad)
    ensures Strip(x + pad) == Strip(x)
  {
    if Blank(x) {
      assert Blank(x + pad) by {
        forall i | 0 <= i < |x + pad| ensures IsSpace((x + pad)[i]) {
          if i < |x| {
            assert (x + pad)[i] == x[i];
          } else {
            assert (x + pad)[i] == pad[i - |x|];
          }
        }
      }
    } else {
      StripLeftAppend(x, pad);
      StripTrailingSpace(StripLeft(x), pad);
    }
  }

  /** Left-stripping a concatenation whose second part starts with a non-space only touches the first part. */
  lemma {:induction false} StripLeftConcat(a: string, b: string)
    requires b != [] && !IsSpace(b[0])
    ensures StripLeft(a + b) == StripLeft(a) + b
  {
    if a != [] {
      if IsSpace(a[0]) {
        assert (a + b)[1..] == a[1..] + b;
        StripLeftConcat(a[1..], b);
      }
    }
  }

  // ---------------------------------------------------------------------------
  // sep.join(parts) and s.split(sep)

  /** `sep.join(parts)`. */
  function Join(parts: seq<string>, sep: string): string
  {
    if |parts| == 0 then []
    else if |parts| == 1 then parts[0]
    else parts[0] + (sep + Join(parts[1..], sep))
  }

  /** `s.split(sep)` for a one-character separator: one more segment than there are separators. */
  function Split(s: string, sep: char): (r: seq<string>)
    ensures |r| >= 1
    ensures forall i :: 0 <= i < |r| ==> sep !in r[i]
  {
    if s == [] then [[]]
    else
      var rest := Split(s[1..], sep);
      if s[0] == sep then [[]] + rest
      else [[s[0]] + rest[0]] + rest[1..]
  }

  /** Joining the segments of a split with the separator gives back the original string. */
  lemma {:induction false} JoinSplit(s: string, sep: char)
    ensures Join(Split(s, sep), [sep]) == s
  {
    if s != [] {
      var rest := Split(s[1..], sep);
      JoinSplit(s[1..], sep);
      if s[0] == sep {
        assert ([[]] + rest)[1..] == rest;
      } else {
        var parts := [[s[0]] + rest[0]] + rest[1..];
        assert parts[1..] == rest[1..];
        if |rest| > 1 {
          assert Join(rest, [sep]) == rest[0] + ([sep] + Join(rest[1..], [sep]));
        }
      }
    }
  }

  /** Every character of every segment of `s.split(sep)` is one of `s`, so it keeps any property they all have. */
  lemma {:induction false} SplitKeepsClass(s: string, sep: char, P: char -> bool)
    requires forall i :: 0 <= i < |s| ==> P(s[i])
    ensures forall i, j :: 0 <= i < |Split(s, sep)| && 0 <= j < |Split(s, sep)[i]| ==> P(Split(s, sep)[i][j])
  {
    if s != [] {
      SplitKeepsClass(s[1..], sep, P);
    }
  }

  /** A string without the separator is its own single segment. */
  lemma SplitWithoutSeparator(s: string, sep: char)
    requires sep !in s
    ensures Split(s, sep) == [s]
  {
    SplitPrefix(s, [], sep);
    assert s + [] == s;
  }

  /** A piece without the separator, placed in front, joins the first segment. */
  lemma {:induction false} SplitPrefix(a: string, b: string, sep: char)
    requires sep !in a
    ensures Split(a + b, sep) == [a + Split(b, sep)[0]] + Split(b, sep)[1..]
  {
    var tail := Split(b, sep);
    if a != [] {
      assert (a + b)[0] == a[0] != sep;
      assert (a + b)[1..] == a[1..] + b;
      SplitPrefix(a[1..], b, sep);
      var rest := Split(a[1..] + b, sep);
      assert rest == [a[1..] + tail[0]] + tail[1..];
      assert rest[0] == a[1..] + tail[0] && rest[1..] == tail[1..];
      assert [a[0]] + (a[1..] + tail[0]) == a + tail[0];
    } else {
      assert a + b == b;
      assert a + tail[0] == tail[0];
      assert [tail[0]] + tail[1..] == tail;
    }
  }

  /** A piece without the separator, followed by the separator, becomes a segment of its own. */
  lemma SplitAtSeparator(a: string, b: string, sep: char)
    requires sep !in a
    ensures Split(a + [sep] + b, sep) == [a] + Split(b, sep)
  {
    assert a + [sep] + b == a + ([sep] + b);
    SplitPrefix(a, [sep] + b, sep);
    assert ([sep] + b)[0] == sep;
    assert ([sep] + b)[1..] == b;
    var tail := Split([sep] + b, sep);
    assert tail == [[]] + Split(b, sep);
    assert tail[0] == [] && tail[1..] == Split(b, sep);
    assert a + tail[0] == a;
  }

  // ---------------------------------------------------------------------------
  // s.split() (runs of whitespace) and the words it produces

  /** Length of the longest whitespace-free prefix of `t`. */
  function WordLength(t: string): (n: nat)
    ensures n <= |t|
    ensures forall j :: 0 <= j < n ==> !IsSpace(t[j])
    ensures n == |t| || IsSpace(t[n])
  {
    if t == [] || IsSpace(t[0]) then 0 else 1 + WordLength(t[1..])
  }

  /** A non-empty piece of text with no whitespace in it. */
  predicate IsWord(w: string) {
    w != [] && forall j :: 0 <= j < |w| ==> !IsSpace(w[j])
  }

  /** `s.split()` with no argument: the maximal whitespace-free runs of `s`, in order. */
  function Words(s: string): (r: seq<string>)
    ensures forall i :: 0 <= i < |r| ==> IsWord(r[i])
    decreases |s|
  {
    var t := StripLeft(s);
    if t == [] then []
    else
      var n := WordLength(t);
      var rest := Words(t[n..]);
      assert !IsSpace(t[0]);
      WordList(t[..n], rest);
      [t[..n]] + rest
  }

  /** A word in front of a list of words gives a list of words. */
  lemma WordList(w: string, rest: seq<string>)
    requires IsWord(w)
    requires forall i :: 0 <= i < |rest| ==> IsWord(rest[i])
    ensures forall i :: 0 <= i < |[w] + rest| ==> IsWord(([w] + rest)[i])
  {
    forall i | 0 <= i < |[w] + rest| ensures IsWord(([w] + rest)[i]) {
      if i > 0 {
        assert ([w] + rest)[i] == rest[i - 1];
      }
    }
  }

  /** A word followed by nothing or by whitespace is measured exactly. */
  lemma {:induction false} WordLengthOfWordAndRest(w: string, rest: string)
    requires IsWord(w)
    requires rest == [] || IsSpace(rest[0])
    ensures WordLength(w + rest) == |w|
  {
    if |w| > 1 {
      assert (w + rest)[1..] == w[1..] + rest;
      WordLengthOfWordAndRest(w[1..], rest);
    } else {
      assert (w + rest)[1..] == rest;
    }
  }

  /** Leading whitespace does not change what `split()` returns. */
  lemma WordsSkipSpace(pad: string, s: string)
    requires Blank(pad)
    ensures Words(pad + s) == Words(s)
  {
    StripLeadingSpace(pad, s);
  }

  /** A word followed by nothing or by whitespace is the first word `split()` returns. */
  lemma WordsCons(w: string, rest: string)
    requires IsWord(w)
    requires rest == [] || IsSpace(rest[0])
    ensures Words(w + rest) == [w] + Words(rest)
  {
    var s := w + rest;
    assert s[0] == w[0];
    assert StripLeft(s) == s;
    WordLengthOfWordAndRest(w, rest);
    assert s[..|w|] == w;
    assert s[|w|..] == rest;
  }

  /** A non-empty sequence is its head followed by its tail. */
  lemma SplitHead<T>(xs: seq<T>)
    requires xs != []
    ensures xs == [xs[0]] + xs[1..]
  {
  }

  /** `split()` undoes a single-space `join` of words: the two are inverse on lists of words. */
  lemma {:induction false} WordsOfJoin(ws: seq<string>)
    requires forall i :: 0 <= i < |ws| ==> IsWord(ws[i])
    ensures Words(Join(ws, " ")) == ws
  {
    if |ws| == 1 {
      WordsOfOneWord(ws);
    } else if |ws| > 1 {
      WordsOfJoin(ws[1..]);
      WordsAfterWord(ws[0], Join(ws[1..], " "));
      assert Join(ws, " ") == ws[0] + (" " + Join(ws[1..], " "));
      SplitHead(ws);
    }
  }

  lemma WordsOfOneWord(ws: seq<string>)
    requires |ws| == 1 && IsWord(ws[0])
    ensures Words(Join(ws, " ")) == ws
  {
    var w := ws[0];
    assert Words(w) == ws by {
      WordsCons(w, []);
      assert w + [] == w;
      assert Words([]) == [];
      SplitHead(ws);
    }
  }

  /** A word, a space and more text: the word comes first, then the words of the text. */
  lemma WordsAfterWord(w: string, j: string)
    requires IsWord(w)
    ensures Words(w + (" " + j)) == [w] + Words(j)
  {
    WordsCons(w, " " + j);
    WordsSkipSpace(" ", j);
  }

  /** Text that starts with whitespace does not lengthen the word in front of it. */
  lemma {:induction false} WordLengthAppend(t: string, x: string)
    requires x == [] || IsSpace(x[0])
    ensures WordLength(t + x) == WordLength(t)
  {
    if t == [] {
      assert t + x == x;
    } else {
      assert (t + x)[0] == t[0];
      if !IsSpace(t[0]) {
        assert (t + x)[1..] == t[1..] + x;
        WordLengthAppend(t[1..], x);
      }
    }
  }

  /** `split()` of a text starting with a word: that word, then the words of the rest. */
  lemma WordsStep(t: string)
    requires t != [] && !IsSpace(t[0])
    ensures Words(t) == [t[..WordLength(t)]] + Words(t[WordLength(t)..])
  {
    assert StripLeft(t) == t;
  }

  /** `split()` of two texts with whitespace between them: the words of the first, then those of the second. */
  lemma {:induction false} WordsAroundSpace(a: string, pad: string, b: string)
    requires Blank(pad) && pad != []
    ensures Words(a + (pad + b)) == Words(a) + Words(b)
    decreases |a|, 1
  {
    var t := StripLeft(a);
    var x := pad + b;
    WordsAfterStripLeft(a, x);
    if t == [] {
      assert Words(t) == [] && t + x == x;
      WordsSkipSpace(pad, b);
    } else {
      WordsAroundSpaceFromWord(t, pad, b);
    }
  }

  /** Leading whitespace of `a` does not matter to `split()`, whatever follows `a`. */
  lemma WordsAfterStripLeft(a: string, x: string)
    ensures Words(a) == Words(StripLeft(a)) && Words(a + x) == Words(StripLeft(a) + x)
  {
    var t := StripLeft(a);
    var lead := a[..|a| - |t|];
    assert a == lead + t;
    WordsSkipSpace(lead, t);
    AppendAssoc(lead, t, x);
    WordsSkipSpace(lead, t + x);
  }

  /** The same, when the first text starts with a word. */
  lemma {:induction false} WordsAroundSpaceFromWord(t: string, pad: string, b: string)
    requires Blank(pad) && pad != []
    requires t != [] && !IsSpace(t[0])
    ensures Words(t + (pad + b)) == Words(t) + Words(b)
    decreases |t|, 0
  {
    var x := pad + b;
    var n := WordLength(t);
    assert n > 0 by {
      assert n == |t| || IsSpace(t[n]);
    }
    var w, rest := t[..n], t[n..];
    assert Words(t) == [w] + Words(rest) by {
      WordsStep(t);
    }
    assert Words(t + x) == [w] + Words(rest + x) by {
      assert (t + x)[0] == t[0];
      WordsStep(t + x);
      assert x[0] == pad[0];
      WordLengthAppend(t, x);
      SliceAppend(t, x, n);
    }
    assert Words(rest + x) == Words(rest) + Words(b) by {
      WordsAroundSpace(rest, pad, b);
    }
    AppendAssoc([w], Words(rest), Words(b));
  }

  /** Cutting a concatenation inside its first part. */
  lemma SliceAppend<T>(t: seq<T>, x: seq<T>, n: nat)
    requires n <= |t|
    ensures (t + x)[..n] == t[..n] && (t + x)[n..] == t[n..] + x
  {
  }

  /** Concatenation is associative. */
  lemma AppendAssoc<T>(a: seq<T>, b: seq<T>, c: seq<T>)
    ensures (a + b) + c == a + (b + c)
  {
  }

  /** `split()` of two texts with a single word between them, set off by spaces. */
  lemma WordsAroundWord(a: string, w: string, b: string)
    requires IsWord(w)
    ensures Words(a + (" " + w + " ") + b) == Words(a) + [w] + Words(b)
  {
    assert Blank(" ") by {
      assert IsSpace(" "[0]);
    }
    assert a + (" " + w + " ") + b == a + (" " + (w + (" " + b)));
    WordsAroundSpace(a, " ", w + (" " + b));
    WordsAfterWord(w, b);
    AppendAssoc(Words(a), [w], Words(b));
  }

  /** `strip()` does not change what `split()` returns. */
  lemma WordsOfStrip(s: string)
    ensures Words(Strip(s)) == Words(s)
  {
    WordsAfterStripLeft(s, []);
    WordsOfStripRight(StripLeft(s));
  }

  /** Trailing whitespace does not matter to `split()`. */
  lemma WordsOfStripRight(l: string)
    ensures Words(StripRight(l)) == Words(l)
  {
    var r := StripRight(l);
    var trail := l[|r|..];
    if trail != [] {
      assert l == r + (trail + []);
      WordsAroundSpace(r, trail, []);
      assert Words([]) == [];
    } else {
      assert l == r;
    }
  }

  /** `words[:n]`: at most the first `n` elements. */
  function Take<T>(xs: seq<T>, n: nat): (r: seq<T>)
    ensures |r| == if |xs| <= n then |xs| else n
    ensures r == xs[..|r|]
  {
    if |xs| <= n then xs else xs[..n]
  }

  // ---------------------------------------------------------------------------
  // Character case, for the fixed ASCII templates

  function LowerChar(c: char): (d: char)
    ensures IsSpace(d) == IsSpace(c)
  {
    if 'A' <= c <= 'Z' then (c as int + 32) as char else c
  }

  function UpperChar(c: char): (d: char)
    ensures IsSpace(d) == IsSpace(c)
  {
    if 'a' <= c <= 'z' then (c as int - 32) as char else c
  }

  /** `s.lower()` on ASCII letters, position by position. */
  function Lower(s: string): string
  {
    seq(|s|, i requires 0 <= i < |s| => LowerChar(s[i]))
  }

  /** `w.capitalize()` on ASCII letters: first character upper case, the rest lower case. */
  function Capitalize(w: string): (r: string)
    ensures |r| == |w|
    ensures IsWord(w) ==> IsWord(r)
  {
    if w == [] then [] else [UpperChar(w[0])] + Lower(w[1..])
  }

  /** `[w.capitalize() for w in ws]`. */
  function CapitalizeAll(ws: seq<string>): (r: seq<string>)
    ensures |r| == |ws|
    ensures forall i :: 0 <= i < |ws| ==> r[i] == Capitalize(ws[i])
  {
    if ws == [] then [] else [Capitalize(ws[0])] + CapitalizeAll(ws[1..])
  }

  // ---------------------------------------------------------------------------
  // Searching

  /** `sub` occurs in `s` starting at position `i`. */
  predicate OccursAt(s: string, sub: string, i: int) {
    0 <= i && i + |sub| <= |s| && s[i..i + |sub|] == sub
  }

  /** `s.startswith(p)`. */
  predicate StartsWith(s: string, p: string) {
    |p| <= |s| && s[..|p|] == p
  }

  /** `s.endswith(p)`. */
  predicate EndsWith(s: string, p: string) {
    |p| <= |s| && s[|s| - |p|..] == p
  }

  /** `sub in s`: `sub` occurs somewhere in `s`. */
  predicate Contains(s: string, sub: string) {
    exists i :: 0 <= i <= |s| - |sub| && OccursAt(s, sub, i)
  }

  /** A witness position makes `sub in lower(s)` true. */
  lemma LowerOccurs(s: string, sub: string, i: nat)
    requires i + |sub| <= |s|
    requires forall k :: 0 <= k < |sub| ==> LowerChar(s[i + k]) == sub[k]
    ensures Contains(Lower(s), sub)
  {
    assert OccursAt(Lower(s), sub, i);
  }

  /** `sub` cannot occur in `lower(s)` when one of its characters never appears there. */
  lemma MissingCharLower(s: string, sub: string, k: nat)
    requires k < |sub|
    requires forall j :: 0 <= j < |s| ==> LowerChar(s[j]) != sub[k]
    ensures !Contains(Lower(s), sub)
  {
    forall i | 0 <= i <= |s| - |sub| ensures !OccursAt(Lower(s), sub, i) {
      assert Lower(s)[i..i + |sub|][k] == Lower(s)[i + k];
    }
  }

  /** `sub` cannot occur in `s` when two adjacent characters of `sub` never appear side by side in `s`. */
  lemma MissingPair(s: string, sub: string, k: nat)
    requires k + 1 < |sub|
    requires forall j :: 0 <= j < |s| - 1 ==> !(s[j] == sub[k] && s[j + 1] == sub[k + 1])
    ensures !Contains(s, sub)
  {
    forall i | 0 <= i <= |s| - |sub| ensures !OccursAt(s, sub, i) {
      assert s[i..i + |sub|][k] == s[i + k] && s[i..i + |sub|][k + 1] == s[i + k + 1];
    }
  }

  /** The same, read through `lower(s)`. */
  lemma MissingPairLower(s: string, sub: string, k: nat)
    requires k + 1 < |sub|
    requires forall j :: 0 <= j < |s| - 1 ==> !(LowerChar(s[j]) == sub[k] && LowerChar(s[j + 1]) == sub[k + 1])
    ensures !Contains(Lower(s), sub)
  {
    MissingPair(Lower(s), sub, k);
  }

  /** Index of the first `c` in `s`, or `|s|` when there is none. */
  function IndexOf(s: string, c: char): (k: nat)
    ensures k <= |s|
    ensures forall j :: 0 <= j < k ==> s[j] != c
    ensures k < |s| ==> s[k] == c
  {
    if s == [] || s[0] == c then 0 else 1 + IndexOf(s[1..], c)
  }

  /** `s.split(c, 1)[-1]`: the text after the first `c`, or all of `s` when `c` does not occur. */
  function AfterFirst(s: string, c: char): (r: string)
    ensures c !in s ==> r == s
    ensures c in s ==> exists k :: 0 <= k < |s| && s[..k] + [c] + r == s && c !in s[..k]
  {
    var k := IndexOf(s, c);
    if k == |s| then
      assert c !in s;
      s
    else
      assert s[..k] + [c] + s[k + 1..] == s;
      s[k + 1..]
  }

  /** `s.replace(target, replacement)` for single characters. */
  function Replace(s: string, target: char, replacement: char): (r: string)
    ensures |r| == |s|
    ensures forall i :: 0 <= i < |s| ==> r[i] == if s[i] == target then replacement else s[i]
  {
    if s == [] then [] else [if s[0] == target then replacement else s[0]] + Replace(s[1..], target, replacement)
  }

  /** Replacing a character that does not occur changes nothing. */
  lemma {:induction false} ReplaceAbsent(s: string, target: char, replacement: char)
    requires target !in s
    ensures Replace(s, target, replacement) == s
  {
    if s != [] {
      ReplaceAbsent(s[1..], target, replacement);
      SplitHead(s);
    }
  }

  /** A character in neither the parts nor the separator is not in their join. */
  lemma {:induction false} JoinAvoids(parts: seq<string>, sep: string, c: char)
    requires c !in sep
    requires forall i :: 0 <= i < |parts| ==> c !in parts[i]
    ensures c !in Join(parts, sep)
  {
    if |parts| > 1 {
      JoinAvoids(parts[1..], sep, c);
    }
  }

  // ---------------------------------------------------------------------------
  // str(n) for integers

  predicate IsDigit(c: char) {
    '0' <= c <= '9'
  }

  function DigitChar(d: nat): (c: char)
    requires d < 10
    ensures IsDigit(c) && c as int - '0' as int == d
  {
    (d + '0' as int) as char
  }

  /** Decimal digits of `n`, most significant first, without leading zeros. */
  function NatToString(n: nat): (r: string)
    ensures r != []
    ensures forall i :: 0 <= i < |r| ==> IsDigit(r[i])
    ensures r[0] == '0' ==> n == 0
  {
    if n < 10 then [DigitChar(n)] else NatToString(n / 10) + [DigitChar(n % 10)]
  }

  function DigitValue(c: char): nat
    requires IsDigit(c)
  {
    c as int - '0' as int
  }

  /** The value of a string of decimal digits. */
  function DigitsValue(s: string): nat
    requires forall i :: 0 <= i < |s| ==> IsDigit(s[i])
  {
    if s == [] then 0 else DigitsValue(s[..|s| - 1]) * 10 + DigitValue(s[|s| - 1])
  }

  /** Reading the digits back gives the number. */
  lemma {:induction false} NatToStringValue(n: nat)
    ensures DigitsValue(NatToString(n)) == n
  {
    if n >= 10 {
      var r := NatToString(n);
      assert r[..|r| - 1] == NatToString(n / 10);
      NatToStringValue(n / 10);
    }
  }

  /** Python's `str(i)`: decimal, with a minus sign when negative. */
  function IntToString(i: int): (r: string)
    ensures r != []
  {
    if i < 0 then "-" + NatToString(-i) else NatToString(i)
  }

  // ---------------------------------------------------------------------------
  // The order `sorted` uses on names: code point by code point

  /** `a < b` on Python strings. */
  predicate LexLess(a: string, b: string)
    decreases |a|
  {
    b != [] && (a == [] || a[0] < b[0] || (a[0] == b[0] && LexLess(a[1..], b[1..])))
  }

  lemma {:induction false} LexLessIrreflexive(a: string)
    ensures !LexLess(a, a)
    decreases |a|
  {
    if a != [] {
      LexLessIrreflexive(a[1..]);
    }
  }

  lemma {:induction false} LexLessTransitive(a: string, b: string, c: string)
    requires LexLess(a, b) && LexLess(b, c)
    ensures LexLess(a, c)
    decreases |a|
  {
    if a != [] && a[0] == b[0] && b[0] == c[0] {
      LexLessTransitive(a[1..], b[1..], c[1..]);
    }
  }

  lemma {:induction false} LexLessTotal(a: string, b: string)
    requires a != b
    ensures LexLess(a, b) || LexLess(b, a)
    decreases |a|
  {
    if a != [] && b != [] && a[0] == b[0] {
      assert a == [a[0]] + a[1..] && b == [b[0]] + b[1..];
      LexLessTotal(a[1..], b[1..]);
    }
  }
}
