/** The parts of Go's `strings` package that the modelled code relies on.
    A string is a sequence of characters, one character per Go rune. */
module Text {

  /** The characters Go's `unicode.IsSpace` accepts. */
  const Spaces: set<char> := {' ', '\t', '\n', '\U{000B}', '\U{000C}', '\r', '\U{0085}', '\U{00A0}', '\U{1680}',
    '\U{2000}', '\U{2001}', '\U{2002}', '\U{2003}', '\U{2004}', '\U{2005}', '\U{2006}', '\U{2007}', '\U{2008}',
    '\U{2009}', '\U{200A}', '\U{2028}', '\U{2029}', '\U{202F}', '\U{205F}', '\U{3000}'}

  /** Go's `unicode.IsSpace`. */
  predicate IsSpace(c: char) {
    c in Spaces
  }

  /** The characters a trim removes: white space (`strings.TrimSpace`) or the
      characters of a cutset (`strings.Trim`). */
  datatype Cutset = WhiteSpace | Chars(chars: string)

  predicate Cuts(cut: Cutset, c: char) {
    match cut
    case WhiteSpace => IsSpace(c)
    case Chars(chars) => c in chars
  }

  /** Drops the longest prefix of characters in the cutset. */
  function TrimLeft(s: string, cut: Cutset): (r: string)
    ensures |r| <= |s|
  {
    if s != [] && Cuts(cut, s[0]) then TrimLeft(s[1..], cut) else s
  }

  /** Drops the longest suffix of characters in the cutset. */
  function TrimRight(s: string, cut: Cutset): (r: string)
    ensures |r| <= |s|
  {
    if s != [] && Cuts(cut, s[|s| - 1]) then TrimRight(s[..|s| - 1], cut) else s
  }

  /** `strings.TrimSpace`. */
  function TrimSpace(s: string): (r: string)
    ensures |r| <= |s|
  {
    TrimRight(TrimLeft(s, WhiteSpace), WhiteSpace)
  }

  /** `strings.Trim`: removes leading and trailing characters contained in `cutset`. */
  function Trim(s: string, cutset: string): (r: string)
    ensures |r| <= |s|
  {
    TrimRight(TrimLeft(s, Chars(cutset)), Chars(cutset))
  }

  /** What TrimLeft removes is all in the cutset, and what it keeps does not
      start with such a character. */
  lemma {:induction false} TrimLeftMaximal(s: string, cut: Cutset)
    ensures var r := TrimLeft(s, cut);
      (r == [] || !Cuts(cut, r[0])) && forall k :: 0 <= k < |s| - |r| ==> Cuts(cut, s[k])
  {
    if s != [] && Cuts(cut, s[0]) {
      TrimLeftMaximal(s[1..], cut);
      var r := TrimLeft(s, cut);
      forall k | 0 <= k < |s| - |r| ensures Cuts(cut, s[k]) {
        if k > 0 {
          assert s[k] == s[1..][k - 1];
        }
      }
    }
  }

  /** What TrimRight removes is all in the cutset, and what it keeps does not
      end with such a character. */
  lemma {:induction false} TrimRightMaximal(s: string, cut: Cutset)
    ensures var r := TrimRight(s, cut);
      (r == [] || !Cuts(cut, r[|r| - 1])) && forall k :: |r| <= k < |s| ==> Cuts(cut, s[k])
  {
    if s != [] && Cuts(cut, s[|s| - 1]) {
      TrimRightMaximal(s[..|s| - 1], cut);
      var r := TrimRight(s, cut);
      forall k | |r| <= k < |s| ensures Cuts(cut, s[k]) {
        if k < |s| - 1 {
          assert s[k] == s[..|s| - 1][k];
        }
      }
    }
  }

  /** TrimLeft keeps a suffix of its input. */
  lemma {:induction false} TrimLeftSuffix(s: string, cut: Cutset)
    ensures TrimLeft(s, cut) == s[|s| - |TrimLeft(s, cut)|..]
  {
    if s != [] && Cuts(cut, s[0]) {
      TrimLeftSuffix(s[1..], cut);
    }
  }

  /** TrimRight keeps a prefix of its input. */
  lemma {:induction false} TrimRightPrefix(s: string, cut: Cutset)
    ensures TrimRight(s, cut) == s[..|TrimRight(s, cut)|]
  {
    if s != [] && Cuts(cut, s[|s| - 1]) {
      TrimRightPrefix(s[..|s| - 1], cut);
    }
  }

  /** Trimming at both ends leaves text that neither starts nor ends with a
      character of the cutset. */
  lemma TrimEnds(s: string, cut: Cutset)
    ensures var r := TrimRight(TrimLeft(s, cut), cut);
      r == [] || (!Cuts(cut, r[0]) && !Cuts(cut, r[|r| - 1]))
  {
    var l := TrimLeft(s, cut);
    TrimLeftMaximal(s, cut);
    TrimRightMaximal(l, cut);
    var r := TrimRight(l, cut);
    TrimRightPrefix(l, cut);
    if r != [] {
      assert r[0] == l[0];
    }
  }

  /** `strings.Split` on a one-character separator. */
  function Split(s: string, sep: char): (r: seq<string>)
    ensures |r| >= 1
    ensures forall k :: 0 <= k < |r| ==> sep !in r[k]
  {
    if s == [] then [""]
    else
      var rest := Split(s[1..], sep);
      if s[0] == sep then [""] + rest else [[s[0]] + rest[0]] + rest[1..]
  }

  /** `strings.Join`. */
  function Join(parts: seq<string>, sep: string): string {
    if |parts| == 0 then ""
    else if |parts| == 1 then parts[0]
    else parts[0] + sep + Join(parts[1..], sep)
  }

  lemma JoinConsChar(c: char, head: string, tail: seq<string>, sep: string)
    ensures Join([[c] + head] + tail, sep) == [c] + Join([head] + tail, sep)
  {
    if |tail| > 0 {
      assert ([[c] + head] + tail)[1..] == tail;
      assert ([head] + tail)[1..] == tail;
    }
  }

  /** Joining the pieces of a split with the separator gives back the text. */
  lemma {:induction false} JoinSplit(s: string, sep: char)
    ensures Join(Split(s, sep), [sep]) == s
  {
    if s != [] {
      JoinSplit(s[1..], sep);
      var rest := Split(s[1..], sep);
      if s[0] == sep {
        assert ([""] + rest)[1..] == rest;
        assert s == [sep] + s[1..];
      } else {
        JoinConsChar(s[0], rest[0], rest[1..], [sep]);
        assert [rest[0]] + rest[1..] == rest;
        assert s == [s[0]] + s[1..];
      }
    }
  }

  /** Text without the separator is a single piece. */
  lemma {:induction false} SplitWithoutSeparator(s: string, sep: char)
    requires sep !in s
    ensures Split(s, sep) == [s]
  {
    if s != [] {
      SplitWithoutSeparator(s[1..], sep);
      assert [s[0]] + s[1..] == s;
    }
  }

  /** Splitting stops the first piece at the first separator. */
  lemma {:induction false} SplitAtSeparator(a: string, sep: char, b: string)
    requires sep !in a
    ensures Split(a + [sep] + b, sep) == [a] + Split(b, sep)
  {
    var s := a + [sep] + b;
    if a == [] {
      assert s[1..] == b;
    } else {
      assert s[1..] == a[1..] + [sep] + b;
      SplitAtSeparator(a[1..], sep, b);
      assert [a[0]] + a[1..] == a;
    }
  }

  /** Splitting pieces joined by the separator gives them back: the converse
      of JoinSplit. */
  lemma {:induction false} SplitJoin(parts: seq<string>, sep: char)
    requires |parts| >= 1 && forall k :: 0 <= k < |parts| ==> sep !in parts[k]
    ensures Split(Join(parts, [sep]), sep) == parts
  {
    if |parts| == 1 {
      SplitWithoutSeparator(parts[0], sep);
    } else {
      SplitJoin(parts[1..], sep);
      SplitAtSeparator(parts[0], sep, Join(parts[1..], [sep]));
      assert [parts[0]] + parts[1..] == parts;
    }
  }

  /** Length of the longest prefix of `s` that holds no white space. */
  function WordLength(s: string): (n: nat)
    ensures n <= |s|
    ensures forall k :: 0 <= k < n ==> !IsSpace(s[k])
    ensures n == |s| || IsSpace(s[n])
  {
    if s == [] || IsSpace(s[0]) then 0 else 1 + WordLength(s[1..])
  }

  /** A word: non-empty and free of white space. */
  predicate IsWord(w: string) {
    w != [] && forall k :: 0 <= k < |w| ==> !IsSpace(w[k])
  }

  /** Every field is a word. */
  lemma {:induction false} FieldsAreWords(s: string)
    ensures forall k :: 0 <= k < |Fields(s)| ==> IsWord(Fields(s)[k])
    decreases |s|
  {
    if s != [] {
      if IsSpace(s[0]) {
        FieldsAreWords(s[1..]);
      } else {
        var n := WordLength(s);
        FieldsAreWords(s[n..]);
        assert IsWord(s[..n]);
      }
    }
  }

  /** `strings.Fields`: the maximal runs of non-space characters, in order. */
  function Fields(s: string): (r: seq<string>)
    decreases |s|
  {
    if s == [] then []
    else if IsSpace(s[0]) then Fields(s[1..])
    else
      var n := WordLength(s);
      [s[..n]] + Fields(s[n..])
  }

  lemma {:induction false} WordLengthAppend(a: string, x: string)
    ensures WordLength(a + x) == if WordLength(a) < |a| then WordLength(a) else |a| + WordLength(x)
  {
    if a == [] {
      assert a + x == x;
    } else if IsSpace(a[0]) {
      assert (a + x)[0] == a[0];
    } else {
      assert (a + x)[0] == a[0];
      assert (a + x)[1..] == a[1..] + x;
      WordLengthAppend(a[1..], x);
    }
  }

  /** Leading white space does not change the fields. */
  lemma FieldsSkip(s: string)
    requires s != [] && IsSpace(s[0])
    ensures Fields(s) == Fields(s[1..])
  {
  }

  /** Text that starts with a word yields that word, then the fields of the rest. */
  lemma FieldsWordStart(s: string)
    requires s != [] && !IsSpace(s[0])
    ensures WordLength(s) >= 1
    ensures Fields(s) == [s[..WordLength(s)]] + Fields(s[WordLength(s)..])
  {
  }

  /** A white-space character separates the fields on either side of it. */
  lemma {:induction false} FieldsAppendSpace(a: string, c: char, b: string)
    requires IsSpace(c)
    ensures Fields(a + [c] + b) == Fields(a) + Fields(b)
    decreases |a|
  {
    var s := a + [c] + b;
    if a == [] {
      assert s == [c] + b;
      FieldsSkip(s);
      assert s[1..] == b;
    } else if IsSpace(a[0]) {
      FieldsSkip(s);
      FieldsSkip(a);
      assert s[1..] == a[1..] + [c] + b;
      FieldsAppendSpace(a[1..], c, b);
    } else {
      FieldsAfterWord(a, c, b);
    }
  }

  lemma {:induction false} FieldsAfterWord(a: string, c: char, b: string)
    requires IsSpace(c) && a != [] && !IsSpace(a[0])
    ensures Fields(a + [c] + b) == Fields(a) + Fields(b)
    decreases |a|, 1
  {
    if WordLength(a) < |a| {
      PartialWordThenSpace(a, c, b);
    } else {
      WholeWordThenSpace(a, c, b);
    }
  }

  lemma {:induction false} PartialWordThenSpace(a: string, c: char, b: string)
    requires IsSpace(c) && a != [] && !IsSpace(a[0]) && WordLength(a) < |a|
    ensures Fields(a + [c] + b) == Fields(a) + Fields(b)
    decreases |a|, 0
  {
    var s := a + [c] + b;
    var w := WordLength(a);
    WordLengthAppend(a, [c] + b);
    assert s == a + ([c] + b);
    assert s[0] == a[0];
    FieldsWordStart(s);
    FieldsWordStart(a);
    assert s[w..] == a[w..] + [c] + b;
    assert s[..w] == a[..w];
    FieldsAppendSpace(a[w..], c, b);
    calc {
      Fields(s);
      [a[..w]] + Fields(a[w..] + [c] + b);
      [a[..w]] + (Fields(a[w..]) + Fields(b));
      ([a[..w]] + Fields(a[w..])) + Fields(b);
    }
  }

  lemma WholeWordThenSpace(a: string, c: char, b: string)
    requires IsSpace(c) && a != [] && WordLength(a) == |a|
    ensures Fields(a + [c] + b) == Fields(a) + Fields(b)
  {
    var s := a + [c] + b;
    WordLengthAppend(a, [c] + b);
    assert s == a + ([c] + b);
    assert WordLength(s) == |a|;
    assert s[..|a|] == a;
    assert s[|a|..] == [c] + b;
    assert ([c] + b)[1..] == b;
    assert Fields([c] + b) == Fields(b);
    assert a[..|a|] == a && a[|a|..] == [];
    assert Fields(a) == [a];
  }

  /** A single word is its own only field. */
  lemma FieldsOfWord(w: string)
    requires IsWord(w)
    ensures Fields(w) == [w]
  {
    assert WordLength(w) == |w|;
    assert w[..|w|] == w;
    assert Fields(w[|w|..]) == [];
  }

  /** Splitting words joined by single spaces into fields gives the words back. */
  lemma {:induction false} FieldsOfJoin(words: seq<string>)
    requires forall k :: 0 <= k < |words| ==> IsWord(words[k])
    ensures Fields(Join(words, " ")) == words
  {
    if |words| == 1 {
      FieldsOfWord(words[0]);
    } else if |words| > 1 {
      FieldsOfJoin(words[1..]);
      FieldsOfWord(words[0]);
      FieldsAppendSpace(words[0], ' ', Join(words[1..], " "));
      assert [words[0]] + words[1..] == words;
    }
  }

  /** The number of bytes Go's UTF-8 encoding of `c` takes. */
  function RuneLength(c: char): (n: nat)
    ensures 1 <= n <= 4
    ensures n == 1 <==> (c as int) < 0x80
  {
    if (c as int) < 0x80 then 1
    else if (c as int) < 0x800 then 2
    else if (c as int) < 0x10000 then 3
    else 4
  }

  /** Go's `len` of a string: its length in UTF-8 bytes. It is never less
      than the number of characters, and equal to it for ASCII text. */
  function ByteLength(s: string): (n: nat)
    ensures n >= |s|
    ensures (forall k :: 0 <= k < |s| ==> (s[k] as int) < 0x80) <==> n == |s|
  {
    if s == [] then 0 else ByteLength(s[..|s| - 1]) + RuneLength(s[|s| - 1])
  }

  /** `strings.HasPrefix`. */
  predicate HasPrefix(s: string, prefix: string) {
    |prefix| <= |s| && s[..|prefix|] == prefix
  }

  /** `sep` occurs in `s` starting at position `k`. */
  predicate MatchAt(s: string, sep: string, k: int) {
    0 <= k && k + |sep| <= |s| && s[k..k + |sep|] == sep
  }

  /** The first position at or after `from` at which `sep` occurs in `s`, or -1. */
  function IndexFrom(s: string, sep: string, from: nat): (r: int)
    ensures r == -1 || (from <= r && MatchAt(s, sep, r))
    ensures forall k :: from <= k && (r == -1 || k < r) ==> !MatchAt(s, sep, k)
    decreases |s| - from
  {
    if from + |sep| > |s| then -1
    else if s[from..from + |sep|] == sep then from
    else IndexFrom(s, sep, from + 1)
  }

  /** `strings.Index`: the first position at which `sep` occurs in `s`, or -1. */
  function Index(s: string, sep: string): int {
    IndexFrom(s, sep, 0)
  }

  /** `strings.Contains`. */
  predicate Contains(s: string, sub: string) {
    sub == [] || Index(s, sub) >= 0
  }

  /** A non-empty `sub` is contained in `s` exactly when it occurs at some
      position. */
  lemma ContainsMatch(s: string, sub: string, k: int)
    requires sub != []
    ensures MatchAt(s, sub, k) ==> Contains(s, sub)
    ensures Contains(s, sub) ==> MatchAt(s, sub, Index(s, sub))
  {
  }

  /** `strings.SplitN` for a positive count: at most `n` pieces, the last one
      holding the unsplit rest. */
  function SplitN(s: string, sep: string, n: nat): (r: seq<string>)
    requires sep != [] && n >= 1
    ensures 1 <= |r| <= n
    ensures Join(r, sep) == s
    decreases n
  {
    if n == 1 then [s]
    else
      var i := Index(s, sep);
      if i < 0 then [s]
      else
        var rest := SplitN(s[i + |sep|..], sep, n - 1);
        JoinCons(s[..i], rest, sep);
        MatchSplits(s, sep, i);
        [s[..i]] + rest
  }

  /** A piece put in front of at least one other is joined with a separator. */
  lemma JoinCons(head: string, rest: seq<string>, sep: string)
    requires |rest| >= 1
    ensures Join([head] + rest, sep) == head + sep + Join(rest, sep)
  {
    assert ([head] + rest)[1..] == rest;
  }

  /** An occurrence of `sep` cuts `s` into what is before it, `sep` and what
      follows. */
  lemma MatchSplits(s: string, sep: string, i: int)
    requires MatchAt(s, sep, i)
    ensures s == s[..i] + sep + s[i + |sep|..]
  {
    assert s[..i] + s[i..i + |sep|] + s[i + |sep|..] == s;
  }
}
