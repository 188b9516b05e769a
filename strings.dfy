/** `String.prototype.split` on a one-character separator and its inverse,
    joining parts with that separator (used both for a URL's file extension and
    for reading a shell command line as its list of arguments). */
module Strings {

  /** The parts joined with `sep` between each pair. */
  function Join(parts: seq<string>, sep: char): string
    requires |parts| >= 1
  {
    if |parts| == 1 then parts[0] else Join(parts[..|parts| - 1], sep) + [sep] + parts[|parts| - 1]
  }

  /** `s.split(sep)`: the maximal runs of `s` between separators, in order; there
      is always at least one part. */
  function Split(s: string, sep: char): (parts: seq<string>)
    ensures |parts| >= 1
    decreases |s|
  {
    if s == [] then [[]]
    else
      var init := Split(s[..|s| - 1], sep);
      if s[|s| - 1] == sep then init + [[]]
      else init[..|init| - 1] + [init[|init| - 1] + [s[|s| - 1]]]
  }

  /** Concatenation is associative (used to regroup text built piece by piece). */
  lemma ConcatAssoc<T>(a: seq<T>, b: seq<T>, c: seq<T>)
    ensures a + (b + c) == a + b + c
  {
  }

  /** Joining one more part adds a separator and the part. */
  lemma JoinSnoc(parts: seq<string>, part: string, sep: char)
    requires |parts| >= 1
    ensures Join(parts + [part], sep) == Join(parts, sep) + [sep] + part
  {
    assert (parts + [part])[..|parts|] == parts;
  }

  /** Lengthening the last part lengthens the joined text by the same. */
  lemma JoinExtendLast(parts: seq<string>, c: char, sep: char)
    requires |parts| >= 1
    ensures var k := |parts| - 1;
            Join(parts[..k] + [parts[k] + [c]], sep) == Join(parts, sep) + [c]
  {
    var k := |parts| - 1;
    var q := parts[..k] + [parts[k] + [c]];
    if k > 0 {
      assert q[..k] == parts[..k];
    }
  }

  /** Joining what `Split` cut gives back the original string. */
  lemma {:induction false} JoinSplit(s: string, sep: char)
    ensures Join(Split(s, sep), sep) == s
    decreases |s|
  {
    if s != [] {
      var s' := s[..|s| - 1];
      var c := s[|s| - 1];
      assert s == s' + [c];
      JoinSplit(s', sep);
      if c == sep {
        SplitSnocSep(s', sep);
        JoinSnoc(Split(s', sep), [], sep);
      } else {
        SplitSnocPlain(s', c, sep);
        JoinExtendLast(Split(s', sep), c, sep);
      }
    }
  }

  /** A separator starts a new, empty part. */
  lemma SplitSnocSep(u: string, sep: char)
    ensures Split(u + [sep], sep) == Split(u, sep) + [[]]
  {
    assert (u + [sep])[..|u|] == u;
  }

  /** Any other character lengthens the last part. */
  lemma SplitSnocPlain(u: string, c: char, sep: char)
    requires c != sep
    ensures var p := Split(u, sep);
            Split(u + [c], sep) == p[..|p| - 1] + [p[|p| - 1] + [c]]
  {
    assert (u + [c])[..|u|] == u;
  }

  /** Replacing the last element and then extending it is one replacement. */
  lemma ReplaceLastTwice(p: seq<string>, x: string, c: char)
    requires |p| >= 1
    ensures var init := p[..|p| - 1] + [x];
            init[..|init| - 1] + [init[|init| - 1] + [c]] == p[..|p| - 1] + [x + [c]]
  {
    var init := p[..|p| - 1] + [x];
    assert init[..|init| - 1] == p[..|p| - 1];
  }

  /** Appending separator-free text only lengthens the last part. */
  lemma {:induction false} SplitAppendPlain(s: string, t: string, sep: char)
    requires sep !in t
    ensures var p := Split(s, sep);
            Split(s + t, sep) == p[..|p| - 1] + [p[|p| - 1] + t]
    decreases |t|
  {
    var p := Split(s, sep);
    if t == [] {
      assert s + t == s;
      assert p[|p| - 1] + t == p[|p| - 1];
      assert p == p[..|p| - 1] + [p[|p| - 1]];
    } else {
      var t' := t[..|t| - 1];
      var c := t[|t| - 1];
      assert c in t;
      assert t == t' + [c];
      assert s + t == (s + t') + [c];
      SplitAppendPlain(s, t', sep);
      SplitSnocPlain(s + t', c, sep);
      ReplaceLastTwice(p, p[|p| - 1] + t', c);
      assert p[|p| - 1] + t' + [c] == p[|p| - 1] + t;
    }
  }

  /** Splitting parts that were joined gives back the parts, provided none of
      them contains the separator. */
  lemma {:induction false} SplitJoin(parts: seq<string>, sep: char)
    requires |parts| >= 1
    requires forall i :: 0 <= i < |parts| ==> sep !in parts[i]
    ensures Split(Join(parts, sep), sep) == parts
    decreases |parts|
  {
    if |parts| == 1 {
      SplitAppendPlain([], parts[0], sep);
      assert [] + parts[0] == parts[0];
    } else {
      var init := parts[..|parts| - 1];
      var last := parts[|parts| - 1];
      SplitJoin(init, sep);
      SplitJoinSnoc(init, last, sep);
      assert parts == init + [last];
    }
  }

  /** One more separator-free part survives the round trip. */
  lemma SplitJoinSnoc(init: seq<string>, last: string, sep: char)
    requires |init| >= 1 && sep !in last
    requires Split(Join(init, sep), sep) == init
    ensures Split(Join(init + [last], sep), sep) == init + [last]
  {
    var j := Join(init, sep) + [sep];
    SplitSnocSep(Join(init, sep), sep);
    SplitAppendPlain(j, last, sep);
    StartPart(init, last);
    JoinSnoc(init, last, sep);
  }

  /** Text appended after a separator becomes a part of its own. */
  lemma StartPart(init: seq<string>, last: string)
    ensures var q := init + [[]];
            q[..|q| - 1] + [q[|q| - 1] + last] == init + [last]
  {
    var q := init + [[]];
    assert q[..|q| - 1] == init;
    assert q[|q| - 1] + last == last;
  }

  /** Each word preceded by the separator: what joining adds after a first part. */
  function Prefixed(words: seq<string>, sep: char): string {
    if words == [] then [] else Prefixed(words[..|words| - 1], sep) + [sep] + words[|words| - 1]
  }

  /** One more word adds the separator and the word. */
  lemma PrefixedSnoc(words: seq<string>, word: string, sep: char)
    ensures Prefixed(words + [word], sep) == Prefixed(words, sep) + [sep] + word
  {
    assert (words + [word])[..|words|] == words;
  }

  /** Joining a longer list appends the new words, each after a separator. */
  lemma {:induction false} JoinPrefixed(parts: seq<string>, words: seq<string>, sep: char)
    requires |parts| >= 1
    ensures Join(parts + words, sep) == Join(parts, sep) + Prefixed(words, sep)
    decreases |words|
  {
    if words == [] {
      assert parts + words == parts;
    } else {
      var init := words[..|words| - 1];
      var last := words[|words| - 1];
      JoinPrefixed(parts, init, sep);
      ConcatAssoc(parts, init, [last]);
      assert init + [last] == words;
      JoinSnoc(parts + init, last, sep);
      PrefixedSnoc(init, last, sep);
      ConcatAssoc(Join(parts, sep), Prefixed(init, sep) + [sep], last);
      ConcatAssoc(Join(parts, sep), Prefixed(init, sep), [sep]);
    }
  }

  /** The text after the last separator of `s` (all of `s` when it has none). */
  function LastPart(s: string, sep: char): string
    decreases |s|
  {
    if s == [] then []
    else if s[|s| - 1] == sep then []
    else LastPart(s[..|s| - 1], sep) + [s[|s| - 1]]
  }

  /** `LastPart` is the last part of `s.split(sep)`. */
  lemma {:induction false} SplitLastPart(s: string, sep: char)
    ensures var p := Split(s, sep); p[|p| - 1] == LastPart(s, sep)
    decreases |s|
  {
    if s != [] {
      SplitLastPart(s[..|s| - 1], sep);
    }
  }

  /** The last part holds no separator and is a suffix of `s`. */
  lemma {:induction false} LastPartIsSuffix(s: string, sep: char)
    ensures var e := LastPart(s, sep);
            sep !in e && |e| <= |s| && e == s[|s| - |e|..]
    decreases |s|
  {
    if s != [] && s[|s| - 1] != sep {
      var s' := s[..|s| - 1];
      LastPartIsSuffix(s', sep);
      var e' := LastPart(s', sep);
      assert s[|s| - |e'| - 1..] == s'[|s'| - |e'|..] + [s[|s| - 1]];
    }
  }

  /** The last part is all of `s`, or it follows a separator. */
  lemma {:induction false} LastPartFollowsSeparator(s: string, sep: char)
    ensures var e := LastPart(s, sep);
            |e| <= |s| && (|e| == |s| || s[|s| - |e| - 1] == sep)
    decreases |s|
  {
    if s != [] && s[|s| - 1] != sep {
      var s' := s[..|s| - 1];
      LastPartFollowsSeparator(s', sep);
      var e' := LastPart(s', sep);
      if |e'| < |s'| {
        assert s[|s| - |e'| - 2] == s'[|s'| - |e'| - 1];
      }
    }
  }
}
