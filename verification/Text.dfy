/**
 The string operations the source builds its checks from, and the lemmas that
 relate a test on characters to a test on the parts between separators.
 */
module Text {

  predicate IsSpace(c: char) {
    c == ' ' || '\t' <= c <= '\r' || '\U{1c}' <= c <= '\U{1f}'
  }

  function StripLeft(s: string): (r: string)
    ensures r == [] || !IsSpace(r[0])
  {
    if s != [] && IsSpace(s[0]) then StripLeft(s[1..]) else s
  }

  function StripRight(s: string): (r: string)
    ensures r <= s && (r == [] || !IsSpace(r[|r| - 1]))
  {
    if s != [] && IsSpace(s[|s| - 1]) then StripRight(s[..|s| - 1]) else s
  }

  function Strip(s: string): (r: string)
    ensures r == [] || (!IsSpace(r[0]) && !IsSpace(r[|r| - 1]))
  {
    StripRight(StripLeft(s))
  }

  function LowerChar(c: char): char {
    if 'A' <= c <= 'Z' then (c as int + 32) as char else c
  }

  function Lower(s: string): string {
    seq(|s|, i requires 0 <= i < |s| => LowerChar(s[i]))
  }

  function Replace(s: string, from: char, to: char): string {
    seq(|s|, i requires 0 <= i < |s| => if s[i] == from then to else s[i])
  }

  /** Removes every trailing `c`. */
  function TrimEnd(s: string, c: char): (r: string)
    ensures r <= s && (r == [] || r[|r| - 1] != c)
  {
    if s != [] && s[|s| - 1] == c then TrimEnd(s[..|s| - 1], c) else s
  }

  function Split(s: string, sep: char): (parts: seq<string>)
    ensures parts != []
  {
    if s == [] then [[]]
    else
      var rest := Split(s[1..], sep);
      if s[0] == sep then [[]] + rest else [[s[0]] + rest[0]] + rest[1..]
  }

  function Join(parts: seq<string>, sep: char): string {
    if parts == [] then []
    else if |parts| == 1 then parts[0]
    else parts[0] + [sep] + Join(parts[1..], sep)
  }

  // ----- stripping and case -----

  predicate AllSpace(s: string) {
    forall i :: 0 <= i < |s| ==> IsSpace(s[i])
  }

  predicate Bare(s: string) {
    s == "" || (!IsSpace(s[0]) && !IsSpace(s[|s| - 1]))
  }

  lemma SpaceIs(c: char)
    ensures IsSpace(c) <==> c in " \t\n\r" || c as int in [11, 12, 28, 29, 30, 31]
  {
  }

  lemma {:induction false} StripLeftOf(before: string, s: string)
    requires AllSpace(before) && (s == "" || !IsSpace(s[0]))
    ensures StripLeft(before + s) == s
  {
    if before == "" {
      assert before + s == s;
    } else {
      StripLeftOf(before[1..], s);
      assert (before + s)[1..] == before[1..] + s;
    }
  }

  lemma {:induction false} StripRightOf(s: string, after: string)
    requires AllSpace(after) && (s == "" || !IsSpace(s[|s| - 1]))
    ensures StripRight(s + after) == s
  {
    if after == "" {
      assert s + after == s;
    } else {
      StripRightOf(s, after[..|after| - 1]);
      assert (s + after)[..|s + after| - 1] == s + after[..|after| - 1];
    }
  }

  /** Stripping takes away exactly the whitespace around a text. */
  lemma StripIs(before: string, s: string, after: string)
    requires AllSpace(before) && Bare(s) && AllSpace(after)
    ensures Strip(before + s + after) == s
  {
    if s == "" {
      assert before + s + after == (before + after) + "";
      StripLeftOf(before + after, "");
    } else {
      assert before + s + after == before + (s + after);
      StripLeftOf(before, s + after);
      StripRightOf(s, after);
    }
  }

  /** The letters A to Z, and nothing else, become their lower-case letters. */
  lemma LowerIs(s: string)
    ensures |Lower(s)| == |s|
    ensures forall i :: 0 <= i < |s| ==>
              if 'A' <= s[i] <= 'Z' then Lower(s)[i] as int - 'a' as int == s[i] as int - 'A' as int
              else Lower(s)[i] == s[i]
  {
  }

  /** Only, and all, trailing separators are trimmed. */
  lemma {:induction false} TrimEndIs(s: string, n: nat, c: char)
    requires s == "" || s[|s| - 1] != c
    ensures TrimEnd(s + seq(n, i => c), c) == s
  {
    if n == 0 {
      assert s + seq(n, i => c) == s;
    } else {
      TrimEndIs(s, n - 1, c);
      assert (s + seq(n, i => c))[..|s| + n - 1] == s + seq(n - 1, i => c);
    }
  }

  // ----- splitting and joining -----

  lemma {:induction false} JoinSplit(s: string, sep: char)
    ensures Join(Split(s, sep), sep) == s
  {
    if s != [] {
      JoinSplit(s[1..], sep);
      var rest := Split(s[1..], sep);
      var parts := Split(s, sep);
      if s[0] == sep {
        assert parts[1..] == rest;
      } else {
        assert parts[1..] == rest[1..];
      }
    }
  }

  lemma SplitCons(c: char, s: string, sep: char)
    ensures Split([c] + s, sep)
         == if c == sep then [[]] + Split(s, sep) else [[c] + Split(s, sep)[0]] + Split(s, sep)[1..]
  {
  }

  lemma SplitExtends(c: char, x: string, z: string, tail: seq<string>, sep: char)
    requires Split(z, sep) == Split(x, sep) + tail
    ensures Split([c] + z, sep) == Split([c] + x, sep) + tail
  {
  }

  lemma {:induction false} SplitAround(x: string, y: string, sep: char)
    ensures Split(x + ([sep] + y), sep) == Split(x, sep) + Split(y, sep)
  {
    if x == [] {
      SplitCons(sep, y, sep);
      assert x + ([sep] + y) == [sep] + y;
    } else {
      SplitAround(x[1..], y, sep);
      SplitExtends(x[0], x[1..], x[1..] + ([sep] + y), Split(y, sep), sep);
      assert x == [x[0]] + x[1..];
      assert x + ([sep] + y) == [x[0]] + (x[1..] + ([sep] + y));
    }
  }

  lemma Associative(a: string, b: string, c: string)
    ensures a + b + c == a + (b + c)
  {
  }

  lemma {:induction false} JoinConcat(a: seq<string>, b: seq<string>, sep: char)
    requires a != [] && b != []
    ensures Join(a + b, sep) == Join(a, sep) + [sep] + Join(b, sep)
  {
    if |a| == 1 {
      assert (a + b)[1..] == b;
    } else {
      JoinConcat(a[1..], b, sep);
      assert (a + b)[1..] == a[1..] + b;
    }
  }

  predicate StartsWith(s: string, p: string) { p <= s }

  predicate EndsWith(s: string, p: string) {
    |p| <= |s| && s[|s| - |p|..] == p
  }

  /** `parts` ends with the list `tail`. */
  predicate ListSuffix(tail: seq<string>, parts: seq<string>) {
    |tail| <= |parts| && parts[|parts| - |tail|..] == tail
  }

  /** "Equal, or continues after a separator" is exactly "the parts are a prefix of the parts". */
  lemma PrefixIsPartsPrefix(p: string, s: string, sep: char)
    ensures (s == p || StartsWith(s, p + [sep])) <==> Split(p, sep) <= Split(s, sep)
  {
    if StartsWith(s, p + [sep]) {
      var rest := s[|p| + 1..];
      assert s == p + ([sep] + rest);
      SplitAround(p, rest, sep);
    }
    if Split(p, sep) <= Split(s, sep) {
      JoinOfExtension(p, s, Split(s, sep)[|Split(p, sep)|..], sep);
    }
  }

  lemma JoinOfExtension(p: string, s: string, rest: seq<string>, sep: char)
    requires Split(s, sep) == Split(p, sep) + rest
    ensures s == p || s == p + [sep] + Join(rest, sep)
  {
    JoinSplit(s, sep);
    JoinSplit(p, sep);
    if rest == [] {
      assert Split(s, sep) == Split(p, sep);
    } else {
      JoinConcat(Split(p, sep), rest, sep);
    }
  }

  lemma SplitOfEnding(p: string, s: string, sep: char)
    requires EndsWith(s, [sep] + p)
    ensures ListSuffix(Split(p, sep), Split(s, sep))
  {
    var front := s[..|s| - |p| - 1];
    assert s == front + ([sep] + p);
    SplitAround(front, p, sep);
  }

  lemma JoinOfEnding(p: string, s: string, front: seq<string>, sep: char)
    requires Split(s, sep) == front + Split(p, sep)
    ensures s == p || EndsWith(s, [sep] + p)
  {
    JoinSplit(s, sep);
    JoinSplit(p, sep);
    if front == [] {
      assert Split(s, sep) == Split(p, sep);
    } else {
      JoinConcat(front, Split(p, sep), sep);
      Associative(Join(front, sep), [sep], p);
      EndsWithTail(Join(front, sep), [sep] + p);
    }
  }

  lemma EndsWithTail(x: string, y: string)
    ensures EndsWith(x + y, y)
  {
  }

  lemma FrontOf(tail: seq<string>, parts: seq<string>)
    requires ListSuffix(tail, parts)
    ensures parts == parts[..|parts| - |tail|] + tail
  {
  }

  lemma SuffixOfParts(p: string, s: string, sep: char)
    requires ListSuffix(Split(p, sep), Split(s, sep))
    ensures s == p || EndsWith(s, [sep] + p)
  {
    var parts, tail := Split(s, sep), Split(p, sep);
    FrontOf(tail, parts);
    JoinOfEnding(p, s, parts[..|parts| - |tail|], sep);
  }

  /** "Equal, or ends after a separator" is exactly "the parts are a suffix of the parts". */
  lemma SuffixIsPartsSuffix(p: string, s: string, sep: char)
    ensures (s == p || EndsWith(s, [sep] + p)) <==> ListSuffix(Split(p, sep), Split(s, sep))
  {
    if EndsWith(s, [sep] + p) { SplitOfEnding(p, s, sep); }
    if ListSuffix(Split(p, sep), Split(s, sep)) { SuffixOfParts(p, s, sep); }
  }

  predicate SepFree(s: string, sep: char) { sep !in s }

  lemma {:induction false} SplitPlain(s: string, sep: char)
    requires SepFree(s, sep)
    ensures Split(s, sep) == [s]
  {
    if s != [] {
      SplitPlain(s[1..], sep);
      assert [s[0]] + s[1..] == s;
    }
  }

  lemma {:induction false} SplitJoin(parts: seq<string>, sep: char)
    requires parts != [] && forall i :: 0 <= i < |parts| ==> SepFree(parts[i], sep)
    ensures Split(Join(parts, sep), sep) == parts
  {
    if |parts| == 1 {
      SplitPlain(parts[0], sep);
    } else {
      SplitJoin(parts[1..], sep);
      SplitAround(parts[0], Join(parts[1..], sep), sep);
      Associative(parts[0], [sep], Join(parts[1..], sep));
      SplitPlain(parts[0], sep);
      assert [parts[0]] + parts[1..] == parts;
    }
  }

  lemma {:induction false} SplitPartsAreSepFree(s: string, sep: char, i: nat)
    requires i < |Split(s, sep)|
    ensures SepFree(Split(s, sep)[i], sep)
  {
    if s != [] {
      var rest := Split(s[1..], sep);
      if s[0] == sep {
        if i > 0 { SplitPartsAreSepFree(s[1..], sep, i - 1); }
      } else {
        SplitPartsAreSepFree(s[1..], sep, i);
      }
    }
  }

  // ----- POSIX paths -----

  /** Empty and "." components vanish when a path is parsed. */
  function DropIdle(parts: seq<string>): (kept: seq<string>)
    ensures forall i :: 0 <= i < |kept| ==> kept[i] in parts && kept[i] != "" && kept[i] != "."
  {
    if parts == [] then []
    else
      var rest := DropIdle(parts[1..]);
      if parts[0] == "" || parts[0] == "." then rest else [parts[0]] + rest
  }

  /** The components of a relative path. */
  function PathParts(path: string): seq<string> {
    DropIdle(Split(path, '/'))
  }

  /** Every other component stays. */
  lemma {:induction false} DropIdleKeeps(parts: seq<string>, i: nat)
    requires i < |parts| && parts[i] != "" && parts[i] != "."
    ensures parts[i] in DropIdle(parts)
  {
    if i > 0 { DropIdleKeeps(parts[1..], i - 1); }
  }

  lemma {:induction false} InPathParts(path: string, part: string)
    ensures part in PathParts(path) <==> part in Split(path, '/') && part != "" && part != "."
  {
    var parts := Split(path, '/');
    if part in parts && part != "" && part != "." {
      var i :| 0 <= i < |parts| && parts[i] == part;
      DropIdleKeeps(parts, i);
    }
    if part in PathParts(path) {
      var i :| 0 <= i < |PathParts(path)| && PathParts(path)[i] == part;
      assert PathParts(path)[i] in parts;
    }
  }

  /** What stays of one component. */
  function KeptOf(part: string): seq<string> { if part == "" || part == "." then [] else [part] }

  lemma DropIdleCons(part: string, parts: seq<string>)
    ensures DropIdle([part] + parts) == KeptOf(part) + DropIdle(parts)
  {
  }

  lemma ListsAssociate(a: seq<string>, b: seq<string>, c: seq<string>)
    ensures a + b + c == a + (b + c)
  {
  }

  lemma {:induction false} DropIdleConcat(a: seq<string>, b: seq<string>)
    ensures DropIdle(a + b) == DropIdle(a) + DropIdle(b)
  {
    if a == [] {
      assert a + b == b;
    } else {
      var part, rest := a[0], a[1..];
      DropIdleConcat(rest, b);
      DropIdleCons(part, rest);
      DropIdleCons(part, rest + b);
      ListsAssociate([part], rest, b);
      ListsAssociate(KeptOf(part), DropIdle(rest), DropIdle(b));
      assert a == [part] + rest;
    }
  }

  /** A path is rebuilt from its components, and the components are what the rebuilt path splits into. */
  lemma PathPartsRebuild(path: string)
    requires PathParts(path) != []
    ensures Split(Join(PathParts(path), '/'), '/') == PathParts(path)
  {
    var parts := PathParts(path);
    forall i | 0 <= i < |parts| ensures SepFree(parts[i], '/') {
      var k :| 0 <= k < |Split(path, '/')| && Split(path, '/')[k] == parts[i];
      SplitPartsAreSepFree(path, '/', k);
    }
    SplitJoin(parts, '/');
  }
}
