/**
 * The handful of Python `str` operations the synchroniser relies on,
 * written over `string` (a sequence of characters).
 *
 * Case mapping covers ASCII letters only; see README for what that leaves out.
 */
module Text {
  import opened Wrappers

  // ---------------------------------------------------------------------
  // Character classes
  // ---------------------------------------------------------------------

  predicate IsAsciiUpper(c: char) { 'A' <= c <= 'Z' }

  predicate IsDigit(c: char) { '0' <= c <= '9' }

  /** `[0-9a-fA-F]` */
  predicate IsHexDigit(c: char) { IsDigit(c) || 'a' <= c <= 'f' || 'A' <= c <= 'F' }

  /** `[0-9a-fA-F\-]` */
  predicate IsHexOrHyphen(c: char) { IsHexDigit(c) || c == '-' }

  /** The characters Python's `str.isspace` accepts, so the ones `str.strip()` removes. */
  predicate IsPySpace(c: char) {
    var n := c as int;
    n == 32 || 9 <= n <= 13 || 28 <= n <= 31 || n == 0x85 || n == 0xA0 || n == 0x1680
    || 0x2000 <= n <= 0x200A || n == 0x2028 || n == 0x2029 || n == 0x202F
    || n == 0x205F || n == 0x3000
  }

  predicate AllChars(s: string, p: char -> bool) {
    forall i :: 0 <= i < |s| ==> p(s[i])
  }

  // ---------------------------------------------------------------------
  // Case mapping
  // ---------------------------------------------------------------------

  function LowerChar(c: char): (r: char)
    ensures !IsAsciiUpper(r)
    ensures IsAsciiUpper(c) ==> r as int == c as int + 32
    ensures !IsAsciiUpper(c) ==> r == c
  {
    if IsAsciiUpper(c) then (c as int + 32) as char else c
  }

  /** `s.lower()` on ASCII letters. */
  function Lower(s: string): (r: string)
    ensures |r| == |s|
    ensures forall i :: 0 <= i < |s| ==> r[i] == LowerChar(s[i])
  {
    if s == [] then [] else [LowerChar(s[0])] + Lower(s[1..])
  }

  lemma {:induction false} LowerIdempotent(s: string)
    ensures Lower(Lower(s)) == Lower(s)
  {
    if s != [] {
      LowerIdempotent(s[1..]);
      assert Lower(s)[1..] == Lower(s[1..]);
    }
  }

  /** Lowering keeps hex digits and hyphens inside their class. */
  lemma LowerKeepsHex(s: string)
    requires AllChars(s, IsHexOrHyphen)
    ensures AllChars(Lower(s), IsHexOrHyphen)
  {
  }

  // ---------------------------------------------------------------------
  // Replacement of one character (`s.replace(c, rep)` with a one-character `c`)
  // ---------------------------------------------------------------------

  function ReplaceChar(s: string, c: char, rep: string): (r: string)
    ensures c !in rep ==> c !in r
  {
    if s == [] then []
    else (if s[0] == c then rep else [s[0]]) + ReplaceChar(s[1..], c, rep)
  }

  /** `s.replace(c, "")`: every `c` removed, every other character kept with its count. */
  function RemoveChar(s: string, c: char): (r: string)
    ensures c !in r
    ensures forall x | x != c :: multiset(r)[x] == multiset(s)[x]
  {
    if s == [] then []
    else
      var rest := RemoveChar(s[1..], c);
      assert s == [s[0]] + s[1..];
      if s[0] == c then rest else [s[0]] + rest
  }

  /** Removal works character by character: it distributes over concatenation. */
  lemma {:induction false} RemoveCharConcat(a: string, b: string, c: char)
    ensures RemoveChar(a + b, c) == RemoveChar(a, c) + RemoveChar(b, c)
  {
    if a == [] {
      assert a + b == b;
    } else {
      RemoveCharConcat(a[1..], b, c);
      RemoveCharConcatStep(a[0], a[1..], b, c);
      assert a == [a[0]] + a[1..];
    }
  }

  lemma RemoveCharConcatStep(x: char, t: string, b: string, c: char)
    requires RemoveChar(t + b, c) == RemoveChar(t, c) + RemoveChar(b, c)
    ensures RemoveChar([x] + t + b, c) == RemoveChar([x] + t, c) + RemoveChar(b, c)
  {
    var h := if x == c then [] else [x];
    var p, q := RemoveChar(t, c), RemoveChar(b, c);
    assert RemoveChar([x] + t + b, c) == h + (p + q) by {
      assert [x] + t + b == [x] + (t + b);
      RemoveCharCons(x, t + b, c);
    }
    assert RemoveChar([x] + t, c) == h + p by {
      RemoveCharCons(x, t, c);
    }
    Reassociate(h, p, q);
  }

  lemma Reassociate<T>(x: seq<T>, y: seq<T>, z: seq<T>)
    ensures x + (y + z) == (x + y) + z
  {
  }

  lemma RemoveCharCons(x: char, s: string, c: char)
    ensures RemoveChar([x] + s, c) == (if x == c then [] else [x]) + RemoveChar(s, c)
  {
    assert ([x] + s)[1..] == s;
  }

  /** A single character is dropped when it is `c` and kept otherwise. */
  lemma RemoveCharSingle(x: char, c: char)
    ensures RemoveChar([x], c) == if x == c then [] else [x]
  {
    assert [x][1..] == [];
  }

  lemma {:induction false} RemoveCharIsReplace(s: string, c: char)
    ensures RemoveChar(s, c) == ReplaceChar(s, c, "")
  {
    if s != [] { RemoveCharIsReplace(s[1..], c); }
  }

  lemma {:induction false} RemoveCharNoop(s: string, c: char)
    requires c !in s
    ensures RemoveChar(s, c) == s
  {
    if s != [] {
      assert s[0] != c;
      assert c !in s[1..];
      RemoveCharNoop(s[1..], c);
    }
  }

  // ---------------------------------------------------------------------
  // Prefixes, suffixes, substrings
  // ---------------------------------------------------------------------

  predicate StartsWith(s: string, p: string) { |p| <= |s| && s[..|p|] == p }

  predicate EndsWith(s: string, p: string) { |p| <= |s| && s[|s| - |p|..] == p }

  /** `sub` occurs in `s` starting at index `i`. */
  predicate OccursAt(s: string, sub: string, i: int) {
    0 <= i && i + |sub| <= |s| && s[i..i + |sub|] == sub
  }

  /** Python's `sub in s`. */
  predicate Contains(s: string, sub: string) {
    exists i | 0 <= i <= |s| - |sub| :: OccursAt(s, sub, i)
  }

  /** `s.find(c)`: the first index holding `c`, if any. */
  function Find(s: string, c: char): (r: Option<nat>)
    ensures r.None? <==> c !in s
    ensures r.Some? ==> r.value < |s| && s[r.value] == c && c !in s[..r.value]
  {
    if s == [] then None
    else if s[0] == c then Some(0)
    else
      var rest := Find(s[1..], c);
      if rest.None? then None
      else
        assert s[..rest.value + 1] == [s[0]] + s[1..][..rest.value];
        Some(rest.value + 1)
  }

  /** `s.rfind(c)`: the last index holding `c`, if any. */
  function RFind(s: string, c: char): (r: Option<nat>)
    ensures r.None? <==> c !in s
    ensures r.Some? ==> r.value < |s| && s[r.value] == c && c !in s[r.value + 1..]
  {
    if s == [] then None
    else if s[|s| - 1] == c then Some(|s| - 1)
    else
      var rest := RFind(s[..|s| - 1], c);
      assert s == s[..|s| - 1] + [s[|s| - 1]];
      if rest.None? then None
      else
        assert s[rest.value + 1..] == s[..|s| - 1][rest.value + 1..] + [s[|s| - 1]];
        rest
  }

  /** `c * n` for one character, as in `'#' * int(level)`. */
  function RepeatChar(c: char, n: nat): (r: string)
    ensures |r| == n
    ensures forall i :: 0 <= i < n ==> r[i] == c
  {
    if n == 0 then [] else [c] + RepeatChar(c, n - 1)
  }

  /** `s.lstrip(c)` */
  function LStrip(s: string, c: char): (r: string)
    ensures |r| <= |s| && r == s[|s| - |r|..]
    ensures r == [] || r[0] != c
    ensures forall i :: 0 <= i < |s| - |r| ==> s[i] == c
  {
    if s != [] && s[0] == c then LStrip(s[1..], c) else s
  }

  /** `s.strip()` */
  function Strip(s: string): (r: string)
    ensures |r| <= |s|
    ensures r == [] || (!IsPySpace(r[0]) && !IsPySpace(r[|r| - 1]))
    ensures AllChars(s, IsPySpace) <==> r == []
  {
    if s != [] && IsPySpace(s[0]) then Strip(s[1..])
    else if s != [] && IsPySpace(s[|s| - 1]) then Strip(s[..|s| - 1])
    else s
  }

  /** `r` is `s[i..j]` with only whitespace cut from either end. */
  ghost predicate TrimmedAt(s: string, r: string, i: nat, j: nat) {
    i <= j <= |s| && r == s[i..j] && AllChars(s[..i], IsPySpace) && AllChars(s[j..], IsPySpace)
  }

  /** `strip` removes whitespace from both ends and nothing else: the result is a slice of `s`. */
  lemma {:induction false} StripIsTrim(s: string)
    ensures exists i: nat, j: nat :: TrimmedAt(s, Strip(s), i, j)
    decreases |s|
  {
    if s != [] && IsPySpace(s[0]) {
      var t := s[1..];
      StripIsTrim(t);
      var i: nat, j: nat :| TrimmedAt(t, Strip(t), i, j);
      TrimFront(s, Strip(t), i, j);
      assert Strip(s) == Strip(t);
      assert TrimmedAt(s, Strip(s), i + 1, j + 1);
    } else if s != [] && IsPySpace(s[|s| - 1]) {
      var t := s[..|s| - 1];
      StripIsTrim(t);
      var i: nat, j: nat :| TrimmedAt(t, Strip(t), i, j);
      TrimBack(s, Strip(t), i, j);
      assert Strip(s) == Strip(t);
      assert TrimmedAt(s, Strip(s), i, j);
    } else {
      assert TrimmedAt(s, Strip(s), 0, |s|);
    }
  }

  lemma TrimFront(s: string, r: string, i: nat, j: nat)
    requires s != [] && IsPySpace(s[0]) && TrimmedAt(s[1..], r, i, j)
    ensures TrimmedAt(s, r, i + 1, j + 1)
  {
    assert s[1..][i..j] == s[i + 1..j + 1];
    assert s[..i + 1] == [s[0]] + s[1..][..i];
    assert s[j + 1..] == s[1..][j..];
  }

  lemma TrimBack(s: string, r: string, i: nat, j: nat)
    requires s != [] && IsPySpace(s[|s| - 1]) && TrimmedAt(s[..|s| - 1], r, i, j)
    ensures TrimmedAt(s, r, i, j)
  {
    var t := s[..|s| - 1];
    assert t[i..j] == s[i..j];
    assert s[..i] == t[..i];
    assert s[j..] == t[j..] + [s[|s| - 1]];
  }

  // ---------------------------------------------------------------------
  // Joining and splitting
  // ---------------------------------------------------------------------

  /** `sep.join(parts)` */
  function Join(sep: string, parts: seq<string>): (r: string)
    ensures |parts| == 1 ==> r == parts[0]
  {
    if |parts| == 0 then []
    else if |parts| == 1 then parts[0]
    else parts[0] + sep + Join(sep, parts[1..])
  }

  /** Joining one more part appends the separator and the part. */
  lemma {:induction false} JoinSnoc(sep: string, parts: seq<string>, x: string)
    ensures Join(sep, parts + [x]) == if parts == [] then x else Join(sep, parts) + sep + x
  {
    if |parts| == 1 {
      assert parts + [x] == [parts[0], x];
    } else if |parts| > 1 {
      JoinSnoc(sep, parts[1..], x);
      assert (parts + [x])[1..] == parts[1..] + [x];
    }
  }

  /** Joining two lists of parts puts the separator between them when both are non-empty. */
  lemma {:induction false} JoinConcat(sep: string, a: seq<string>, b: seq<string>)
    ensures Join(sep, a + b) ==
            if a == [] then Join(sep, b) else if b == [] then Join(sep, a) else Join(sep, a) + sep + Join(sep, b)
  {
    if a == [] {
      assert a + b == b;
    } else if b == [] {
      assert a + b == a;
    } else if |a| == 1 {
      assert (a + b)[0] == a[0] && (a + b)[1..] == b;
    } else {
      assert (a + b)[0] == a[0] && (a + b)[1..] == a[1..] + b;
      JoinConcat(sep, a[1..], b);
      assert Join(sep, a + b) == a[0] + sep + Join(sep, a[1..] + b);
      assert Join(sep, a) == a[0] + sep + Join(sep, a[1..]);
    }
  }

  /** `s.split(c)` for a one-character separator: never empty, no piece holds `c`. */
  function Split(s: string, c: char): (r: seq<string>)
    ensures |r| >= 1
    ensures forall k :: 0 <= k < |r| ==> c !in r[k]
  {
    if s == [] then [[]]
    else
      var rest := Split(s[1..], c);
      if s[0] == c then [[]] + rest
      else [[s[0]] + rest[0]] + rest[1..]
  }

  /** Joining the pieces of a split gives the string back. */
  lemma {:induction false} JoinSplit(s: string, c: char)
    ensures Join([c], Split(s, c)) == s
  {
    if s != [] {
      var rest := Split(s[1..], c);
      JoinSplit(s[1..], c);
      if s[0] == c {
        assert Split(s, c) == [[]] + rest;
        assert Join([c], Split(s, c)) == [] + [c] + Join([c], rest);
      } else {
        var first := [s[0]] + rest[0];
        assert Split(s, c) == [first] + rest[1..];
        if |rest| == 1 {
          assert Join([c], Split(s, c)) == first;
        } else {
          assert Join([c], rest) == rest[0] + [c] + Join([c], rest[1..]);
          assert Join([c], Split(s, c)) == first + [c] + Join([c], rest[1..]);
        }
      }
    }
  }

  /** Splitting a join of separator-free pieces gives the pieces back. */
  lemma {:induction false} SplitJoin(parts: seq<string>, c: char)
    requires |parts| >= 1
    requires forall k :: 0 <= k < |parts| ==> c !in parts[k]
    ensures Split(Join([c], parts), c) == parts
  {
    if |parts| == 1 {
      SplitNoSep(parts[0], c);
    } else {
      SplitJoin(parts[1..], c);
      SplitAppend(parts[0], Join([c], parts[1..]), c);
      assert Join([c], parts) == parts[0] + ([c] + Join([c], parts[1..]));
    }
  }

  lemma {:induction false} SplitNoSep(s: string, c: char)
    requires c !in s
    ensures Split(s, c) == [s]
  {
    if s != [] {
      assert s[0] != c;
      assert c !in s[1..];
      SplitNoSep(s[1..], c);
      assert [s[0]] + s[1..] == s;
    }
  }

  /** Splitting `a + [c] + b`, when `a` holds no `c`, puts `a` first and then the pieces of `b`. */
  lemma {:induction false} SplitAppend(a: string, b: string, c: char)
    requires c !in a
    ensures Split(a + ([c] + b), c) == [a] + Split(b, c)
  {
    if a == [] {
      assert a + ([c] + b) == [c] + b;
      assert ([c] + b)[1..] == b;
    } else {
      assert (a + ([c] + b))[1..] == a[1..] + ([c] + b);
      assert c !in a[1..];
      SplitAppend(a[1..], b, c);
      assert [a[0]] + a[1..] == a;
    }
  }

  /** `[p + x for x in xs]` */
  function PrefixAll(p: string, xs: seq<string>): (r: seq<string>)
    ensures |r| == |xs|
    ensures forall k :: 0 <= k < |xs| ==> r[k] == p + xs[k]
  {
    seq(|xs|, k requires 0 <= k < |xs| => p + xs[k])
  }

  /** Prefixing every line with a newline-free prefix keeps the line structure. */
  lemma PrefixLinesKeepsLines(p: string, s: string)
    requires '\n' !in p
    ensures var out := Join("\n", PrefixAll(p, Split(s, '\n')));
            Split(out, '\n') == PrefixAll(p, Split(s, '\n'))
  {
    var lines := Split(s, '\n');
    var pre := PrefixAll(p, lines);
    forall k | 0 <= k < |pre| ensures '\n' !in pre[k] {
      assert pre[k] == p + lines[k];
    }
    SplitJoin(pre, '\n');
  }

  /** A text framed by a newline-free first and last line keeps its own lines between them. */
  lemma FramedLines(first: string, s: string, last: string)
    requires '\n' !in first && '\n' !in last
    ensures Split(first + "\n" + s + "\n" + last, '\n') == [first] + Split(s, '\n') + [last]
  {
    var lines := Split(s, '\n');
    JoinSplit(s, '\n');
    assert Join("\n", lines) == s;
    JoinSnoc("\n", lines, last);
    var tail := lines + [last];
    assert Join("\n", tail) == s + "\n" + last;
    JoinConcat("\n", [first], tail);
    var all := [first] + tail;
    assert Join("\n", all) == first + "\n" + (s + "\n" + last);
    forall k | 0 <= k < |all| ensures '\n' !in all[k] {
      if 0 < k < |all| - 1 {
        assert all[k] == lines[k - 1];
      }
    }
    SplitJoin(all, '\n');
    assert first + "\n" + s + "\n" + last == first + "\n" + (s + "\n" + last);
    assert [first] + lines + [last] == all;
  }

  /** The last piece of a split holds no separator and ends the string. */
  lemma LastPieceIsSuffix(s: string, c: char)
    ensures var pieces := Split(s, c);
            c !in pieces[|pieces| - 1] && EndsWith(s, pieces[|pieces| - 1])
  {
    var pieces := Split(s, c);
    JoinSplit(s, c);
    var init, last := pieces[..|pieces| - 1], pieces[|pieces| - 1];
    assert pieces == init + [last];
    JoinSnoc([c], init, last);
    if init != [] {
      assert s == (Join([c], init) + [c]) + last;
    }
  }

  /** A newline-free first line above the lines of `s`, each behind a newline-free prefix. */
  lemma HeadedLines(first: string, p: string, s: string)
    requires '\n' !in first && '\n' !in p
    ensures var lines := Split(Join("\n", [first] + PrefixAll(p, Split(s, '\n'))), '\n');
            && lines == [first] + PrefixAll(p, Split(s, '\n'))
            && forall k :: 1 <= k < |lines| ==> StartsWith(lines[k], p)
  {
    var rest := PrefixAll(p, Split(s, '\n'));
    PrefixLinesKeepsLines(p, s);
    var joined := Join("\n", rest);
    assert Split(joined, '\n') == rest;
    JoinConcat("\n", [first], rest);
    assert Join("\n", [first] + rest) == first + ("\n" + joined);
    SplitAppend(first, joined, '\n');
    var lines := [first] + rest;
    forall k | 1 <= k < |lines| ensures StartsWith(lines[k], p) {
      assert lines[k] == rest[k - 1];
    }
  }

  /** `''.join(parts)` */
  function Concat(parts: seq<string>): string {
    if parts == [] then "" else Concat(parts[..|parts| - 1]) + parts[|parts| - 1]
  }

  lemma ConcatSnoc(parts: seq<string>, x: string)
    ensures Concat(parts + [x]) == Concat(parts) + x
  {
    assert (parts + [x])[..|parts|] == parts;
  }
}
