/**
 * The JavaScript string operations the pipeline relies on, written out over `seq<char>`:
 * `Array.prototype.join`, `String.prototype.split` with a one-character separator,
 * `String.prototype.trim`, `String.prototype.startsWith`, the relational `<` on strings
 * and the default `Array.prototype.sort` order.
 */
module JsStrings {

  // ---------------------------------------------------------------------------
  // join
  // ---------------------------------------------------------------------------

  /** `parts.join(sep)`. */
  function Join(parts: seq<string>, sep: string): string
    decreases |parts|
  {
    if |parts| == 0 then ""
    else if |parts| == 1 then parts[0]
    else parts[0] + sep + Join(parts[1..], sep)
  }

  /** The position at which `parts[i]` starts inside `Join(parts, sep)`. */
  function JoinOffset(parts: seq<string>, sep: string, i: nat): nat
    requires i < |parts|
    decreases i
  {
    if i == 0 then 0 else |parts[0]| + |sep| + JoinOffset(parts[1..], sep, i - 1)
  }

  /** `needle` occurs in `hay` starting at index `k`. */
  predicate OccursAt(needle: string, hay: string, k: nat) {
    k + |needle| <= |hay| && hay[k..k + |needle|] == needle
  }

  /** An occurrence survives putting text before and after the string. */
  lemma OccursAtWithin(needle: string, hay: string, k: nat, before: string, after: string)
    requires OccursAt(needle, hay, k)
    ensures OccursAt(needle, before + hay + after, |before| + k)
  {
    assert (before + hay + after)[|before| + k .. |before| + k + |needle|] == hay[k..k + |needle|];
  }

  /** Every part of a join can be read back out of the joined string: an error message that
      joins a list of identifiers names each of them. */
  lemma {:induction false} JoinMentionsEvery(parts: seq<string>, sep: string, i: nat)
    requires i < |parts|
    ensures OccursAt(parts[i], Join(parts, sep), JoinOffset(parts, sep, i))
    decreases i
  {
    if i == 0 {
      if |parts| > 1 {
        assert Join(parts, sep) == parts[0] + (sep + Join(parts[1..], sep));
      }
    } else {
      JoinMentionsEvery(parts[1..], sep, i - 1);
      var tail := Join(parts[1..], sep);
      var k := JoinOffset(parts[1..], sep, i - 1);
      assert Join(parts, sep) == (parts[0] + sep) + tail;
      assert tail[k..k + |parts[i]|] == parts[i];
      assert (parts[0] + sep + tail)[|parts[0]| + |sep| + k .. |parts[0]| + |sep| + k + |parts[i]|]
          == tail[k..k + |parts[i]|];
    }
  }

  // ---------------------------------------------------------------------------
  // split on a one-character separator
  // ---------------------------------------------------------------------------

  /** `s.split(sep)` for a separator string of length one: the maximal separator-free pieces
      between separators, the empty string giving `[""]`. */
  function Split(s: string, sep: char): (pieces: seq<string>)
    ensures |pieces| >= 1
    ensures forall i :: 0 <= i < |pieces| ==> sep !in pieces[i]
    decreases |s|
  {
    if |s| == 0 then [""]
    else
      var rest := Split(s[1..], sep);
      if s[0] == sep then [""] + rest
      else [[s[0]] + rest[0]] + rest[1..]
  }

  /** Joining the pieces of a split with the separator gives back the original string. */
  lemma {:induction false} JoinSplit(s: string, sep: char)
    ensures Join(Split(s, sep), [sep]) == s
    decreases |s|
  {
    if |s| > 0 {
      JoinSplit(s[1..], sep);
      var rest := Split(s[1..], sep);
      if s[0] == sep {
        assert ([""] + rest)[1..] == rest;
        assert s == [sep] + s[1..];
      } else {
        var pieces := [[s[0]] + rest[0]] + rest[1..];
        assert pieces[1..] == rest[1..];
        if |rest| > 1 {
          assert Join(rest, [sep]) == rest[0] + [sep] + Join(rest[1..], [sep]);
        }
        assert s == [s[0]] + s[1..];
      }
    }
  }

  /** Splitting a separator-free string gives the string alone. */
  lemma {:induction false} SplitWithoutSeparator(s: string, sep: char)
    requires sep !in s
    ensures Split(s, sep) == [s]
    decreases |s|
  {
    if |s| > 0 {
      assert sep !in s[1..] by {
        forall k | 0 <= k < |s[1..]| ensures s[1..][k] != sep { assert s[1..][k] == s[k + 1]; }
      }
      SplitWithoutSeparator(s[1..], sep);
      assert [s[0]] + s[1..] == s;
    }
  }

  /** A separator-free prefix followed by a separator splits off as one piece. */
  lemma {:induction false} SplitAfterPiece(a: string, sep: char, b: string)
    requires sep !in a
    ensures Split(a + [sep] + b, sep) == [a] + Split(b, sep)
    decreases |a|
  {
    if |a| == 0 {
      assert a + [sep] + b == [sep] + b;
      assert ([sep] + b)[1..] == b;
    } else {
      var s := a + [sep] + b;
      assert s[0] == a[0];
      assert s[1..] == a[1..] + [sep] + b;
      assert sep !in a[1..] by {
        forall k | 0 <= k < |a[1..]| ensures a[1..][k] != sep { assert a[1..][k] == a[k + 1]; }
      }
      SplitAfterPiece(a[1..], sep, b);
      assert [a[0]] + a[1..] == a;
    }
  }

  /** Splitting a join of separator-free pieces gives back the pieces. */
  lemma {:induction false} SplitJoin(parts: seq<string>, sep: char)
    requires |parts| >= 1
    requires forall i :: 0 <= i < |parts| ==> sep !in parts[i]
    ensures Split(Join(parts, [sep]), sep) == parts
    decreases |parts|
  {
    if |parts| == 1 {
      SplitWithoutSeparator(parts[0], sep);
    } else {
      SplitJoin(parts[1..], sep);
      SplitAfterPiece(parts[0], sep, Join(parts[1..], [sep]));
      assert [parts[0]] + parts[1..] == parts;
    }
  }

  /** The first piece of a split is the longest separator-free prefix: `s.split(sep)[0]`. */
  lemma {:induction false} SplitFirstPiece(s: string, sep: char)
    ensures Split(s, sep)[0] <= s
    ensures |Split(s, sep)[0]| < |s| ==> s[|Split(s, sep)[0]|] == sep
    decreases |s|
  {
    if |s| > 0 {
      SplitFirstPiece(s[1..], sep);
    }
  }

  // ---------------------------------------------------------------------------
  // filter((x) => x.length > 0)
  // ---------------------------------------------------------------------------

  /** `pieces.filter((x) => x.length > 0)`. */
  function NonEmpty(pieces: seq<string>): (kept: seq<string>)
    ensures forall i :: 0 <= i < |kept| ==> |kept[i]| > 0
    ensures forall x :: x in kept <==> x in pieces && |x| > 0
    ensures |kept| <= |pieces|
    decreases |pieces|
  {
    if |pieces| == 0 then []
    else if |pieces[0]| > 0 then [pieces[0]] + NonEmpty(pieces[1..])
    else NonEmpty(pieces[1..])
  }

  /** Filtering distributes over concatenation, so the kept pieces keep their source order. */
  lemma {:induction false} NonEmptyAppend(a: seq<string>, b: seq<string>)
    ensures NonEmpty(a + b) == NonEmpty(a) + NonEmpty(b)
    decreases |a|
  {
    if |a| > 0 {
      assert (a + b)[1..] == a[1..] + b;
      NonEmptyAppend(a[1..], b);
    } else {
      assert a + b == b;
    }
  }

  // ---------------------------------------------------------------------------
  // trim
  // ---------------------------------------------------------------------------

  /** The characters `String.prototype.trim` removes: ECMAScript's WhiteSpace (tab, vertical
      tab, form feed, zero-width no-break space and the Unicode space separators) and its
      LineTerminator characters. */
  predicate IsJsSpace(c: char) {
    c in {'\t', '\U{000B}', '\U{000C}', ' ', '\U{00A0}', '\U{FEFF}', '\n', '\r', '\U{2028}', '\U{2029}'}
    || c == '\U{1680}' || ('\U{2000}' <= c <= '\U{200A}')
    || c == '\U{202F}' || c == '\U{205F}' || c == '\U{3000}'
  }

  /** Removes leading whitespace; the result is a suffix of `s`. */
  function TrimStart(s: string): (r: string)
    ensures |r| <= |s| && r == s[|s| - |r|..]
    ensures forall i :: 0 <= i < |s| - |r| ==> IsJsSpace(s[i])
    ensures |r| > 0 ==> !IsJsSpace(r[0])
    decreases |s|
  {
    if |s| > 0 && IsJsSpace(s[0]) then TrimStart(s[1..]) else s
  }

  /** Removes trailing whitespace; the result is a prefix of `s`. */
  function TrimEnd(s: string): (r: string)
    ensures |r| <= |s| && r == s[..|r|]
    ensures forall i :: |r| <= i < |s| ==> IsJsSpace(s[i])
    ensures |r| > 0 ==> !IsJsSpace(r[|r| - 1])
    decreases |s|
  {
    if |s| > 0 && IsJsSpace(s[|s| - 1]) then TrimEnd(s[..|s| - 1]) else s
  }

  /** `s.trim()`: the slice of `s` left after removing leading and trailing whitespace. */
  function Trim(s: string): (r: string)
    ensures TrimmedStart(s) + |r| <= |s|
    ensures r == s[TrimmedStart(s)..TrimmedStart(s) + |r|]
    ensures forall i :: 0 <= i < TrimmedStart(s) ==> IsJsSpace(s[i])
    ensures forall i :: TrimmedStart(s) + |r| <= i < |s| ==> IsJsSpace(s[i])
    ensures |r| > 0 ==> !IsJsSpace(r[0]) && !IsJsSpace(r[|r| - 1])
  {
    var t := TrimStart(s);
    var r := TrimEnd(t);
    PrefixOfSuffix(s, |s| - |t|, t, r);
    r
  }

  /** A prefix `r` of the suffix `t` of `s` that starts at `k` is the slice of `s` at `k`. */
  lemma PrefixOfSuffix(s: string, k: nat, t: string, r: string)
    requires k <= |s| && t == s[k..] && |r| <= |t| && r == t[..|r|]
    ensures k + |r| <= |s| && r == s[k..k + |r|]
    ensures forall i :: k + |r| <= i < |s| ==> s[i] == t[i - k]
  {
  }

  /** The number of leading whitespace characters `Trim` drops. */
  function TrimmedStart(s: string): nat
  {
    |s| - |TrimStart(s)|
  }

  /** A string with no whitespace at either end is left alone by `TrimStart`. */
  lemma {:induction false} TrimStartFixed(s: string)
    requires |s| == 0 || !IsJsSpace(s[0])
    ensures TrimStart(s) == s
  {
  }

  /** Trimming is idempotent: every trimmed chunk is its own trim. */
  lemma TrimIdempotent(s: string)
    ensures Trim(Trim(s)) == Trim(s)
  {
    var r := Trim(s);
    TrimStartFixed(r);
  }

  // ---------------------------------------------------------------------------
  // startsWith
  // ---------------------------------------------------------------------------

  /** `s.startsWith(prefix)`. */
  predicate StartsWith(s: string, prefix: string) {
    prefix <= s
  }

  // ---------------------------------------------------------------------------
  // comparison and the default sort
  // ---------------------------------------------------------------------------

  /** The relational `a < b` on strings: lexicographic on characters, a proper prefix first. */
  predicate StrLess(a: string, b: string)
    decreases |a|
  {
    |b| > 0 && (|a| == 0 || a[0] < b[0] || (a[0] == b[0] && StrLess(a[1..], b[1..])))
  }

  lemma {:induction false} StrLessIrreflexive(a: string)
    ensures !StrLess(a, a)
    decreases |a|
  {
    if |a| > 0 {
      StrLessIrreflexive(a[1..]);
    }
  }

  lemma {:induction false} StrLessTotal(a: string, b: string)
    ensures a == b || StrLess(a, b) || StrLess(b, a)
    decreases |a|
  {
    if |a| > 0 && |b| > 0 && a[0] == b[0] {
      StrLessTotal(a[1..], b[1..]);
      if a[1..] == b[1..] {
        assert a == [a[0]] + a[1..] && b == [b[0]] + b[1..];
      }
    }
  }

  lemma {:induction false} StrLessTransitive(a: string, b: string, c: string)
    requires StrLess(a, b) && StrLess(b, c)
    ensures StrLess(a, c)
    decreases |a|
  {
    if |a| > 0 && a[0] == b[0] && b[0] == c[0] {
      StrLessTransitive(a[1..], b[1..], c[1..]);
    }
  }

  lemma StrLessAsymmetric(a: string, b: string)
    requires StrLess(a, b)
    ensures !StrLess(b, a)
  {
    if StrLess(b, a) {
      StrLessTransitive(a, b, a);
      StrLessIrreflexive(a);
    }
  }

  /** Non-decreasing in the `<` order of strings. */
  predicate Sorted(s: seq<string>) {
    forall i, j :: 0 <= i < j < |s| ==> !StrLess(s[j], s[i])
  }

  /** Inserts `x` before the first element that is not smaller than it. */
  function Insert(x: string, s: seq<string>): (r: seq<string>)
    requires Sorted(s)
    ensures multiset(r) == multiset(s) + multiset{x}
    ensures Sorted(r)
    decreases |s|
  {
    if s == [] then [x]
    else if StrLess(s[0], x) then
      var tail := Insert(x, s[1..]);
      assert s == [s[0]] + s[1..];
      InsertAfterHead(s[0], x, s[1..], tail);
      [s[0]] + tail
    else
      assert Sorted([x] + s) by {
        forall j | 0 <= j < |s| ensures !StrLess(s[j], x) {
          StrLessTotal(s[0], x);
          if StrLess(s[j], x) && s[0] != x {
            StrLessTransitive(s[j], x, s[0]);
          }
        }
      }
      [x] + s
  }

  /** Helper for `Insert`: a smaller head stays in front of the insertion into the tail. */
  lemma InsertAfterHead(h: string, x: string, t: seq<string>, tail: seq<string>)
    requires StrLess(h, x)
    requires forall j :: 0 <= j < |t| ==> !StrLess(t[j], h)
    requires multiset(tail) == multiset(t) + multiset{x}
    requires Sorted(tail)
    ensures Sorted([h] + tail)
  {
    forall j | 0 <= j < |tail| ensures !StrLess(tail[j], h) {
      assert tail[j] in multiset(tail);
      if tail[j] == x {
        StrLessAsymmetric(h, x);
      } else {
        assert tail[j] in multiset(t);
        assert tail[j] in t;
      }
    }
  }

  /** The default `Array.prototype.sort()` of strings, as an insertion sort: the result is a
      sorted permutation of the input. */
  function SortStrings(s: seq<string>): (r: seq<string>)
    ensures multiset(r) == multiset(s)
    ensures Sorted(r)
    decreases |s|
  {
    if s == [] then []
    else
      assert s == [s[0]] + s[1..];
      Insert(s[0], SortStrings(s[1..]))
  }
}
