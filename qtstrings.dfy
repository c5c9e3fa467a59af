/**
 * The handful of QString / QByteArray / QFileInfo operations the modelled
 * code relies on, written over `seq<char>`.
 */
module QtStrings {

  import opened Wrappers


  /** `s.startsWith(p)` */
  predicate StartsWith(s: string, p: string) {
    |p| <= |s| && s[..|p|] == p
  }

  /** `s.endsWith(p)` */
  predicate EndsWith(s: string, p: string) {
    |p| <= |s| && s[|s| - |p|..] == p
  }

  /** `p` occurs in `s` starting at index `i`. */
  predicate OccursAt(s: string, p: string, i: int) {
    0 <= i && i + |p| <= |s| && s[i..i + |p|] == p
  }

  /** `s.contains(p)` */
  predicate Contains(s: string, p: string) {
    exists i :: 0 <= i <= |s| && OccursAt(s, p, i)
  }

  /** First occurrence of `p` in `s` at or after `from`, or -1. */
  function IndexFrom(s: string, p: string, from: nat): (r: int)
    requires from <= |s|
    ensures r == -1 || (from <= r && OccursAt(s, p, r))
    ensures r == -1 ==> forall j :: from <= j ==> !OccursAt(s, p, j)
    ensures r != -1 ==> forall j :: from <= j < r ==> !OccursAt(s, p, j)
    decreases |s| - from
  {
    if OccursAt(s, p, from) then from
    else if from == |s| then -1
    else IndexFrom(s, p, from + 1)
  }

  /** `s.indexOf(p)`: the first occurrence of `p` in `s`, or -1 when there is none. */
  function IndexOf(s: string, p: string): (r: int)
    ensures r == -1 <==> !Contains(s, p)
    ensures r != -1 ==> OccursAt(s, p, r) && forall j :: 0 <= j < r ==> !OccursAt(s, p, j)
  {
    IndexFrom(s, p, 0)
  }

  /**
   * `s.split(sep)` with Qt's default KeepEmptyParts: every separator
   * ends one piece, so n separators give n + 1 pieces.
   */
  function Split(s: string, sep: char): (r: seq<string>)
    ensures |r| >= 1
    ensures forall k :: 0 <= k < |r| ==> sep !in r[k]
  {
    if s == [] then [""]
    else
      var rest := Split(s[1..], sep);
      if s[0] == sep then [""] + rest
      else [[s[0]] + rest[0]] + rest[1..]
  }

  /** `parts.join(sep)`, the inverse of Split. */
  function Join(parts: seq<string>, sep: char): string
    requires |parts| >= 1
  {
    if |parts| == 1 then parts[0] else parts[0] + [sep] + Join(parts[1..], sep)
  }

  /** Joining the pieces of a split gives back the string. */
  lemma {:induction false} JoinSplit(s: string, sep: char)
    ensures Join(Split(s, sep), sep) == s
  {
    if s != [] {
      var rest := Split(s[1..], sep);
      JoinSplit(s[1..], sep);
      if s[0] == sep {
        assert Split(s, sep) == [""] + rest;
        assert ([""] + rest)[1..] == rest;
      } else {
        var r := Split(s, sep);
        assert r == [[s[0]] + rest[0]] + rest[1..];
        if |rest| == 1 {
          assert Join(r, sep) == [s[0]] + rest[0];
        } else {
          assert r[1..] == rest[1..];
          assert Join(rest, sep) == rest[0] + [sep] + Join(rest[1..], sep);
        }
      }
    }
  }

  /** Splitting a join of separator-free pieces gives back the pieces. */
  lemma {:induction false} SplitJoin(parts: seq<string>, sep: char)
    requires |parts| >= 1
    requires forall k :: 0 <= k < |parts| ==> sep !in parts[k]
    ensures Split(Join(parts, sep), sep) == parts
  {
    if |parts| == 1 {
      SplitNoSeparator(parts[0], sep);
    } else {
      SplitJoin(parts[1..], sep);
      SplitAppend(parts[0], Join(parts[1..], sep), sep);
      assert [parts[0]] + parts[1..] == parts;
    }
  }

  /** A string with no separator splits into itself. */
  lemma {:induction false} SplitNoSeparator(s: string, sep: char)
    requires sep !in s
    ensures Split(s, sep) == [s]
  {
    if s != [] {
      assert s[0] != sep && sep !in s[1..];
      SplitNoSeparator(s[1..], sep);
      assert s == [s[0]] + s[1..];
    }
  }

  /** Splitting `a + [sep] + b` where `a` holds no separator. */
  lemma {:induction false} SplitAppend(a: string, b: string, sep: char)
    requires sep !in a
    ensures Split(a + [sep] + b, sep) == [a] + Split(b, sep)
  {
    if a == [] {
      assert a + [sep] + b == [sep] + b;
      assert ([sep] + b)[1..] == b;
    } else {
      var s := a + [sep] + b;
      assert s[1..] == a[1..] + [sep] + b;
      SplitAppend(a[1..], b, sep);
      assert [a[0]] + a[1..] == a;
    }
  }

  /** `QFileInfo(path).fileName()`: the text after the last '/'. */
  function FileName(path: string): string {
    if path == [] || path[|path| - 1] == '/' then []
    else FileName(path[..|path| - 1]) + [path[|path| - 1]]
  }

  /**
   * `QFileInfo(path).suffix()`: the text after the last '.' of the file
   * name, empty when the file name has no '.'.
   */
  function Suffix(path: string): string {
    SuffixBefore(path, |path|)
  }

  /** The suffix of the file name ending at position `i`, scanning back from `i`. */
  function SuffixBefore(path: string, i: nat): string
    requires i <= |path|
  {
    if i == 0 || path[i - 1] == '/' then []
    else if path[i - 1] == '.' then path[i..]
    else SuffixBefore(path, i - 1)
  }

  /** The text before the first '.'. */
  function UpToFirstDot(s: string): string {
    if s == [] || s[0] == '.' then [] else [s[0]] + UpToFirstDot(s[1..])
  }

  /**
   * `QFileInfo(path).baseName()`: the file name up to, not including, its
   * first '.'.
   */
  function BaseName(path: string): string {
    UpToFirstDot(FileName(path))
  }

  /** The file name is the end of the path and holds no '/'. */
  lemma {:induction false} FileNameIsLastComponent(path: string)
    ensures '/' !in FileName(path) && EndsWith(path, FileName(path))
    ensures '/' !in path ==> FileName(path) == path
  {
    if path != [] && path[|path| - 1] != '/' {
      var init := path[..|path| - 1];
      FileNameIsLastComponent(init);
      var n := FileName(init);
      assert init[|init| - |n|..] == n;
      assert path[|path| - |n| - 1..] == init[|init| - |n|..] + [path[|path| - 1]];
      if '/' !in path {
        assert '/' !in init by {
          forall c | c in init ensures c != '/' {
            var k :| 0 <= k < |init| && init[k] == c;
            assert path[k] == c;
          }
        }
        assert path == init + [path[|path| - 1]];
      }
    }
  }

  /** The suffix ends the file name and holds neither '.' nor '/'; a file name without '.' has none. */
  lemma SuffixIsLastExtension(path: string)
    ensures '.' !in Suffix(path) && '/' !in Suffix(path)
    ensures EndsWith(FileName(path), Suffix(path))
    ensures '.' !in FileName(path) ==> Suffix(path) == []
  {
    SuffixBeforeScan(path, |path|);
  }

  /** Scanning back from `i` over a tail without '.' or '/'. */
  lemma {:induction false} SuffixBeforeScan(path: string, i: nat)
    requires i <= |path|
    requires forall k :: i <= k < |path| ==> path[k] != '.' && path[k] != '/'
    ensures var r := SuffixBefore(path, i);
      && '.' !in r && '/' !in r
      && EndsWith(FileName(path), r)
      && ('.' !in FileName(path) ==> r == [])
  {
    if i == 0 || path[i - 1] == '/' {
    } else if path[i - 1] == '.' {
      var r := path[i..];
      FileNameKeepsTail(path, i - 1);
      var n := FileName(path);
      assert n == FileName(path[..i - 1]) + path[i - 1..];
      assert n[|n| - |r|..] == r;
      assert n[|n| - |r| - 1] == '.';
    } else {
      SuffixBeforeScan(path, i - 1);
    }
  }

  /** A tail without '/' belongs to the file name. */
  lemma {:induction false} FileNameKeepsTail(path: string, j: nat)
    requires j <= |path|
    requires forall k :: j <= k < |path| ==> path[k] != '/'
    ensures FileName(path) == FileName(path[..j]) + path[j..]
    decreases |path| - j
  {
    if j < |path| {
      var init := path[..|path| - 1];
      FileNameKeepsTail(init, j);
      assert init[..j] == path[..j];
      assert init[j..] + [path[|path| - 1]] == path[j..];
    } else {
      assert path[..j] == path;
    }
  }

  /** The base name starts the file name and holds no '.'; a file name without '.' is its own base name. */
  lemma BaseNameIsFirstPart(path: string)
    ensures '.' !in BaseName(path) && '/' !in BaseName(path)
    ensures StartsWith(FileName(path), BaseName(path))
    ensures '.' !in FileName(path) ==> BaseName(path) == FileName(path)
  {
    FileNameIsLastComponent(path);
    UpToFirstDotIsPrefix(FileName(path));
  }

  lemma {:induction false} UpToFirstDotIsPrefix(s: string)
    ensures '.' !in UpToFirstDot(s) && StartsWith(s, UpToFirstDot(s))
    ensures forall c :: c in UpToFirstDot(s) ==> c in s
    ensures '.' !in s ==> UpToFirstDot(s) == s
  {
    if s != [] && s[0] != '.' {
      UpToFirstDotIsPrefix(s[1..]);
      assert s == [s[0]] + s[1..];
      forall c | c in UpToFirstDot(s) ensures c in s {
        if c != s[0] {
          assert c in UpToFirstDot(s[1..]);
        }
      }
    }
  }

  /** `QChar::isLower` on ASCII letters. */
  predicate IsLowerChar(c: char) {
    'a' <= c <= 'z'
  }

  /**
   * `QByteArray::remove(pos, len)`: nothing happens when `pos` is out of
   * range; a `len` running past the end truncates at `pos`.
   */
  function RemoveRange(s: string, pos: int, len: nat): (r: string)
    ensures 0 <= pos < |s| && pos + len <= |s| ==> |r| == |s| - len
    ensures !(0 <= pos < |s|) ==> r == s
  {
    if pos < 0 || pos >= |s| then s
    else if pos + len >= |s| then s[..pos]
    else s[..pos] + s[pos + len..]
  }

  /** ASCII lower-casing of one character. */
  function LowerChar(c: char): char {
    if 'A' <= c <= 'Z' then (c as int + 32) as char else c
  }

  /** `s.toLower()` restricted to ASCII letters. */
  function ToLower(s: string): (r: string)
    ensures |r| == |s|
    ensures forall k :: 0 <= k < |s| ==> r[k] == LowerChar(s[k])
  {
    if s == [] then [] else [LowerChar(s[0])] + ToLower(s[1..])
  }

  /**
   * QString's `operator<`: lexicographic order on characters. QString
   * compares UTF-16 code units; the two orders agree on characters below
   * U+10000.
   */
  predicate Less(a: string, b: string)
    decreases |a|
  {
    if a == [] then b != []
    else if b == [] then false
    else if a[0] != b[0] then a[0] < b[0]
    else Less(a[1..], b[1..])
  }

  lemma {:induction false} LessIrreflexive(a: string)
    ensures !Less(a, a)
  {
    if a != [] {
      LessIrreflexive(a[1..]);
    }
  }

  lemma {:induction false} LessTransitive(a: string, b: string, c: string)
    requires Less(a, b) && Less(b, c)
    ensures Less(a, c)
    decreases |a|
  {
    if a != [] && b != [] && c != [] && a[0] == b[0] && b[0] == c[0] {
      LessTransitive(a[1..], b[1..], c[1..]);
    }
  }

  /** Two strings neither of which is less than the other are equal. */
  lemma {:induction false} LessTotal(a: string, b: string)
    ensures Less(a, b) || Less(b, a) || a == b
    decreases |a|
  {
    if a != [] && b != [] && a[0] == b[0] {
      LessTotal(a[1..], b[1..]);
      if a[1..] == b[1..] {
        assert a == [a[0]] + a[1..] && b == [b[0]] + b[1..];
      }
    }
  }

  /** `caseInsensitiveLessThan`: compares the lower-cased strings. */
  predicate CaseInsensitiveLess(a: string, b: string) {
    Less(ToLower(a), ToLower(b))
  }

  /** Inserts `x` before the first element that is not less than it. */
  function InsertStable(x: string, t: seq<string>): (r: seq<string>)
    ensures multiset(r) == multiset(t) + multiset{x}
    ensures |r| == |t| + 1
  {
    if t == [] || !CaseInsensitiveLess(t[0], x) then [x] + t
    else
      assert t == [t[0]] + t[1..];
      [t[0]] + InsertStable(x, t[1..])
  }

  /**
   * `qStableSort(s.begin(), s.end(), caseInsensitiveLessThan)`. An insertion
   * sort that keeps equal elements in their input order; SortedCI,
   * StableSortPermutes and StableSortIsStable state what it computes.
   */
  function StableSort(s: seq<string>): (r: seq<string>)
  {
    if s == [] then [] else InsertStable(s[0], StableSort(s[1..]))
  }

  /** No element is case-insensitively less than one before it. */
  predicate SortedCI(s: seq<string>) {
    forall i, j :: 0 <= i < j < |s| ==> !CaseInsensitiveLess(s[j], s[i])
  }

  lemma {:induction false} InsertStableSorted(x: string, t: seq<string>)
    requires SortedCI(t)
    ensures SortedCI(InsertStable(x, t))
  {
    if t != [] && CaseInsensitiveLess(t[0], x) {
      InsertStableSorted(x, t[1..]);
      var r := InsertStable(x, t);
      var tail := InsertStable(x, t[1..]);
      assert r == [t[0]] + tail;
      forall i, j | 0 <= i < j < |r|
        ensures !CaseInsensitiveLess(r[j], r[i])
      {
        if i > 0 {
          assert r[i] == tail[i - 1] && r[j] == tail[j - 1];
        } else {
          FirstNotAbove(x, t, r, tail, j);
        }
      }
    } else if t != [] {
      var r := InsertStable(x, t);
      assert r == [x] + t;
      forall i, j | 0 <= i < j < |r|
        ensures !CaseInsensitiveLess(r[j], r[i])
      {
        if i > 0 {
          assert r[i] == t[i - 1] && r[j] == t[j - 1];
        } else {
          var lt0, lx, ltk := ToLower(t[0]), ToLower(x), ToLower(r[j]);
          assert r[j] == t[j - 1];
          if Less(ltk, lx) {
            LessTotal(lt0, lx);
            if Less(lx, lt0) {
              LessTransitive(ltk, lx, lt0);
            }
          }
        }
      }
    }
  }

  lemma FirstNotAbove(x: string, t: seq<string>, r: seq<string>, tail: seq<string>, j: int)
    requires SortedCI(t) && t != [] && CaseInsensitiveLess(t[0], x)
    requires tail == InsertStable(x, t[1..]) && r == [t[0]] + tail
    requires 1 <= j < |r|
    ensures !CaseInsensitiveLess(r[j], t[0])
  {
    assert r[j] == tail[j - 1];
    assert r[j] in multiset(tail);
    assert r[j] in multiset(t[1..]) + multiset{x};
    if r[j] == x {
      LessAsymmetric(ToLower(t[0]), ToLower(x));
    } else {
      assert r[j] in t[1..];
      var k :| 0 <= k < |t[1..]| && t[1..][k] == r[j];
      assert t[k + 1] == r[j];
    }
  }

  lemma LessAsymmetric(a: string, b: string)
    requires Less(a, b)
    ensures !Less(b, a)
  {
    if Less(b, a) {
      LessTransitive(a, b, a);
      LessIrreflexive(a);
    }
  }

  /** The stable sort orders its result case-insensitively. */
  lemma {:induction false} StableSortSorted(s: seq<string>)
    ensures SortedCI(StableSort(s))
  {
    if s != [] {
      StableSortSorted(s[1..]);
      InsertStableSorted(s[0], StableSort(s[1..]));
    }
  }

  /** The stable sort neither loses nor invents entries. */
  lemma {:induction false} StableSortPermutes(s: seq<string>)
    ensures multiset(StableSort(s)) == multiset(s)
  {
    if s != [] {
      StableSortPermutes(s[1..]);
      assert s == [s[0]] + s[1..];
    }
  }

  /** The entries whose lower-cased form is `key`, in order. */
  function WithKey(s: seq<string>, key: string): (r: seq<string>)
  {
    if s == [] then []
    else if ToLower(s[0]) == key then [s[0]] + WithKey(s[1..], key)
    else WithKey(s[1..], key)
  }

  lemma {:induction false} InsertStableWithKey(x: string, t: seq<string>, key: string)
    ensures WithKey(InsertStable(x, t), key)
         == if ToLower(x) == key then [x] + WithKey(t, key) else WithKey(t, key)
  {
    if t != [] && CaseInsensitiveLess(t[0], x) {
      InsertStableWithKey(x, t[1..], key);
      var r := InsertStable(x, t);
      assert r == [t[0]] + InsertStable(x, t[1..]);
      assert r[1..] == InsertStable(x, t[1..]);
      if ToLower(x) == key {
        LessIrreflexive(key);
        assert ToLower(t[0]) != key;
      }
    } else {
      assert ([x] + t)[1..] == t;
    }
  }

  /**
   * Stability: among entries that compare equal (the same lower-cased
   * form) the sort keeps the input order.
   */
  lemma {:induction false} StableSortIsStable(s: seq<string>, key: string)
    ensures WithKey(StableSort(s), key) == WithKey(s, key)
  {
    if s != [] {
      StableSortIsStable(s[1..], key);
      InsertStableWithKey(s[0], StableSort(s[1..]), key);
    }
  }
}
