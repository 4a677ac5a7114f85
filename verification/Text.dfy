/** Text primitives the Python sources lean on: `str.upper`, `str.lower`, `str.strip`,
    the code-point order of `str`, and `sorted` over lists and sets of strings. */
module Text {

  datatype Option<+T> = None | Some(value: T)

  // ----- characters and case

  /** The characters for which Python's `str.isspace` holds, which is also what `\s` matches. */
  predicate IsSpace(c: char) {
    var n := c as int;
    9 <= n <= 13 || 28 <= n <= 32 || n == 0x85 || n == 0xA0 || n == 0x1680 || 0x2000 <= n <= 0x200A
    || n == 0x2028 || n == 0x2029 || n == 0x202F || n == 0x205F || n == 0x3000
  }

  function UpperChar(c: char): char {
    if 'a' <= c <= 'z' then (c as int - 32) as char else c
  }

  function LowerChar(c: char): char {
    if 'A' <= c <= 'Z' then (c as int + 32) as char else c
  }

  function Upper(s: string): string {
    seq(|s|, i requires 0 <= i < |s| => UpperChar(s[i]))
  }

  function Lower(s: string): string {
    seq(|s|, i requires 0 <= i < |s| => LowerChar(s[i]))
  }

  predicate StartsWith(s: string, prefix: string) {
    prefix <= s
  }

  predicate Contains(s: string, part: string) {
    part <= s || (s != "" && Contains(s[1..], part))
  }

  /** `not s.strip()` */
  predicate Blank(s: string) {
    forall i :: 0 <= i < |s| ==> IsSpace(s[i])
  }

  function StripLeft(s: string): string {
    if s != "" && IsSpace(s[0]) then StripLeft(s[1..]) else s
  }

  function StripRight(s: string): string {
    if s != "" && IsSpace(s[|s| - 1]) then StripRight(s[..|s| - 1]) else s
  }

  function Strip(s: string): string {
    StripRight(StripLeft(s))
  }

  // ----- what the primitives mean

  /** Case mapping keeps the length and changes exactly the ASCII letters of the other case, by their position
      in the alphabet. */
  lemma CaseMeans(s: string, i: nat)
    requires i < |s|
    ensures |Upper(s)| == |Lower(s)| == |s|
    ensures Upper(s)[i] == if 'a' <= s[i] <= 'z' then 'A' + (s[i] - 'a') else s[i]
    ensures Lower(s)[i] == if 'A' <= s[i] <= 'Z' then 'a' + (s[i] - 'A') else s[i]
  {}

  /** The white space of Python, code point by code point. */
  lemma SpaceMeans(c: char)
    ensures IsSpace(c) <==>
              c as int in {9, 10, 11, 12, 13, 28, 29, 30, 31, 32, 133, 160, 5760, 8192, 8193, 8194, 8195, 8196, 8197,
                           8198, 8199, 8200, 8201, 8202, 8232, 8233, 8239, 8287, 12288}
  {}

  predicate OccursAt(s: string, part: string, i: int) {
    0 <= i <= |s| && part <= s[i..]
  }

  /** A text contains another exactly if it occurs at some position. */
  lemma {:induction false} ContainsMeans(s: string, part: string)
    ensures Contains(s, part) <==> exists i :: OccursAt(s, part, i)
  {
    assert s[0..] == s;
    if part <= s {
      assert OccursAt(s, part, 0);
    } else if s != "" {
      ContainsMeans(s[1..], part);
      if i :| OccursAt(s, part, i) {
        assert s[i..] == s[1..][i - 1..];
        assert OccursAt(s[1..], part, i - 1);
      }
      if i :| OccursAt(s[1..], part, i) {
        assert s[i + 1..] == s[1..][i..];
        assert OccursAt(s, part, i + 1);
      }
    }
  }

  lemma BlankAppend(a: string, b: string)
    ensures Blank(a + b) <==> Blank(a) && Blank(b)
  {
    if Blank(a + b) {
      forall i | 0 <= i < |a| ensures IsSpace(a[i]) { assert (a + b)[i] == a[i]; }
      forall i | 0 <= i < |b| ensures IsSpace(b[i]) { assert (a + b)[|a| + i] == b[i]; }
    }
  }

  lemma {:induction false} StripLeftMeans(s: string) returns (before: string)
    ensures s == before + StripLeft(s) && Blank(before)
  {
    before := "";
    if s != "" && IsSpace(s[0]) {
      var more := StripLeftMeans(s[1..]);
      before := [s[0]] + more;
      BlankAppend([s[0]], more);
      assert s == [s[0]] + s[1..];
    }
  }

  lemma {:induction false} StripRightMeans(s: string) returns (after: string)
    ensures s == StripRight(s) + after && Blank(after)
    ensures StripRight(s) != "" ==> !IsSpace(StripRight(s)[|StripRight(s)| - 1])
  {
    after := "";
    if s != "" && IsSpace(s[|s| - 1]) {
      var front, last := s[..|s| - 1], [s[|s| - 1]];
      var more := StripRightMeans(front);
      after := more + last;
      BlankAppend(more, last);
      assert s == front + last;
    }
  }

  /** What is stripped is white space on either side, and what is left neither starts nor ends with any. */
  lemma StripMeans(s: string) returns (before: string, after: string)
    ensures s == before + Strip(s) + after && Blank(before) && Blank(after)
    ensures Strip(s) != "" ==> !IsSpace(Strip(s)[0]) && !IsSpace(Strip(s)[|Strip(s)| - 1])
  {
    before := StripLeftMeans(s);
    after := StripRightMeans(StripLeft(s));
    StripLeftBlank(s);
    if StripLeft(s) != "" { StripRightKeepsHead(StripLeft(s)); }
  }

  lemma UpperIdempotent(s: string)
    ensures Upper(Upper(s)) == Upper(s)
    ensures Blank(Upper(s)) <==> Blank(s)
  {
    forall i | 0 <= i < |s|
      ensures Upper(s)[i] == UpperChar(s[i]) && IsSpace(Upper(s)[i]) == IsSpace(s[i])
    {}
    assert Upper(Upper(s)) == Upper(s);
    if Blank(Upper(s)) {
      forall i | 0 <= i < |s| ensures IsSpace(s[i]) { assert IsSpace(Upper(s)[i]); }
    }
  }

  lemma {:induction false} StripLeftBlank(s: string)
    ensures StripLeft(s) == "" <==> Blank(s)
    ensures StripLeft(s) != "" ==> !IsSpace(StripLeft(s)[0])
  {
    if s != "" && IsSpace(s[0]) {
      StripLeftBlank(s[1..]);
      if Blank(s[1..]) {
        forall i | 0 <= i < |s| ensures IsSpace(s[i]) { if i > 0 { assert IsSpace(s[1..][i - 1]); } }
      }
      if Blank(s) {
        forall i | 0 <= i < |s[1..]| ensures IsSpace(s[1..][i]) { assert IsSpace(s[i + 1]); }
      }
    }
  }

  lemma {:induction false} StripRightKeepsHead(s: string)
    requires s != "" && !IsSpace(s[0])
    ensures StripRight(s) != "" && StripRight(s)[0] == s[0]
    ensures !IsSpace(StripRight(s)[|StripRight(s)| - 1])
  {
    if IsSpace(s[|s| - 1]) { StripRightKeepsHead(s[..|s| - 1]); }
  }

  lemma StripIdempotent(s: string)
    ensures Strip(Strip(s)) == Strip(s)
    ensures Strip(s) == "" <==> Blank(s)
    ensures Blank(Strip(s)) <==> Blank(s)
  {
    StripLeftBlank(s);
    if StripLeft(s) != "" { StripRightKeepsHead(StripLeft(s)); }
  }

  // ----- the order of str and the sorting built on it

  /** Python's `a < b` on strings: lexicographic by code point. */
  predicate Less(a: string, b: string) {
    b != "" && (a == "" || a[0] < b[0] || (a[0] == b[0] && Less(a[1..], b[1..])))
  }

  /** The strings agree before `k`, where the first one ends or has the smaller character. */
  predicate DecidedAt(a: string, b: string, k: nat) {
    k < |b| && k <= |a| && a[..k] == b[..k] && (k == |a| || a[k] < b[k])
  }

  /** The order is decided at the first difference; a proper prefix comes first. */
  lemma {:induction false} LessMeans(a: string, b: string)
    ensures Less(a, b) <==> exists k: nat :: DecidedAt(a, b, k)
  {
    if a != "" && b != "" && a[0] == b[0] {
      LessMeans(a[1..], b[1..]);
      if k: nat :| DecidedAt(a, b, k) {
        assert k > 0;
        assert a[1..][..k - 1] == a[..k][1..] == b[..k][1..] == b[1..][..k - 1];
        assert DecidedAt(a[1..], b[1..], k - 1);
      }
      if k: nat :| DecidedAt(a[1..], b[1..], k) {
        assert a[..k + 1] == [a[0]] + a[1..][..k] && b[..k + 1] == [b[0]] + b[1..][..k];
        assert DecidedAt(a, b, k + 1);
      }
    } else {
      if Less(a, b) { assert DecidedAt(a, b, 0); }
      if k: nat :| DecidedAt(a, b, k) { assert k > 0 ==> a[..k][0] == b[..k][0]; }
    }
  }

  lemma {:induction false} LessIrreflexive(a: string)
    ensures !Less(a, a)
  {
    if a != "" { LessIrreflexive(a[1..]); }
  }

  lemma {:induction false} LessTransitive(a: string, b: string, c: string)
    requires Less(a, b) && Less(b, c)
    ensures Less(a, c)
  {
    if a != "" && a[0] == b[0] == c[0] { LessTransitive(a[1..], b[1..], c[1..]); }
  }

  lemma {:induction false} LessTotal(a: string, b: string)
    ensures a == b || Less(a, b) || Less(b, a)
  {
    if a != "" && b != "" && a[0] == b[0] {
      LessTotal(a[1..], b[1..]);
      if a[1..] == b[1..] { assert a == [a[0]] + a[1..] == b; }
    }
  }

  predicate StrictlySorted(s: seq<string>) {
    forall i, j :: 0 <= i < j < |s| ==> Less(s[i], s[j])
  }

  predicate Sorted(s: seq<string>) {
    forall i, j :: 0 <= i < j < |s| ==> !Less(s[j], s[i])
  }

  /** Two strictly sorted lists with the same elements are the same list. */
  lemma {:induction false} StrictlySortedUnique(a: seq<string>, b: seq<string>)
    requires StrictlySorted(a) && StrictlySorted(b)
    requires forall x :: x in a <==> x in b
    ensures a == b
  {
    assert b != [] ==> b[0] in b;
    if a != [] {
      assert a[0] in a && a[0] in b;
      assert b[0] in b && b[0] in a;
      var i :| 0 <= i < |b| && b[i] == a[0];
      var j :| 0 <= j < |a| && a[j] == b[0];
      if i > 0 && j > 0 {
        LessTransitive(a[0], b[0], a[0]);
        LessIrreflexive(a[0]);
      }
      assert a[0] == b[0];
      forall x ensures x in a[1..] <==> x in b[1..] {
        LessIrreflexive(a[0]);
        if x in a[1..] {
          var k :| 0 < k < |a| && a[k] == x;
          assert Less(a[0], x) && x in b;
        }
        if x in b[1..] {
          var k :| 0 < k < |b| && b[k] == x;
          assert Less(b[0], x) && x in a;
        }
      }
      StrictlySortedUnique(a[1..], b[1..]);
      assert a == [a[0]] + a[1..] == b;
    }
  }

  function Insert(x: string, s: seq<string>): seq<string> {
    if s != [] && Less(s[0], x) then [s[0]] + Insert(x, s[1..]) else [x] + s
  }

  /** `sorted(list)` */
  function Sort(s: seq<string>): seq<string> {
    if s == [] then [] else Insert(s[0], Sort(s[1..]))
  }

  /** `sorted({...})`: sorted without repetition. */
  function SortDistinct(s: seq<string>): seq<string> {
    if s == [] then [] else
      var t := SortDistinct(s[1..]);
      if s[0] in t then t else Insert(s[0], t)
  }

  lemma {:induction false} InsertMembers(x: string, s: seq<string>)
    ensures multiset(Insert(x, s)) == multiset(s) + multiset{x}
    ensures forall y :: y in Insert(x, s) <==> y == x || y in s
  {
    if s != [] && Less(s[0], x) {
      InsertMembers(x, s[1..]);
      assert s == [s[0]] + s[1..];
    }
  }

  lemma NotLessAfter(x: string, s: seq<string>)
    requires Sorted(s) && s != [] && !Less(s[0], x)
    ensures forall y :: y in s ==> !Less(y, x)
  {
    forall i | 0 <= i < |s| ensures !Less(s[i], x) {
      LessTotal(s[0], s[i]);
      if Less(s[i], x) && s[0] != s[i] { LessTransitive(s[0], s[i], x); }
    }
  }

  /** Putting a lower bound in front of a sorted list keeps it sorted. */
  lemma PrependSorted(x: string, s: seq<string>)
    requires Sorted(s) && forall y :: y in s ==> !Less(y, x)
    ensures Sorted([x] + s)
  {
    var r := [x] + s;
    forall i, j | 0 <= i < j < |r| ensures !Less(r[j], r[i]) {
      assert r[j] == s[j - 1] && r[j] in s;
      if i > 0 { assert r[i] == s[i - 1]; }
    }
  }

  lemma {:induction false} InsertSorted(x: string, s: seq<string>)
    requires Sorted(s)
    ensures Sorted(Insert(x, s))
  {
    if s != [] && Less(s[0], x) {
      InsertSorted(x, s[1..]);
      InsertMembers(x, s[1..]);
      if Less(x, s[0]) { LessTransitive(x, s[0], x); LessIrreflexive(x); }
      PrependSorted(s[0], Insert(x, s[1..]));
    } else {
      if s != [] { NotLessAfter(x, s); }
      PrependSorted(x, s);
    }
  }

  /** `sorted` returns the sorted permutation of its argument. */
  lemma {:induction false} SortCorrect(s: seq<string>)
    ensures Sorted(Sort(s)) && multiset(Sort(s)) == multiset(s)
    ensures forall x :: x in Sort(s) <==> x in s
  {
    if s != [] {
      SortCorrect(s[1..]);
      InsertSorted(s[0], Sort(s[1..]));
      InsertMembers(s[0], Sort(s[1..]));
      assert s == [s[0]] + s[1..];
    }
  }

  predicate Distinct(s: seq<string>) {
    forall i, j :: 0 <= i < j < |s| ==> s[i] != s[j]
  }

  lemma SortedDistinctIsStrict(s: seq<string>)
    requires Sorted(s) && Distinct(s)
    ensures StrictlySorted(s)
  {
    forall i, j | 0 <= i < j < |s| ensures Less(s[i], s[j]) { LessTotal(s[i], s[j]); }
  }

  lemma {:induction false} InsertDistinct(x: string, s: seq<string>)
    requires Distinct(s) && x !in s
    ensures Distinct(Insert(x, s))
  {
    if s != [] && Less(s[0], x) {
      InsertDistinct(x, s[1..]);
      InsertMembers(x, s[1..]);
      var t := Insert(x, s[1..]);
      var r := [s[0]] + t;
      forall i, j | 0 <= i < j < |r| ensures r[i] != r[j] {
        assert r[j] == t[j - 1] && r[j] in t;
        if i > 0 { assert r[i] == t[i - 1]; }
      }
    }
  }

  lemma {:induction false} SortDistinctCorrect(s: seq<string>)
    ensures StrictlySorted(SortDistinct(s))
    ensures forall x :: x in SortDistinct(s) <==> x in s
  {
    if s != [] {
      SortDistinctCorrect(s[1..]);
      var t := SortDistinct(s[1..]);
      assert s == [s[0]] + s[1..];
      if s[0] !in t {
        forall i, j | 0 <= i < j < |t| ensures t[i] != t[j] { LessIrreflexive(t[i]); }
        forall i, j | 0 <= i < j < |t| ensures !Less(t[j], t[i]) {
          if Less(t[j], t[i]) { LessTransitive(t[i], t[j], t[i]); LessIrreflexive(t[i]); }
        }
        InsertSorted(s[0], t);
        InsertMembers(s[0], t);
        InsertDistinct(s[0], t);
        SortedDistinctIsStrict(Insert(s[0], t));
      }
    }
  }

  /** A list that is already sorted without repetition is what `sorted(set(list))` returns. */
  lemma SortDistinctIdempotent(s: seq<string>)
    requires StrictlySorted(s)
    ensures SortDistinct(s) == s
  {
    SortDistinctCorrect(s);
    StrictlySortedUnique(SortDistinct(s), s);
  }

  /** Sorting distinct strings gives a strictly sorted list, whatever order they came in. */
  lemma {:induction false} SortOfDistinct(s: seq<string>)
    requires Distinct(s)
    ensures StrictlySorted(Sort(s)) && Distinct(Sort(s))
  {
    if s != [] {
      SortOfDistinct(s[1..]);
      SortCorrect(s[1..]);
      InsertDistinct(s[0], Sort(s[1..]));
    }
    SortCorrect(s);
    SortedDistinctIsStrict(Sort(s));
  }
}
