/** Merkle roots: `_build_merkle_root` in `tools/anchor_generator.py` and `tools/verify_anchor.py`, and
    `compute_root` in `tools/hpl-agent/hpl_agent/ci/merkle.py`. The hash of a pair is a parameter. */
module Merkle {

  type Pairing = (string, string) -> string

  /** The level above: neighbours are paired, a last node without neighbour is paired with itself. */
  function Up(pair: Pairing, level: seq<string>): (r: seq<string>)
    ensures |r| == (|level| + 1) / 2
  {
    if level == [] then []
    else if |level| == 1 then [pair(level[0], level[0])]
    else [pair(level[0], level[1])] + Up(pair, level[2..])
  }

  function Root(pair: Pairing, level: seq<string>): string
    requires level != []
    decreases |level|
  {
    if |level| == 1 then level[0] else Root(pair, Up(pair, level))
  }

  const SHA_PREFIX := "sha256:"

  function StripPrefix(value: string): string {
    if SHA_PREFIX <= value then value[|SHA_PREFIX|..] else value
  }

  function StripPrefixes(values: seq<string>): seq<string> {
    seq(|values|, i requires 0 <= i < |values| => StripPrefix(values[i]))
  }

  lemma RootOfTwo(pair: Pairing, a: string, b: string)
    ensures Root(pair, [a, b]) == pair(a, b)
  {
    assert [a, b][2..] == [];
    assert Up(pair, [a, b]) == [pair(a, b)];
  }

  /** The roots of one, two and three leaves: left before right, and the odd one with itself. */
  lemma SmallRoots(pair: Pairing, a: string, b: string, c: string)
    ensures Root(pair, [a]) == a && Root(pair, [a, b]) == pair(a, b)
    ensures Root(pair, [a, b, c]) == pair(pair(a, b), pair(c, c))
  {
    RootOfTwo(pair, a, b);
    assert [a, b, c][2..] == [c];
    assert Up(pair, [a, b, c]) == [pair(a, b), pair(c, c)];
    RootOfTwo(pair, pair(a, b), pair(c, c));
  }

  // ----- the two loops

  lemma {:induction false} UpAt(pair: Pairing, level: seq<string>, i: nat)
    requires 2 * i < |level|
    ensures Up(pair, level)[i]
            == pair(level[2 * i], if 2 * i + 1 < |level| then level[2 * i + 1] else level[2 * i])
  {
    if i > 0 { UpAt(pair, level[2..], i - 1); }
  }

  /** Pairing a level of odd length is pairing it with its last node repeated. */
  lemma {:induction false} PaddingKeepsUp(pair: Pairing, level: seq<string>)
    requires |level| % 2 == 1
    ensures Up(pair, level + [level[|level| - 1]]) == Up(pair, level)
  {
    var padded := level + [level[|level| - 1]];
    assert padded[0] == level[0];
    if |level| == 1 {
      assert padded[2..] == [];
    } else {
      assert padded[1] == level[1] && padded[2..] == level[2..] + [level[2..][|level| - 3]];
      PaddingKeepsUp(pair, level[2..]);
    }
  }

  /** The body of the anchor's outer loop: pads an odd level in place and pairs by index. */
  method PadAndPair(pair: Pairing, unpadded: seq<string>) returns (nextLevel: seq<string>)
    ensures nextLevel == Up(pair, unpadded)
  {
    var level := unpadded;
    if |level| % 2 == 1 {
      PaddingKeepsUp(pair, level);
      level := level + [level[|level| - 1]];
    }
    nextLevel := [];
    var idx := 0;
    while idx < |level|
      invariant idx <= |level| && idx == 2 * |nextLevel|
      invariant nextLevel == Up(pair, level)[..|nextLevel|]
    {
      UpAt(pair, level, |nextLevel|);
      nextLevel := nextLevel + [pair(level[idx], level[idx + 1])];
      idx := idx + 2;
    }
  }

  /** The anchor's `_build_merkle_root`. */
  method BuildMerkleRoot(pair: Pairing, leafHashes: seq<string>, emptyDigest: string) returns (root: string)
    ensures leafHashes == [] ==> root == emptyDigest
    ensures leafHashes != [] ==> root == SHA_PREFIX + Root(pair, StripPrefixes(leafHashes))
  {
    var nodes := StripPrefixes(leafHashes);
    if nodes == [] { return emptyDigest; }
    var level := nodes;
    while |level| > 1
      invariant level != [] && Root(pair, level) == Root(pair, nodes)
      decreases |level|
    {
      level := PadAndPair(pair, level);
    }
    root := SHA_PREFIX + level[0];
  }

  /** The body of the agent's outer loop: reuses the left node where the right one is missing. */
  method PairReusingLeft(pair: Pairing, current: seq<string>) returns (nextLevel: seq<string>)
    ensures nextLevel == Up(pair, current)
  {
    nextLevel := [];
    var i := 0;
    while i < |current|
      invariant i == 2 * |nextLevel| && |nextLevel| <= |Up(pair, current)|
      invariant nextLevel == Up(pair, current)[..|nextLevel|]
    {
      UpAt(pair, current, |nextLevel|);
      var left := current[i];
      var right := if i + 1 < |current| then current[i + 1] else left;
      nextLevel := nextLevel + [pair(left, right)];
      i := i + 2;
    }
  }

  /** The agent's `compute_root`. */
  method ComputeRoot(pair: Pairing, leaves: seq<string>, emptyDigest: string) returns (root: string)
    ensures leaves == [] ==> root == emptyDigest
    ensures leaves != [] ==> root == Root(pair, leaves)
  {
    if leaves == [] { return emptyDigest; }
    if |leaves| == 1 { return leaves[0]; }
    var current := leaves;
    while |current| > 1
      invariant current != [] && Root(pair, current) == Root(pair, leaves)
      decreases |current|
    {
      current := PairReusingLeft(pair, current);
    }
    root := current[0];
  }

  // ----- binding

  /** The pairs hashed to get from a level to the one above. */
  function LevelPairs(level: seq<string>): set<(string, string)> {
    if level == [] then {}
    else if |level| == 1 then {(level[0], level[0])}
    else {(level[0], level[1])} + LevelPairs(level[2..])
  }

  /** Every pair hashed on the way from a list of leaves to its root. */
  function Hashed(pair: Pairing, level: seq<string>): set<(string, string)>
    decreases |level|
  {
    if |level| <= 1 then {} else LevelPairs(level) + Hashed(pair, Up(pair, level))
  }

  /** No two different pairs among these have the same hash. A hash into digests of fixed width cannot be
      collision-free on all strings, so the hypothesis speaks only of what was actually hashed. */
  ghost predicate NoCollision(pair: Pairing, among: set<(string, string)>) {
    forall x, y :: x in among && y in among && pair(x.0, x.1) == pair(y.0, y.1) ==> x == y
  }

  /** The first pair of a level and of the level above. */
  function FirstPair(level: seq<string>): (string, string)
    requires level != []
  {
    (level[0], if |level| > 1 then level[1] else level[0])
  }

  lemma FirstPairsEqual(pair: Pairing, a: seq<string>, b: seq<string>, among: set<(string, string)>)
    requires a != [] && b != [] && Up(pair, a) == Up(pair, b)
    requires NoCollision(pair, among) && LevelPairs(a) <= among && LevelPairs(b) <= among
    ensures FirstPair(a) == FirstPair(b)
  {
    var x, y := FirstPair(a), FirstPair(b);
    assert x in LevelPairs(a) && y in LevelPairs(b);
    assert pair(x.0, x.1) == Up(pair, a)[0] == Up(pair, b)[0] == pair(y.0, y.1);
  }

  /** A level determines the one below it, up to the repetition of a last node that has no neighbour. */
  lemma {:induction false} UpBinds(pair: Pairing, a: seq<string>, b: seq<string>, among: set<(string, string)>)
    requires NoCollision(pair, among) && LevelPairs(a) <= among && LevelPairs(b) <= among
    requires Up(pair, a) == Up(pair, b)
    ensures a == b || (|a| % 2 == 1 && b == a + [a[|a| - 1]]) || (|b| % 2 == 1 && a == b + [b[|b| - 1]])
  {
    if a != [] && b != [] {
      FirstPairsEqual(pair, a, b, among);
      if |a| > 1 && |b| > 1 {
        UpTail(pair, a);
        UpTail(pair, b);
        UpBinds(pair, a[2..], b[2..], among);
        assert a == [a[0], a[1]] + a[2..] && b == [b[0], b[1]] + b[2..];
      } else if |a| > 1 {
        assert |Up(pair, a)| == 1;
      } else if |b| > 1 {
        assert |Up(pair, b)| == 1;
      }
    }
  }

  lemma UpTail(pair: Pairing, level: seq<string>)
    requires |level| > 1
    ensures Up(pair, level)[1..] == Up(pair, level[2..])
  {}

  /** Leaf lists of one length with one root are one list, as far as the hash has no collision on what was hashed. */
  lemma {:induction false} RootBinds(pair: Pairing, a: seq<string>, b: seq<string>)
    requires |a| == |b| > 0 && Root(pair, a) == Root(pair, b)
    requires NoCollision(pair, Hashed(pair, a) + Hashed(pair, b))
    ensures a == b
    decreases |a|
  {
    if |a| > 1 {
      var among := Hashed(pair, a) + Hashed(pair, b);
      assert Hashed(pair, Up(pair, a)) + Hashed(pair, Up(pair, b)) <= among;
      RootBinds(pair, Up(pair, a), Up(pair, b));
      UpBinds(pair, a, b, among);
    }
  }

  /** Equal length is necessary: a list of odd length from three on has the root of the list with its last
      leaf repeated, whatever the hash; for a single leaf that takes a leaf that is its own pair hash. */
  lemma RepeatedLastLeaf(pair: Pairing, leaves: seq<string>)
    requires |leaves| % 2 == 1
    ensures var longer := leaves + [leaves[|leaves| - 1]];
            Root(pair, longer) == Root(pair, leaves) <==> |leaves| >= 3 || pair(leaves[0], leaves[0]) == leaves[0]
  {
    var longer := leaves + [leaves[|leaves| - 1]];
    PaddingKeepsUp(pair, leaves);
    if |leaves| == 1 { assert Up(pair, longer) == [pair(leaves[0], leaves[0])]; }
  }

  /** A level used as leaves has the root of the level below. */
  lemma LevelAboveSharesRoot(pair: Pairing, leaves: seq<string>)
    requires |leaves| > 1
    ensures Root(pair, Up(pair, leaves)) == Root(pair, leaves) && |Up(pair, leaves)| < |leaves|
  {}

  // ----- the number of leaves

  /** The hash of a node paired with itself, `k` times over. */
  function Climb(pair: Pairing, x: string, k: nat): string
    decreases k
  {
    if k == 0 then x else Climb(pair, pair(x, x), k - 1)
  }

  lemma {:induction false} ClimbTwice(pair: Pairing, x: string, i: nat, j: nat)
    ensures Climb(pair, x, i + j) == Climb(pair, Climb(pair, x, i), j)
    decreases i
  {
    if i > 0 { ClimbTwice(pair, pair(x, x), i - 1, j); }
  }

  lemma ClimbOnce(pair: Pairing, x: string, i: nat)
    ensures Climb(pair, x, i + 1) == pair(Climb(pair, x, i), Climb(pair, x, i))
  {
    ClimbTwice(pair, x, i, 1);
    assert forall y :: Climb(pair, y, 1) == Climb(pair, pair(y, y), 0);
  }

  /** How many levels lie above `n` leaves. */
  function Height(n: nat): nat
    requires n > 0
  {
    if n == 1 then 0 else 1 + Height((n + 1) / 2)
  }

  lemma {:induction false} HeightMonotone(m: nat, n: nat)
    requires 0 < m <= n
    ensures Height(m) <= Height(n)
  {
    if m > 1 { HeightMonotone((m + 1) / 2, (n + 1) / 2); }
  }

  function Constant(x: string, n: nat): seq<string> {
    seq(n, i => x)
  }

  lemma {:induction false} UpConstant(pair: Pairing, x: string, n: nat)
    ensures Up(pair, Constant(x, n)) == Constant(pair(x, x), (n + 1) / 2)
    ensures LevelPairs(Constant(x, n)) <= {(x, x)}
  {
    if n > 1 {
      assert Constant(x, n)[2..] == Constant(x, n - 2);
      UpConstant(pair, x, n - 2);
    }
  }

  /** The pair of a climbed node with itself. */
  function TwinAt(pair: Pairing, x: string, i: nat): (string, string) {
    (Climb(pair, x, i), Climb(pair, x, i))
  }

  /** One of the first `h` such pairs. */
  ghost predicate OnClimb(pair: Pairing, x: string, h: nat, p: (string, string)) {
    exists i: nat :: i < h && p == TwinAt(pair, x, i)
  }

  /** The root of equal leaves, and what is hashed on the way. */
  lemma {:induction false} RootOfConstant(pair: Pairing, x: string, n: nat)
    requires n > 0
    ensures Root(pair, Constant(x, n)) == Climb(pair, x, Height(n))
    ensures forall p :: p in Hashed(pair, Constant(x, n)) ==> OnClimb(pair, x, Height(n), p)
    decreases n
  {
    if n > 1 {
      UpConstant(pair, x, n);
      RootOfConstant(pair, pair(x, x), (n + 1) / 2);
      forall p | p in Hashed(pair, Constant(x, n)) ensures OnClimb(pair, x, Height(n), p) {
        if p in LevelPairs(Constant(x, n)) {
          assert p == TwinAt(pair, x, 0);
        } else {
          assert OnClimb(pair, pair(x, x), Height((n + 1) / 2), p);
          var i: nat :| i < Height((n + 1) / 2) && p == TwinAt(pair, pair(x, x), i);
          assert p == TwinAt(pair, x, i + 1);
        }
      }
    }
  }

  predicate Collide(pair: Pairing, x: string, i: nat, j: nat) {
    Climb(pair, x, i) != Climb(pair, x, j) && Climb(pair, x, i + 1) == Climb(pair, x, j + 1)
  }

  /** No two of the first `h` nodes of a climb collide. */
  ghost predicate ClimbsApart(pair: Pairing, x: string, h: nat) {
    forall i: nat, j: nat :: i < h && j < h ==> !Collide(pair, x, i, j)
  }

  /** On a cycle, climbing is injective. */
  lemma CycleApart(pair: Pairing, y: string, p: nat, h: nat)
    requires p > 0 && Climb(pair, y, p) == y
    ensures ClimbsApart(pair, y, h)
  {
    forall i: nat, j: nat ensures !Collide(pair, y, i, j) {
      AroundCycle(pair, y, p, i);
      AroundCycle(pair, y, p, j);
    }
  }

  lemma AroundCycle(pair: Pairing, y: string, p: nat, i: nat)
    requires p > 0 && Climb(pair, y, p) == y
    ensures Climb(pair, Climb(pair, y, i + 1), p - 1) == Climb(pair, y, i)
  {
    ClimbTwice(pair, y, i + 1, p - 1);
    ClimbTwice(pair, y, p, i);
    assert (i + 1) + (p - 1) == p + i;
  }

  /** Two nodes that collide lead into a cycle. */
  lemma CycleAfterCollision(pair: Pairing, x: string, i: nat, j: nat, h: nat)
    requires i < j && Collide(pair, x, i, j)
    ensures ClimbsApart(pair, Climb(pair, x, i + 1), h)
  {
    ClimbTwice(pair, x, i + 1, j - i);
    assert i + 1 + (j - i) == j + 1;
    CycleApart(pair, Climb(pair, x, i + 1), j - i, h);
  }

  /** Whatever the hash, some leaf climbs without collision: the first one tried, or one on the cycle it
      runs into. */
  lemma SomeClimbsApart(pair: Pairing, h: nat) returns (x: string)
    ensures ClimbsApart(pair, x, h)
  {
    x := "";
    if i: nat, j: nat :| i < h && j < h && Collide(pair, x, i, j) {
      if i < j {
        CycleAfterCollision(pair, x, i, j, h);
        x := Climb(pair, x, i + 1);
      } else {
        CycleAfterCollision(pair, x, j, i, h);
        x := Climb(pair, x, j + 1);
      }
    }
  }

  /** For every hash and any two different lengths there are two lists with one root, without any collision. */
  lemma DifferentLengthsShareRoot(pair: Pairing, m: nat, n: nat) returns (a: seq<string>, b: seq<string>)
    requires 0 < m < n
    ensures |a| == m && |b| == n && Root(pair, a) == Root(pair, b)
    ensures NoCollision(pair, Hashed(pair, a) + Hashed(pair, b))
  {
    HeightMonotone(m, n);
    var h, d := Height(n), Height(n) - Height(m);
    var x := SomeClimbsApart(pair, h);
    a, b := Constant(Climb(pair, x, d), m), Constant(x, n);
    RootOfConstant(pair, Climb(pair, x, d), m);
    RootOfConstant(pair, x, n);
    ClimbTwice(pair, x, d, Height(m));
    forall p | p in Hashed(pair, a) ensures OnClimb(pair, x, h, p) { ClimbFrom(pair, x, d, Height(m), p); }
    TwinsApart(pair, x, h, Hashed(pair, a) + Hashed(pair, b));
  }

  lemma ClimbFrom(pair: Pairing, x: string, d: nat, h: nat, p: (string, string))
    requires OnClimb(pair, Climb(pair, x, d), h, p)
    ensures OnClimb(pair, x, d + h, p)
  {
    var i: nat :| i < h && p == TwinAt(pair, Climb(pair, x, d), i);
    ClimbTwice(pair, x, d, i);
    assert p == TwinAt(pair, x, d + i);
  }

  lemma TwinsApart(pair: Pairing, x: string, h: nat, among: set<(string, string)>)
    requires ClimbsApart(pair, x, h) && forall p :: p in among ==> OnClimb(pair, x, h, p)
    ensures NoCollision(pair, among)
  {
    forall p, q | p in among && q in among && pair(p.0, p.1) == pair(q.0, q.1) ensures p == q {
      var i: nat :| i < h && p == TwinAt(pair, x, i);
      var j: nat :| j < h && q == TwinAt(pair, x, j);
      ClimbOnce(pair, x, i);
      ClimbOnce(pair, x, j);
      assert !Collide(pair, x, i, j);
    }
  }

  /** One root means one list, for all lists of these lengths that hash without collision. */
  ghost predicate RootsBind(pair: Pairing, m: nat, n: nat)
    requires m > 0 && n > 0
  {
    forall a: seq<string>, b: seq<string> ::
      |a| == m && |b| == n && Root(pair, a) == Root(pair, b) && NoCollision(pair, Hashed(pair, a) + Hashed(pair, b)) ==>
        a == b
  }

  /** Whatever the hash, roots bind lists of lengths `m` and `n` exactly if the lengths are equal. */
  lemma RootsBindIffSameLength(pair: Pairing, m: nat, n: nat)
    requires m > 0 && n > 0
    ensures RootsBind(pair, m, n) <==> m == n
  {
    if m < n {
      var a, b := DifferentLengthsShareRoot(pair, m, n);
    } else if n < m {
      var b, a := DifferentLengthsShareRoot(pair, n, m);
      assert Hashed(pair, a) + Hashed(pair, b) == Hashed(pair, b) + Hashed(pair, a);
    } else {
      forall a: seq<string>, b: seq<string> |
        |a| == m && |b| == n && Root(pair, a) == Root(pair, b) && NoCollision(pair, Hashed(pair, a) + Hashed(pair, b))
        ensures a == b
      {
        RootBinds(pair, a, b);
      }
    }
  }

  // ----- pair hashes made from a string hash

  /** `hash_pair` of the agent: hashes the concatenation of the two digests. */
  function HashPair(sha: string -> string): Pairing {
    (left, right) => sha(left + right)
  }

  /** The root of three leaves in terms of the string hash. */
  lemma ConcatenationMeans(sha: string -> string, a: string, b: string, c: string)
    ensures Root(HashPair(sha), [a, b, c]) == sha(sha(a + b) + sha(c + c))
  {
    SmallRoots(HashPair(sha), a, b, c);
  }

  ghost predicate NoStringCollision(sha: string -> string, among: set<string>) {
    forall x, y :: x in among && y in among && sha(x) == sha(y) ==> x == y
  }

  function Texts(pairs: set<(string, string)>): set<string> {
    set p | p in pairs :: p.0 + p.1
  }

  predicate AllWidth(items: seq<string>, width: nat) {
    forall x :: x in items ==> |x| == width
  }

  lemma {:induction false} UpWidth(sha: string -> string, level: seq<string>, width: nat)
    requires forall x :: |sha(x)| == width
    requires AllWidth(level, width)
    ensures AllWidth(Up(HashPair(sha), level), width)
    ensures forall p :: p in LevelPairs(level) ==> |p.0| == width
  {
    if |level| > 1 {
      assert level == [level[0], level[1]] + level[2..];
      UpWidth(sha, level[2..], width);
    } else if |level| == 1 {
      assert level[0] in level;
    }
  }

  lemma {:induction false} HashedWidth(sha: string -> string, level: seq<string>, width: nat)
    requires forall x :: |sha(x)| == width
    requires AllWidth(level, width)
    ensures forall p :: p in Hashed(HashPair(sha), level) ==> |p.0| == width
    decreases |level|
  {
    if |level| > 1 {
      UpWidth(sha, level, width);
      HashedWidth(sha, Up(HashPair(sha), level), width);
    }
  }

  /** Concatenating digests without a separator binds too, because all digests have the same width. */
  lemma ConcatenationBinds(sha: string -> string, width: nat, a: seq<string>, b: seq<string>)
    requires forall x :: |sha(x)| == width
    requires AllWidth(a, width) && AllWidth(b, width) && |a| == |b| > 0
    requires Root(HashPair(sha), a) == Root(HashPair(sha), b)
    requires NoStringCollision(sha, Texts(Hashed(HashPair(sha), a) + Hashed(HashPair(sha), b)))
    ensures a == b
  {
    var pair := HashPair(sha);
    var among := Hashed(pair, a) + Hashed(pair, b);
    HashedWidth(sha, a, width);
    HashedWidth(sha, b, width);
    forall x, y | x in among && y in among && pair(x.0, x.1) == pair(y.0, y.1) ensures x == y {
      assert x.0 + x.1 in Texts(among) && y.0 + y.1 in Texts(among);
      assert x.0 == (x.0 + x.1)[..width] == (y.0 + y.1)[..width] == y.0;
      assert x.1 == (x.0 + x.1)[width..] == (y.0 + y.1)[width..] == y.1;
    }
    RootBinds(pair, a, b);
  }
}
