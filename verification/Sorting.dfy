/** Cluster stacks in the order of their versions: the sort interface and what a sorted slice guarantees. */
module Sorting {
  import opened Results
  import opened Versions
  import opened ClusterStacks

  /** Of the same channel, and `y` has the greater major, or the same and the greater patch. */
  ghost predicate Before(x: ClusterStack, y: ClusterStack) {
    x.version.channel == y.version.channel && Newer(y.version, x.version)
  }

  lemma BeforeIff(x: ClusterStack, y: ClusterStack)
    ensures Before(x, y) <==> Compare(x.version, y.version) == Some(-1)
  {
    CompareIff(x.version, y.version);
  }

  ghost predicate SameChannel(s: seq<ClusterStack>) {
    forall i, j :: 0 <= i < |s| && 0 <= j < |s| ==> s[i].version.channel == s[j].version.channel
  }

  /** No element is less than its left neighbour. */
  ghost predicate AdjacentSorted(s: seq<ClusterStack>) {
    forall i :: 0 < i < |s| ==> !Before(s[i], s[i - 1])
  }

  /** Less: incomparable versions answer false. */
  method Less(a: array<ClusterStack>, i: nat, j: nat) returns (less: bool)
    requires i < a.Length && j < a.Length
    ensures less <==> Before(a[i], a[j])
  {
    BeforeIff(a[i], a[j]);
    var cmp := Compare(a[i].version, a[j].version);
    if cmp.None? {
      return false;
    }
    less := cmp.value == -1;
  }

  method Swap(a: array<ClusterStack>, i: nat, j: nat)
    requires i < a.Length && j < a.Length
    modifies a
    ensures a[..] == old(a[..])[i := old(a[j])][j := old(a[i])]
    ensures multiset(a[..]) == multiset(old(a[..]))
  {
    a[i], a[j] := a[j], a[i];
  }

  /** Within a channel versions are equal or one is before the other, and "not after" is transitive. */
  lemma BeforeLaws(x: ClusterStack, y: ClusterStack, z: ClusterStack)
    requires x.version.channel == y.version.channel == z.version.channel
    ensures !(Before(x, y) && Before(y, x)) && (!Before(x, y) && !Before(y, x) <==> x.version == y.version)
    ensures !Before(y, x) && !Before(z, y) ==> !Before(z, x)
  {
    CompareLaws(x.version, y.version, z.version);
    CompareLaws(y.version, z.version, x.version);
    CompareLaws(x.version, z.version, x.version);
    BeforeIff(x, y);
    BeforeIff(y, x);
    BeforeIff(z, y);
    BeforeIff(z, x);
  }

  lemma BeforeIsAsymmetric(x: ClusterStack, y: ClusterStack)
    requires Before(x, y)
    ensures !Before(y, x)
  {
    BeforeLaws(x, y, y);
  }

  /** Sort by Less and Swap, as the standard library does on short slices. */
  method Sort(a: array<ClusterStack>)
    modifies a
    ensures multiset(a[..]) == multiset(old(a[..]))
    ensures AdjacentSorted(a[..])
  {
    var i := 1;
    while i < a.Length
      invariant 1 <= i
      invariant multiset(a[..]) == multiset(old(a[..]))
      invariant forall k :: 0 < k < i && k < a.Length ==> !Before(a[k], a[k - 1])
    {
      var j := i;
      while j > 0
        invariant 0 <= j <= i < a.Length
        invariant multiset(a[..]) == multiset(old(a[..]))
        invariant forall k :: 0 < k <= i && k != j ==> !Before(a[k], a[k - 1])
        invariant 0 < j < i ==> !Before(a[j + 1], a[j - 1])
      {
        var less := Less(a, j, j - 1);
        if !less {
          break;
        }
        BeforeIsAsymmetric(a[j], a[j - 1]);
        Swap(a, j, j - 1);
        j := j - 1;
      }
      i := i + 1;
    }
  }

  /** In a sorted slice of one channel the last element is a maximum. */
  lemma {:induction false} LastIsMaximum(s: seq<ClusterStack>, i: nat)
    requires AdjacentSorted(s) && SameChannel(s) && i < |s|
    ensures !Before(s[|s| - 1], s[i])
    ensures s[i].version == s[|s| - 1].version || Before(s[i], s[|s| - 1])
    decreases |s| - i
  {
    var last := s[|s| - 1];
    assert s[i].version.channel == last.version.channel;
    BeforeLaws(s[i], last, last);
    if i < |s| - 1 {
      assert s[i + 1].version.channel == last.version.channel;
      LastIsMaximum(s, i + 1);
      BeforeLaws(s[i], s[i + 1], last);
    }
  }

  lemma SameElements(s: seq<ClusterStack>, t: seq<ClusterStack>)
    requires multiset(s) == multiset(t)
    ensures |s| == |t| && forall x :: x in s <==> x in t
  {
    assert |multiset(s)| == |s| && |multiset(t)| == |t|;
    assert forall x :: x in s <==> x in multiset(s);
    assert forall x :: x in t <==> x in multiset(t);
  }

  /** No element is greater than the last. */
  ghost predicate EndsWithMaximum(t: seq<ClusterStack>)
    requires t != []
  {
    forall x :: x in t ==> !Before(t[|t| - 1], x)
  }

  /** Two elements are ordered only if all are of their channel. */
  ghost predicate Rankable(s: seq<ClusterStack>) {
    forall x, y, z | x in s && y in s && z in s :: Before(x, y) ==> z.version.channel == x.version.channel
  }

  lemma MaximumOfSorted(s: seq<ClusterStack>, sorted: seq<ClusterStack>)
    requires multiset(s) == multiset(sorted) && s != [] && AdjacentSorted(sorted)
    ensures |sorted| == |s| && sorted[|sorted| - 1] in s
    ensures Rankable(s) ==> EndsWithMaximum(sorted)
  {
    SameElements(s, sorted);
    var last := sorted[|sorted| - 1];
    assert last in sorted;
    if Rankable(s) {
      forall x | x in sorted ensures !Before(last, x) {
        if Before(last, x) {
          RankableIsOneChannel(s, sorted, last, x);
          var k :| 0 <= k < |sorted| && sorted[k] == x;
          LastIsMaximum(sorted, k);
        }
      }
    }
  }

  lemma RankableIsOneChannel(s: seq<ClusterStack>, t: seq<ClusterStack>, x: ClusterStack, y: ClusterStack)
    requires Rankable(s) && x in s && y in s && Before(x, y) && forall z :: z in t ==> z in s
    ensures SameChannel(t)
  {
    forall i | 0 <= i < |t| ensures t[i].version.channel == x.version.channel {
      assert t[i] in t;
    }
  }

  // ---------------------------------------------------------------------------------------
  // When sorting is not enough
  // ---------------------------------------------------------------------------------------

  /** Insertion from the right, as the inner loop of the sort does it. */
  ghost function Insert(t: seq<ClusterStack>, x: ClusterStack): (r: seq<ClusterStack>)
    ensures |r| == |t| + 1
  {
    if t == [] || !Before(x, t[|t| - 1]) then t + [x] else Insert(t[..|t| - 1], x) + [t[|t| - 1]]
  }

  lemma {:induction false} InsertKeeps(t: seq<ClusterStack>, x: ClusterStack)
    ensures multiset(Insert(t, x)) == multiset(t + [x])
  {
    if t != [] && Before(x, t[|t| - 1]) {
      var front, last := t[..|t| - 1], t[|t| - 1];
      assert t == front + [last];
      InsertKeeps(front, x);
      SwapLast(Insert(front, x), front, x, last);
    }
  }

  /** `r` is a permutation of `front + [x]`; then the last two may change places. */
  lemma SwapLast<T>(r: seq<T>, front: seq<T>, x: T, last: T)
    requires multiset(r) == multiset(front + [x])
    ensures multiset(r + [last]) == multiset(front + [last] + [x])
  {
  }

  lemma {:induction false} InsertSorts(t: seq<ClusterStack>, x: ClusterStack)
    requires AdjacentSorted(t)
    ensures AdjacentSorted(Insert(t, x))
    ensures Insert(t, x)[|t|] == x || (t != [] && Insert(t, x)[|t|] == t[|t| - 1])
  {
    if t != [] && Before(x, t[|t| - 1]) {
      var front, last := t[..|t| - 1], t[|t| - 1];
      InsertSorts(front, x);
      BeforeIsAsymmetric(x, last);
      var r := Insert(front, x);
      assert front != [] ==> front[|front| - 1] == t[|t| - 2];
      AppendSorted(r, last);
    } else {
      AppendSorted(t, x);
    }
  }

  lemma AppendSorted(t: seq<ClusterStack>, x: ClusterStack)
    requires AdjacentSorted(t) && (t != [] ==> !Before(x, t[|t| - 1]))
    ensures AdjacentSorted(t + [x])
  {
    var r := t + [x];
    forall i | 0 < i < |r| ensures !Before(r[i], r[i - 1]) {
      if i < |t| {
        assert r[i] == t[i] && r[i - 1] == t[i - 1];
      }
    }
  }

  ghost function Sorted(s: seq<ClusterStack>): seq<ClusterStack> {
    if s == [] then [] else Insert(Sorted(s[..|s| - 1]), s[|s| - 1])
  }

  lemma {:induction false} SortedIsSorted(s: seq<ClusterStack>)
    ensures AdjacentSorted(Sorted(s))
  {
    if s != [] {
      SortedIsSorted(s[..|s| - 1]);
      InsertSorts(Sorted(s[..|s| - 1]), s[|s| - 1]);
    }
  }

  lemma {:induction false} SortedKeeps(s: seq<ClusterStack>)
    ensures multiset(Sorted(s)) == multiset(s)
  {
    if s != [] {
      var front, last := s[..|s| - 1], s[|s| - 1];
      SortedKeeps(front);
      InsertKeeps(Sorted(front), last);
      SameMore(Sorted(front), front, last);
      assert s == front + [last];
    }
  }

  lemma SameMore<T>(a: seq<T>, b: seq<T>, x: T)
    requires multiset(a) == multiset(b)
    ensures multiset(a + [x]) == multiset(b + [x])
  {
  }

  /** The elements of a channel, and all others. */
  lemma {:induction false} Channels(s: seq<ClusterStack>, channel: string)
    returns (a: seq<ClusterStack>, b: seq<ClusterStack>)
    ensures multiset(a + b) == multiset(s)
    ensures (forall x :: x in a ==> x.version.channel == channel)
      && (forall x :: x in b ==> x.version.channel != channel)
  {
    a, b := [], [];
    if s != [] {
      var front, last := s[..|s| - 1], s[|s| - 1];
      a, b := Channels(front, channel);
      Interleaved(front, a, b, last);
      assert s == front + [last];
      if last.version.channel == channel {
        a := a + [last];
      } else {
        b := b + [last];
      }
    }
  }

  lemma Interleaved<T>(s: seq<T>, a: seq<T>, b: seq<T>, x: T)
    requires multiset(a + b) == multiset(s)
    ensures multiset(a + [x] + b) == multiset(s + [x]) && multiset(a + (b + [x])) == multiset(s + [x])
  {
    assert multiset(a + [x] + b) == multiset(a + b) + multiset{x};
    assert a + (b + [x]) == a + b + [x];
  }

  /** Sorted lists without order between the last of one and the first of the other. */
  lemma JoinSorted(a: seq<ClusterStack>, b: seq<ClusterStack>)
    requires AdjacentSorted(a) && AdjacentSorted(b)
    requires a != [] && b != [] ==> !Before(b[0], a[|a| - 1])
    ensures AdjacentSorted(a + b)
  {
    var r := a + b;
    forall i | 0 < i < |r| ensures !Before(r[i], r[i - 1]) {
      if i > |a| {
        assert r[i] == b[i - |a|] && r[i - 1] == b[i - |a| - 1];
      }
    }
  }

  /** A list without one occurrence of `x`. */
  lemma TakeOut(s: seq<ClusterStack>, x: ClusterStack) returns (rest: seq<ClusterStack>)
    requires x in s
    ensures multiset(rest + [x]) == multiset(s)
  {
    var i :| 0 <= i < |s| && s[i] == x;
    rest := s[..i] + s[i + 1..];
    assert s == s[..i] + [x] + s[i + 1..];
  }

  /** A channel, the others, and one more of the channel: no neighbours across channels compare. */
  lemma Interposed(p: seq<ClusterStack>, q: seq<ClusterStack>, x: ClusterStack)
    requires AdjacentSorted(p) && AdjacentSorted(q) && q != []
    requires forall a :: a in p ==> a.version.channel == x.version.channel
    requires forall b :: b in q ==> b.version.channel != x.version.channel
    ensures AdjacentSorted(p + q + [x])
  {
    assert q[0] in q && q[|q| - 1] in q;
    if p != [] {
      assert p[|p| - 1] in p;
    }
    JoinSorted(p, q);
    assert (p + q)[|p + q| - 1] == q[|q| - 1];
    AppendSorted(p + q, x);
  }

  lemma Rearranged<T>(s: seq<T>, rest: seq<T>, a: seq<T>, b: seq<T>, p: seq<T>, q: seq<T>, x: T)
    requires multiset(rest + [x]) == multiset(s) && multiset(a + b) == multiset(rest)
    requires multiset(p) == multiset(a) && multiset(q) == multiset(b)
    ensures multiset(p + q + [x]) == multiset(s)
  {
    assert multiset(p + q) == multiset(p) + multiset(q) == multiset(a + b);
    SameMore(p + q, rest, x);
  }

  /** The channel of `x` without it, then the others, then `x`. */
  lemma Misleading(s: seq<ClusterStack>, x: ClusterStack, y: ClusterStack, z: ClusterStack)
    returns (t: seq<ClusterStack>)
    requires x in s && y in s && z in s && Before(x, y) && z.version.channel != x.version.channel
    ensures multiset(t) == multiset(s) && AdjacentSorted(t) && t != [] && !EndsWithMaximum(t)
  {
    var rest := TakeOut(s, x);
    var a, b := Channels(rest, x.version.channel);
    var p, q := Sorted(a), Sorted(b);
    SortedIsSorted(a);
    SortedIsSorted(b);
    SortedKeeps(a);
    SortedKeeps(b);
    t := p + q + [x];
    Rearranged(s, rest, a, b, p, q, x);
    SameElements(a, p);
    SameElements(b, q);
    SameElements(s, t);
    assert z in q;
    Interposed(p, q, x);
    assert t[|t| - 1] == x && y in t;
  }

  /** Exactly the lists of which every sorted arrangement ends with a maximum. */
  lemma SortFindsMaximumIff(s: seq<ClusterStack>)
    requires s != []
    ensures (forall t :: multiset(t) == multiset(s) && t != [] && AdjacentSorted(t) ==> EndsWithMaximum(t))
      <==> Rankable(s)
  {
    if Rankable(s) {
      forall t | multiset(t) == multiset(s) && t != [] && AdjacentSorted(t) ensures EndsWithMaximum(t) {
        MaximumOfSorted(s, t);
      }
    } else {
      var x, y, z :| x in s && y in s && z in s && Before(x, y) && z.version.channel != x.version.channel;
      var t := Misleading(s, x, y, z);
    }
  }

  /** Sort a list and take the last: one of them, and a maximum if they can be ranked at all. */
  method Latest(stacks: seq<ClusterStack>) returns (latest: ClusterStack)
    requires stacks != []
    ensures latest in stacks
    ensures Rankable(stacks) ==> forall x :: x in stacks ==> !Before(latest, x)
  {
    var a := new ClusterStack[|stacks|](i requires 0 <= i < |stacks| => stacks[i]);
    assert a[..] == stacks;
    Sort(a);
    MaximumOfSorted(stacks, a[..]);
    SameElements(stacks, a[..]);
    latest := a[a.Length - 1];
    assert latest == a[..][a.Length - 1];
  }

  lemma OneChannelIsRankable(s: seq<ClusterStack>)
    requires SameChannel(s)
    ensures Rankable(s)
  {
    forall x, y, z | x in s && y in s && z in s && Before(x, y) ensures z.version.channel == x.version.channel {
      var i :| 0 <= i < |s| && s[i] == x;
      var k :| 0 <= k < |s| && s[k] == z;
    }
  }
}
