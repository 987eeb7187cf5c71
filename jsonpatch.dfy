/**
 * JSON Patch operations (RFC 6902, section 4: add, remove, replace) and the
 * order the webhook puts them in before encoding: ascending by path, where
 * a path is an RFC 6901 JSON Pointer compared as a Go string.
 */
module JsonPatch {
  import opened Kube

  datatype OpKind = Add | Remove | Replace

  /** One operation; `value` is the JSON text of the value, absent for a remove. */
  datatype Operation = Operation(op: OpKind, path: string, value: Option<string>)

  /**
   * Go's `<` on strings: byte-wise lexicographic order on UTF-8. Comparing
   * code points gives the same order, since UTF-8 preserves it.
   */
  predicate PathLess(a: string, b: string)
    decreases |a|
  {
    if |b| == 0 then false
    else if |a| == 0 then true
    else if a[0] != b[0] then a[0] < b[0]
    else PathLess(a[1..], b[1..])
  }

  lemma {:induction false} PathLessIrreflexive(a: string)
    ensures !PathLess(a, a)
  {
    if |a| > 0 {
      PathLessIrreflexive(a[1..]);
    }
  }

  lemma {:induction false} PathLessTransitive(a: string, b: string, c: string)
    requires PathLess(a, b) && PathLess(b, c)
    ensures PathLess(a, c)
  {
    if |a| > 0 && a[0] == b[0] && b[0] == c[0] {
      PathLessTransitive(a[1..], b[1..], c[1..]);
    }
  }

  /** Any two different paths are ordered one way or the other. */
  lemma {:induction false} PathLessTotal(a: string, b: string)
    ensures a == b || PathLess(a, b) || PathLess(b, a)
  {
    if |a| > 0 && |b| > 0 && a[0] == b[0] {
      PathLessTotal(a[1..], b[1..]);
      if a[1..] == b[1..] {
        assert a == [a[0]] + a[1..] && b == [b[0]] + b[1..];
      }
    }
  }

  lemma PathLessAsymmetric(a: string, b: string)
    requires PathLess(a, b)
    ensures !PathLess(b, a)
  {
    if PathLess(b, a) {
      PathLessTransitive(a, b, a);
      PathLessIrreflexive(a);
    }
  }

  /** Paths that agree up to index k and differ at k are ordered by their characters at k. */
  lemma {:induction false} PathLessAtFirstDifference(a: string, b: string, k: nat)
    requires k < |a| && k < |b|
    requires a[..k] == b[..k] && a[k] < b[k]
    ensures PathLess(a, b)
  {
    if k > 0 {
      assert a[0] == a[..k][0] == b[..k][0] == b[0];
      assert a[1..][..k - 1] == a[1..k] == b[1..k] == b[1..][..k - 1];
      PathLessAtFirstDifference(a[1..], b[1..], k - 1);
    }
  }

  /** `a` may come before `b`: the sort's Less does not put `b` first. */
  predicate PathLeq(a: Operation, b: Operation) {
    !PathLess(b.path, a.path)
  }

  lemma PathLeqTransitive(a: Operation, b: Operation, c: Operation)
    requires PathLeq(a, b) && PathLeq(b, c)
    ensures PathLeq(a, c)
  {
    PathLessTotal(a.path, b.path);
    if PathLess(c.path, a.path) {
      if PathLess(a.path, b.path) {
        PathLessTransitive(c.path, a.path, b.path);
      }
    }
  }

  /** What sort.Sort promises: no later operation's path is less than an earlier one's. */
  ghost predicate SortedByPath(ops: seq<Operation>) {
    forall x, y :: 0 <= x < y < |ops| ==> PathLeq(ops[x], ops[y])
  }

  /** No two different operations share a path. */
  ghost predicate UniquePaths(ops: seq<Operation>) {
    forall o1, o2 :: o1 in ops && o2 in ops && o1.path == o2.path ==> o1 == o2
  }

  /**
   * The part of an insertion pass already in order: every pair within
   * s[..hi + 1] except those whose right element is the one at `j`, the
   * element still moving towards the front.
   */
  ghost predicate SortedExcept(s: seq<Operation>, hi: nat, j: nat)
    requires hi < |s|
  {
    forall x, y :: 0 <= x < y <= hi && y != j ==> PathLeq(s[x], s[y])
  }

  /** Moving the element at `j` one place to the front keeps the pass's invariant. */
  lemma SwapStep(s: seq<Operation>, hi: nat, j: nat)
    requires 0 < j <= hi < |s|
    requires SortedExcept(s, hi, j)
    requires PathLess(s[j].path, s[j - 1].path)
    ensures SortedExcept(s[j - 1 := s[j]][j := s[j - 1]], hi, j - 1)
  {
    var t := s[j - 1 := s[j]][j := s[j - 1]];
    forall x, y | 0 <= x < y <= hi && y != j - 1
      ensures PathLeq(t[x], t[y])
    {
      if x == j - 1 {
        if y == j {
          PathLessAsymmetric(s[j].path, s[j - 1].path);
        } else {
          assert PathLeq(s[j - 1], s[y]);
          PathLessAsymmetric(s[j].path, s[j - 1].path);
          assert PathLeq(s[j], s[j - 1]);
          PathLeqTransitive(s[j], s[j - 1], s[y]);
        }
      } else if x == j {
        assert t[x] == s[j - 1] && t[y] == s[y];
      } else if y == j {
        assert t[x] == s[x] && t[y] == s[j - 1];
      }
    }
  }

  /** An insertion pass that has stopped leaves s[..hi + 1] sorted. */
  lemma PassDone(s: seq<Operation>, hi: nat, j: nat)
    requires j <= hi < |s|
    requires SortedExcept(s, hi, j)
    requires j == 0 || PathLeq(s[j - 1], s[j])
    ensures SortedByPath(s[..hi + 1])
  {
    forall x, y | 0 <= x < y <= hi
      ensures PathLeq(s[x], s[y])
    {
      if y == j && x < j - 1 {
        PathLeqTransitive(s[x], s[j - 1], s[j]);
      }
    }
  }

  /**
   * sort.Sort(jsonpatch.ByPath(patch)): sorts the operations in place by
   * path. Only what sort.Sort promises is stated, since it is not stable.
   */
  method SortByPath(a: array<Operation>)
    modifies a
    ensures SortedByPath(a[..])
    ensures multiset(a[..]) == multiset(old(a[..]))
  {
    if a.Length == 0 {
      return;
    }
    var i := 1;
    while i < a.Length
      invariant 1 <= i <= a.Length
      invariant SortedByPath(a[..i])
      invariant multiset(a[..]) == multiset(old(a[..]))
    {
      var j := i;
      assert SortedExcept(a[..], i, j);
      while j > 0 && PathLess(a[j].path, a[j - 1].path)
        invariant 0 <= j <= i
        invariant SortedExcept(a[..], i, j)
        invariant multiset(a[..]) == multiset(old(a[..]))
      {
        SwapStep(a[..], i, j);
        a[j - 1], a[j] := a[j], a[j - 1];
        j := j - 1;
      }
      PassDone(a[..], i, j);
      i := i + 1;
    }
    assert a[..] == a[..a.Length];
  }

  /**
   * The order is determined: two path-sorted arrangements of the same
   * operations, no two different ones of which share a path, are the same
   * sequence.
   */
  lemma {:induction false} SortedPermutationUnique(a: seq<Operation>, b: seq<Operation>)
    requires SortedByPath(a) && SortedByPath(b)
    requires multiset(a) == multiset(b)
    requires UniquePaths(a)
    ensures a == b
  {
    if a == [] {
      assert |b| == |multiset(b)| == 0;
    } else {
      assert b != [] by {
        assert a[0] in multiset(b);
      }
      HeadsEqual(a, b);
      assert multiset(a[1..]) == multiset(b[1..]) by {
        assert a == [a[0]] + a[1..] && b == [b[0]] + b[1..];
        assert multiset(a[1..]) == multiset(a) - multiset{a[0]};
        assert multiset(b[1..]) == multiset(b) - multiset{b[0]};
      }
      SortedPermutationUnique(a[1..], b[1..]);
    }
  }

  /** The first elements of two such arrangements coincide. */
  lemma HeadsEqual(a: seq<Operation>, b: seq<Operation>)
    requires a != [] && b != []
    requires SortedByPath(a) && SortedByPath(b)
    requires multiset(a) == multiset(b)
    requires UniquePaths(a)
    ensures a[0] == b[0]
  {
    assert a[0] in multiset(b) && b[0] in multiset(a);
    var k :| 0 <= k < |b| && b[k] == a[0];
    var m :| 0 <= m < |a| && a[m] == b[0];
    assert PathLeq(a[0], a[m]) by {
      if m == 0 { PathLessIrreflexive(a[0].path); }
    }
    assert PathLeq(b[0], b[k]) by {
      if k == 0 { PathLessIrreflexive(b[0].path); }
    }
    PathLessTotal(a[0].path, b[0].path);
    assert a[m] in a && a[0] in a;
  }

  /** The two operations of the overwrite tests' diff: a dnsConfig add and a dnsPolicy replace. */
  const AddDnsConfig := Operation(Add, "/spec/dnsConfig", Some("{\"nameservers\":[\"127.0.0.1\"]}"))
  const ReplaceDnsPolicy := Operation(Replace, "/spec/dnsPolicy", Some("\"None\""))

  /** "/spec/dnsConfig" sorts before "/spec/dnsPolicy": they first differ at 'C' and 'P'. */
  lemma DnsConfigBeforeDnsPolicy()
    ensures PathLess(AddDnsConfig.path, ReplaceDnsPolicy.path)
  {
    var a, b := AddDnsConfig.path, ReplaceDnsPolicy.path;
    assert a[..9] == "/spec/dns" == b[..9];
    assert a[9] == 'C' && b[9] == 'P';
    PathLessAtFirstDifference(a, b, 9);
  }
}
