/**
 Facts about the visit order of NewUEDataPathGraph: FirstMissing finds
 the first name the inventory lacks, Dedup keeps each name once in the
 order of its first occurrence, and the prefixes of the paths looked up
 so far grow one name at a time.
 */
module GraphProperties {
  import opened Wrappers
  import opened DataPath
  import opened GraphSpec

  // ---------------------------------------------------------------------
  // Sequence facts

  lemma {:induction false} FirstMissingConcat(ctx: SmfContext, xs: seq<string>, ys: seq<string>)
    ensures FirstMissing(ctx, xs + ys) == if FirstMissing(ctx, xs).Some? then FirstMissing(ctx, xs) else FirstMissing(ctx, ys)
    decreases |ys|
  {
    if ys == [] {
      assert xs + ys == xs;
    } else {
      var n := |ys| - 1;
      assert (xs + ys)[..|xs + ys| - 1] == xs + ys[..n];
      FirstMissingConcat(ctx, xs, ys[..n]);
    }
  }

  /** FirstMissing finds a missing name exactly when there is one, and every name before it is present. */
  lemma {:induction false} FirstMissingSpec(ctx: SmfContext, xs: seq<string>)
    ensures FirstMissing(ctx, xs).None? <==> forall i :: 0 <= i < |xs| ==> xs[i] in ctx.upNodes
    ensures FirstMissing(ctx, xs).Some? ==>
      exists i :: 0 <= i < |xs| && xs[i] == FirstMissing(ctx, xs).value && xs[i] !in ctx.upNodes &&
                  forall j :: 0 <= j < i ==> xs[j] in ctx.upNodes
  {
    if xs != [] {
      var n := |xs| - 1;
      FirstMissingSpec(ctx, xs[..n]);
      if FirstMissing(ctx, xs[..n]).Some? {
        var i :| 0 <= i < n && xs[..n][i] == FirstMissing(ctx, xs).value && xs[..n][i] !in ctx.upNodes &&
                 forall j :: 0 <= j < i ==> xs[..n][j] in ctx.upNodes;
        assert xs[i] == xs[..n][i];
        forall j | 0 <= j < i ensures xs[j] in ctx.upNodes {
          assert xs[j] == xs[..n][j];
        }
      } else {
        forall j | 0 <= j < n ensures xs[j] in ctx.upNodes {
          assert xs[j] == xs[..n][j];
        }
      }
    }
  }

  /** Dedup keeps every name of s exactly once. */
  lemma {:induction false} DedupSpec(s: seq<string>)
    ensures Distinct(Dedup(s))
    ensures forall x :: x in Dedup(s) <==> x in s
  {
    if s != [] {
      var n := |s| - 1;
      DedupSpec(s[..n]);
      assert s == s[..n] + [s[n]];
    }
  }

  /** Adding a name to the visited sequence adds it to the deduplicated one exactly when it is new. */
  lemma DedupSnoc(ys: seq<string>, name: string)
    ensures Dedup(ys + [name]) == if name in ys then Dedup(ys) else Dedup(ys) + [name]
  {
    DedupSpec(ys);
    assert (ys + [name])[..|ys|] == ys;
  }

  /** Dedup lists names in the order of their first occurrence. */
  lemma {:induction false} DedupFirstOccurrence(s: seq<string>, i: nat, j: nat)
    requires i < j < |Dedup(s)|
    ensures var a, b := Dedup(s)[i], Dedup(s)[j]; a in s && b in s && FirstIndex(s, a) < FirstIndex(s, b)
    decreases |s|
  {
    var n := |s| - 1;
    var t := s[..n];
    assert s == t + [s[n]];
    var a, b := Dedup(s)[i], Dedup(s)[j];
    DedupSpec(s);
    DedupSpec(t);
    FirstIndexExtend(t, s[n], a);
    if s[n] in Dedup(t) || j < |Dedup(t)| {
      DedupFirstOccurrence(t, i, j);
      FirstIndexExtend(t, s[n], b);
    } else {
      assert b == s[n] && b !in t;
      forall k | 0 <= k < n ensures s[k] != b {
        assert s[k] == t[k];
      }
    }
  }

  lemma FirstIndexExtend(t: seq<string>, y: string, x: string)
    requires x in t
    ensures FirstIndex(t + [y], x) == FirstIndex(t, x)
  {
    var s := t + [y];
    var i, k := FirstIndex(s, x), FirstIndex(t, x);
    forall j | 0 <= j < i ensures s[j] != x {
      assert s[..i][j] == s[j];
    }
    forall j | 0 <= j < k ensures t[j] != x {
      assert t[..k][j] == t[j];
    }
    assert s[k] == t[k];
  }

  // ---------------------------------------------------------------------
  // Prefixes of the visit order

  lemma {:induction false} FlattenMonotone(paths: seq<RoutingPath>, j: nat, l: nat)
    requires j <= l <= |paths|
    ensures Flatten(paths, j) <= Flatten(paths, l)
    decreases l
  {
    if j < l {
      FlattenMonotone(paths, j, l - 1);
    }
  }

  /** Everything looked up so far is a prefix of all the names the paths mention. */
  lemma PrefixOfAll(paths: seq<RoutingPath>, k: nat, m: nat)
    requires k < |paths| && m <= |paths[k].upf|
    ensures Prefix(paths, k, m) <= Flatten(paths, |paths|)
  {
    FlattenMonotone(paths, k + 1, |paths|);
    assert Prefix(paths, k, m) <= Flatten(paths, k + 1);
  }

  /** Everything looked up in path k is a prefix of the names of the first k + 1 paths. */
  lemma PrefixOfEnd(paths: seq<RoutingPath>, k: nat, m: nat)
    requires k < |paths| && m <= |paths[k].upf|
    ensures Prefix(paths, k, m) <= Flatten(paths, k + 1)
  {
    assert paths[k].upf[..m] <= paths[k].upf;
  }

  lemma PrefixFacts(paths: seq<RoutingPath>, k: nat, m: nat)
    requires k < |paths| && m <= |paths[k].upf|
    ensures m == 0 ==> Prefix(paths, k, m) == Flatten(paths, k)
    ensures m == |paths[k].upf| ==> Prefix(paths, k, m) == Flatten(paths, k + 1)
    ensures m < |paths[k].upf| ==> Prefix(paths, k, m) + [paths[k].upf[m]] == Prefix(paths, k, m + 1)
  {
    var u := paths[k].upf;
    assert u[..0] == [] && u[..|u|] == u;
    if m < |u| {
      assert u[..m] + [u[m]] == u[..m + 1];
    }
  }

  /** A name missing from the inventory that a prefix already reveals is the first missing name of the whole. */
  lemma FirstMissingPrefix(ctx: SmfContext, xs: seq<string>, ys: seq<string>)
    requires xs <= ys && FirstMissing(ctx, xs).Some?
    ensures FirstMissing(ctx, ys) == FirstMissing(ctx, xs)
  {
    assert ys == xs + ys[|xs|..];
    FirstMissingConcat(ctx, xs, ys[|xs|..]);
  }

  /** Looking up one more name that is missing from the inventory, after all earlier ones were found. */
  lemma FirstMissingSnoc(ctx: SmfContext, xs: seq<string>, name: string)
    requires FirstMissing(ctx, xs).None?
    ensures FirstMissing(ctx, xs + [name]) == if name in ctx.upNodes then None else Some(name)
  {
    assert (xs + [name])[..|xs|] == xs;
  }

  lemma PrefixContains(paths: seq<RoutingPath>, k: nat, m: nat, i: nat)
    requires k < |paths| && i < m <= |paths[k].upf|
    ensures paths[k].upf[i] in Prefix(paths, k, m)
  {
    assert Prefix(paths, k, m)[|Flatten(paths, k)| + i] == paths[k].upf[i];
  }

  lemma PrefixMonotone(paths: seq<RoutingPath>, k: nat, a: nat, b: nat)
    requires k < |paths| && a <= b <= |paths[k].upf|
    ensures Prefix(paths, k, a) <= Prefix(paths, k, b)
  {
    assert paths[k].upf[..a] <= paths[k].upf[..b];
  }

  lemma PrefixStep(paths: seq<RoutingPath>, k: nat, m: nat)
    requires k < |paths| && m < |paths[k].upf|
    ensures Prefix(paths, k, m) + [paths[k].upf[m]] == Prefix(paths, k, m + 1)
  {
    PrefixFacts(paths, k, m);
  }
}
