/** Splitting a sequence into its maximal runs of consecutive elements that
    share a key: the shape the weather forecast gives to its three-hourly
    samples when it groups them by calendar date. */
module DayRuns {

  function Last<T>(s: seq<T>): T
    requires s != []
  {
    s[|s| - 1]
  }

  /** The concatenation of the groups, in order. */
  function Flatten<T>(groups: seq<seq<T>>): seq<T>
    decreases |groups|
  {
    if groups == [] then []
    else Flatten(groups[..|groups| - 1]) + Last(groups)
  }

  /** The maximal runs of `xs`, built the way a left-to-right scan builds them:
      an element joins the current run when its key equals the key of the
      element before it, and starts a new run otherwise. */
  function Runs<T>(xs: seq<T>, key: T -> string): (runs: seq<seq<T>>)
    ensures (runs == []) == (xs == [])
    ensures |runs| <= |xs|
    decreases |xs|
  {
    if xs == [] then []
    else
      var before := Runs(xs[..|xs| - 1], key);
      if |xs| >= 2 && key(xs[|xs| - 2]) == key(Last(xs)) then
        before[..|before| - 1] + [Last(before) + [Last(xs)]]
      else
        before + [[Last(xs)]]
  }

  /** `groups` is a split of `xs` into maximal runs: the groups concatenate to
      `xs`, none is empty, each holds one key, and neighbouring groups hold
      different keys. */
  ghost predicate IsRunSplit<T>(groups: seq<seq<T>>, xs: seq<T>, key: T -> string) {
    && Flatten(groups) == xs
    && (forall i :: 0 <= i < |groups| ==> groups[i] != [])
    && (forall i, j :: 0 <= i < |groups| && 0 <= j < |groups[i]| ==> key(groups[i][j]) == key(groups[i][0]))
    && (forall i :: 0 < i < |groups| ==> key(groups[i - 1][0]) != key(groups[i][0]))
  }

  lemma {:induction false} FlattenNonEmpty<T>(groups: seq<seq<T>>)
    requires groups != [] && Last(groups) != []
    ensures Flatten(groups) != [] && Last(Flatten(groups)) == Last(Last(groups))
  {
  }

  /** A split stays a maximal-run split when an element with the key of the
      last element joins the last group. */
  lemma {:induction false} JoinLastRun<T>(groups: seq<seq<T>>, xs: seq<T>, x: T, key: T -> string)
    requires IsRunSplit(groups, xs, key)
    requires xs != [] && key(Last(xs)) == key(x)
    ensures groups != []
    ensures IsRunSplit(groups[..|groups| - 1] + [Last(groups) + [x]], xs + [x], key)
  {
    assert groups != [];
    var m := |groups|;
    var joined := groups[..m - 1] + [Last(groups) + [x]];
    FlattenNonEmpty(groups);
    assert Flatten(joined) == xs + [x] by {
      assert joined[..m - 1] == groups[..m - 1];
      assert Flatten(joined) == Flatten(groups[..m - 1]) + (Last(groups) + [x]);
    }
    assert forall i :: 0 <= i < m ==> joined[i][0] == groups[i][0];
    forall i, j | 0 <= i < m && 0 <= j < |joined[i]|
      ensures key(joined[i][j]) == key(joined[i][0])
    {
      if i == m - 1 && j == |Last(groups)| {
        assert key(Last(Last(groups))) == key(groups[m - 1][0]);
      } else {
        assert joined[i][j] == groups[i][j];
      }
    }
  }

  /** A split stays a maximal-run split when an element whose key differs from
      the last element's key is added as a group of its own. */
  lemma {:induction false} StartNewRun<T>(groups: seq<seq<T>>, xs: seq<T>, x: T, key: T -> string)
    requires IsRunSplit(groups, xs, key)
    requires xs != [] ==> key(Last(xs)) != key(x)
    ensures IsRunSplit(groups + [[x]], xs + [x], key)
  {
    var m := |groups|;
    var extended := groups + [[x]];
    assert extended[..m] == groups;
    assert Flatten(extended) == xs + [x];
    if groups != [] {
      FlattenNonEmpty(groups);
      assert key(Last(Last(groups))) == key(groups[m - 1][0]);
    } else {
      assert xs == [];
    }
    assert forall i :: 0 <= i < m ==> extended[i] == groups[i];
  }

  /** `Runs` splits every sequence into its maximal runs. */
  lemma {:induction false} RunsAreMaximal<T>(xs: seq<T>, key: T -> string)
    ensures IsRunSplit(Runs(xs, key), xs, key)
    decreases |xs|
  {
    if xs != [] {
      var init := xs[..|xs| - 1];
      RunsAreMaximal(init, key);
      assert xs == init + [Last(xs)];
      if |xs| >= 2 {
        assert Last(init) == xs[|xs| - 2];
      }
      if |xs| >= 2 && key(xs[|xs| - 2]) == key(Last(xs)) {
        JoinLastRun(Runs(init, key), init, Last(xs), key);
      } else {
        StartNewRun(Runs(init, key), init, Last(xs), key);
      }
    }
  }

  /** Removing the last element from a split whose last group is that element
      alone leaves a split of the rest, whose last key differs. */
  lemma {:induction false} DropSingletonRun<T>(groups: seq<seq<T>>, xs: seq<T>, key: T -> string)
    requires IsRunSplit(groups, xs, key)
    requires groups != [] && |Last(groups)| == 1
    ensures xs != [] && Last(groups) == [Last(xs)]
    ensures IsRunSplit(groups[..|groups| - 1], xs[..|xs| - 1], key)
    ensures |xs| >= 2 ==> key(xs[|xs| - 2]) != key(Last(xs))
  {
    var m := |groups|;
    var front := groups[..m - 1];
    FlattenNonEmpty(groups);
    assert xs == Flatten(front) + Last(groups);
    assert Last(groups) == [Last(xs)];
    assert xs[..|xs| - 1] == Flatten(front);
    forall i | 0 < i < |front|
      ensures key(front[i - 1][0]) != key(front[i][0])
    {
      assert front[i - 1] == groups[i - 1] && front[i] == groups[i];
    }
    if |xs| >= 2 {
      assert front != [];
      FlattenNonEmpty(front);
      assert xs[|xs| - 2] == Last(Last(front));
      assert Last(front) == groups[m - 2];
      assert key(Last(Last(front))) == key(groups[m - 2][0]);
    }
  }

  /** Removing the last element from a split whose last group holds more than
      that element shortens the last group and leaves a split of the rest,
      whose last key is the removed element's. */
  lemma {:induction false} ShortenLastRun<T>(groups: seq<seq<T>>, xs: seq<T>, key: T -> string)
    requires IsRunSplit(groups, xs, key)
    requires groups != [] && |Last(groups)| > 1
    ensures |xs| >= 2 && key(xs[|xs| - 2]) == key(Last(xs))
    ensures var g := Last(groups);
            var shorter := groups[..|groups| - 1] + [g[..|g| - 1]];
            && IsRunSplit(shorter, xs[..|xs| - 1], key)
            && groups == shorter[..|shorter| - 1] + [Last(shorter) + [Last(xs)]]
  {
    var m := |groups|;
    var g := Last(groups);
    var front := groups[..m - 1];
    var shorter := front + [g[..|g| - 1]];
    FlattenNonEmpty(groups);
    assert xs == Flatten(front) + g;
    assert shorter[..m - 1] == front;
    assert Flatten(shorter) == Flatten(front) + g[..|g| - 1];
    assert xs[..|xs| - 1] == Flatten(shorter);
    forall i, j | 0 <= i < |shorter| && 0 <= j < |shorter[i]|
      ensures key(shorter[i][j]) == key(shorter[i][0])
    {
      assert shorter[i][j] == groups[i][j] && shorter[i][0] == groups[i][0];
    }
    forall i | 0 < i < |shorter|
      ensures key(shorter[i - 1][0]) != key(shorter[i][0])
    {
      assert shorter[i - 1][0] == groups[i - 1][0] && shorter[i][0] == groups[i][0];
    }
    assert xs[|xs| - 2] == g[|g| - 2];
    assert key(g[|g| - 2]) == key(g[0]) == key(Last(g));
    assert Last(shorter) + [Last(xs)] == g;
  }

  lemma SingletonRunStep<T>(groups: seq<seq<T>>, xs: seq<T>, key: T -> string)
    requires groups != [] && xs != [] && Last(groups) == [Last(xs)]
    requires groups[..|groups| - 1] == Runs(xs[..|xs| - 1], key)
    requires |xs| >= 2 ==> key(xs[|xs| - 2]) != key(Last(xs))
    ensures groups == Runs(xs, key)
  {
    SplitLast(groups);
    var before := Runs(xs[..|xs| - 1], key);
    assert Runs(xs, key) == before + [[Last(xs)]];
  }

  lemma SplitLast<U>(s: seq<U>)
    requires s != []
    ensures s == s[..|s| - 1] + [Last(s)]
  {
  }

  lemma JoinedRunStep<T>(groups: seq<seq<T>>, shorter: seq<seq<T>>, xs: seq<T>, key: T -> string)
    requires |xs| >= 2 && key(xs[|xs| - 2]) == key(Last(xs))
    requires shorter == Runs(xs[..|xs| - 1], key)
    requires groups == shorter[..|shorter| - 1] + [Last(shorter) + [Last(xs)]]
    ensures groups == Runs(xs, key)
  {
  }

  /** The maximal-run split is unique: any split with the properties of
      `IsRunSplit` is the one `Runs` computes. */
  lemma {:induction false} RunSplitIsUnique<T>(groups: seq<seq<T>>, xs: seq<T>, key: T -> string)
    requires IsRunSplit(groups, xs, key)
    ensures groups == Runs(xs, key)
    decreases |xs|
  {
    if groups == [] {
      assert xs == [];
    } else if |Last(groups)| == 1 {
      DropSingletonRun(groups, xs, key);
      RunSplitIsUnique(groups[..|groups| - 1], xs[..|xs| - 1], key);
      SingletonRunStep(groups, xs, key);
    } else {
      var g := Last(groups);
      var shorter := groups[..|groups| - 1] + [g[..|g| - 1]];
      ShortenLastRun(groups, xs, key);
      RunSplitIsUnique(shorter, xs[..|xs| - 1], key);
      JoinedRunStep(groups, shorter, xs, key);
    }
  }

  /** Extending a sequence never rewrites its earlier runs: every run of a
      prefix but the last (which may still grow) is a run of the whole. */
  lemma {:induction false} RunsOfPrefix<T>(xs: seq<T>, n: nat, key: T -> string)
    requires n <= |xs|
    ensures var head := Runs(xs[..n], key);
            var whole := Runs(xs, key);
            && |head| <= |whole|
            && (head != [] ==> head[..|head| - 1] == whole[..|head| - 1])
    decreases |xs|
  {
    if n < |xs| {
      var init := xs[..|xs| - 1];
      assert init[..n] == xs[..n];
      RunsOfPrefix(init, n, key);
    } else {
      assert xs[..n] == xs;
    }
  }

  /** A prefix of the groups flattens to a prefix of the whole. */
  lemma {:induction false} FlattenTake<T>(groups: seq<seq<T>>, n: nat)
    requires n <= |groups|
    ensures Flatten(groups[..n]) <= Flatten(groups)
    decreases |groups|
  {
    if n < |groups| {
      var front := groups[..|groups| - 1];
      assert front[..n] == groups[..n];
      FlattenTake(front, n);
    } else {
      assert groups[..n] == groups;
    }
  }

  /** The first `n` runs: none empty, one key each, neighbours with different
      keys, and together a prefix of the input. */
  lemma TakeRuns<T>(xs: seq<T>, key: T -> string, n: nat)
    requires n <= |Runs(xs, key)|
    ensures var g := Runs(xs, key)[..n];
            && (forall i :: 0 <= i < |g| ==> g[i] != [])
            && (forall i, j :: 0 <= i < |g| && 0 <= j < |g[i]| ==> key(g[i][j]) == key(g[i][0]))
            && (forall i :: 0 < i < |g| ==> key(g[i - 1][0]) != key(g[i][0]))
            && Flatten(g) <= xs
  {
    var runs := Runs(xs, key);
    var g := runs[..n];
    RunsAreMaximal(xs, key);
    FlattenTake(runs, n);
    forall i, j | 0 <= i < |g| && 0 <= j < |g[i]|
      ensures key(g[i][j]) == key(g[i][0])
    {
      assert g[i] == runs[i];
    }
    forall i | 0 < i < |g|
      ensures key(g[i - 1][0]) != key(g[i][0])
    {
      assert g[i - 1] == runs[i - 1] && g[i] == runs[i];
    }
  }
}
