/** Node names in the order of their bytes, and which node a list sorted by name puts last. */
module NameOrder {
  import opened Lists
  import opened PodModel
  import opened NodeModel
  import opened HostKeys
  import opened NodeLifecycle
  import opened PoolScaling
  import opened ScalingRuns

  /** Byte-wise string order, the order in which an API server lists objects. */
  ghost predicate SortsBefore(a: string, b: string) {
    (|a| < |b| && b[..|a|] == a) || exists k: nat :: DiffersAt(a, b, k)
  }

  ghost predicate DiffersAt(a: string, b: string, k: nat) {
    k < |a| && k < |b| && a[..k] == b[..k] && a[k] < b[k]
  }

  lemma OrderIsAsymmetric(a: string, b: string)
    requires SortsBefore(a, b)
    ensures !SortsBefore(b, a)
  {
    if k: nat :| DiffersAt(a, b, k) {
      forall j: nat ensures !DiffersAt(b, a, j) {
        assert j < k ==> a[..k][j] == b[..k][j];
        assert k < j <= |a| && j <= |b| ==> b[..j][k] == b[k] && a[..j][k] == a[k];
      }
      assert |b| < |a| ==> a[..|b|][k] == a[k];
    } else {
      forall j: nat ensures !DiffersAt(b, a, j) {
        assert j < |a| ==> b[..|a|][j] == b[j];
      }
    }
  }

  /** A common prefix does not matter. */
  lemma CommonPrefix(p: string, a: string, b: string)
    requires SortsBefore(a, b)
    ensures SortsBefore(p + a, p + b)
  {
    if k: nat :| DiffersAt(a, b, k) {
      assert (p + a)[..|p| + k] == p + a[..k] && (p + b)[..|p| + k] == p + b[..k];
      assert DiffersAt(p + a, p + b, |p| + k);
    } else {
      assert (p + b)[..|p| + |a|] == p + b[..|a|];
    }
  }

  /** What follows two different strings of one length does not matter. */
  lemma CommonLength(a: string, b: string, x: string, y: string)
    requires SortsBefore(a, b) && |a| == |b|
    ensures SortsBefore(a + x, b + y)
  {
    var k: nat :| DiffersAt(a, b, k);
    assert (a + x)[..k] == a[..k] && (b + y)[..k] == b[..k];
    assert DiffersAt(a + x, b + y, k);
  }

  // ---------- numerals ----------

  lemma DigitOrder(i: nat, j: nat)
    requires i < j < 10
    ensures DIGITS[i] < DIGITS[j] <= '9'
  {
  }

  lemma {:induction false} LengthIsMonotone(m: nat, n: nat)
    requires m <= n
    ensures |Decimal(m)| <= |Decimal(n)|
  {
    if n >= 10 && m >= 10 {
      LengthIsMonotone(m / 10, n / 10);
    }
  }

  /** Numerals of one length sort by value. */
  lemma {:induction false} SameLengthSortsByValue(m: nat, n: nat)
    requires m < n && |Decimal(m)| == |Decimal(n)|
    ensures SortsBefore(Decimal(m), Decimal(n))
  {
    if n < 10 {
      DigitOrder(m, n);
      assert DiffersAt(Decimal(m), Decimal(n), 0);
    } else {
      assert m >= 10;
      var a, b := Decimal(m / 10), Decimal(n / 10);
      if m / 10 == n / 10 {
        DigitOrder(m % 10, n % 10);
        assert DiffersAt(Decimal(m), Decimal(n), |a|);
      } else {
        SameLengthSortsByValue(m / 10, n / 10);
        CommonLength(a, b, [DIGITS[m % 10]], [DIGITS[n % 10]]);
      }
    }
  }

  ghost predicate AllNines(s: string) {
    forall k :: 0 <= k < |s| ==> s[k] == '9'
  }

  /** Every digit but the last is a nine. */
  ghost predicate NinesButLast(n: nat) {
    n < 10 || AllNines(Decimal(n / 10))
  }

  function Nines(k: nat): nat {
    if k == 0 then 9 else 10 * Nines(k - 1) + 9
  }

  lemma {:induction false} NinesAreNines(k: nat)
    ensures |Decimal(Nines(k))| == k + 1 && AllNines(Decimal(Nines(k))) && Nines(k) >= 1
  {
    if k > 0 {
      NinesAreNines(k - 1);
      assert Nines(k) / 10 == Nines(k - 1) && Nines(k) % 10 == 9;
    }
  }

  lemma {:induction false} DigitsAtMostNine(n: nat, k: nat)
    requires k < |Decimal(n)|
    ensures Decimal(n)[k] <= '9'
  {
    if n >= 10 && k < |Decimal(n / 10)| {
      DigitsAtMostNine(n / 10, k);
    }
  }

  /** The first digit of `s` that is not a nine, or its length. */
  lemma FirstNonNine(s: string) returns (k: nat)
    ensures k <= |s| && AllNines(s[..k]) && (k < |s| ==> s[k] != '9')
  {
    k := 0;
    while k < |s| && s[k] == '9'
      invariant k <= |s| && AllNines(s[..k])
    {
      k := k + 1;
    }
  }

  lemma NinesArePrefixes(a: string, b: string, k: nat)
    requires k <= |a| && k <= |b| && AllNines(a[..k]) && AllNines(b[..k])
    ensures a[..k] == b[..k]
  {
  }

  /** A shorter string of digits sorts before nines followed by anything. */
  lemma ShorterSortsBeforeNines(a: string, p: string, x: string)
    requires |a| <= |p| && AllNines(p) && x != "" && forall k :: 0 <= k < |a| ==> a[k] <= '9'
    ensures SortsBefore(a, p + x)
  {
    var k := FirstNonNine(a);
    assert (p + x)[..k] == p[..k];
    NinesArePrefixes(a, p, k);
    if k < |a| {
      assert (p + x)[k] == '9';
      assert DiffersAt(a, p + x, k);
    } else {
      assert a[..k] == a;
    }
  }

  /** Another digit than nine before the last one: some smaller number sorts after it. */
  lemma OtherwiseNinesSortAfter(n: nat) returns (i: nat, k: nat)
    requires !NinesButLast(n)
    ensures i == Nines(k) && 1 <= i < n && SortsBefore(Decimal(n), Decimal(i))
  {
    var p, b := Decimal(n / 10), Decimal(n);
    k := FirstNonNine(p);
    assert p[..|p|] == p;
    i := Nines(k);
    NinesAreNines(k);
    var a := Decimal(i);
    assert |a| <= |p| < |b|;
    if n <= i {
      LengthIsMonotone(n, i);
    }
    assert b[..k] == p[..k] && b[k] == p[k];
    assert AllNines(a[..k]);
    NinesArePrefixes(b, a, k);
    DigitsAtMostNine(n, k);
    assert a[k] == '9' && DiffersAt(b, a, k);
  }

  // ---------- node names ----------

  lemma NamesSortLikeNumerals(display: string, i: nat, n: nat)
    requires SortsBefore(Decimal(i), Decimal(n))
    ensures SortsBefore(NodeName(display, i), NodeName(display, n))
  {
    CommonPrefix("vnode-" + display + "-", Decimal(i), Decimal(n));
  }

  lemma SmallerSortsBefore(display: string, i: nat, n: nat)
    requires i < n && NinesButLast(n)
    ensures SortsBefore(NodeName(display, i), NodeName(display, n))
  {
    LengthIsMonotone(i, n);
    if |Decimal(i)| == |Decimal(n)| {
      SameLengthSortsByValue(i, n);
    } else {
      forall k | 0 <= k < |Decimal(i)| ensures Decimal(i)[k] <= '9' {
        DigitsAtMostNine(i, k);
      }
      ShorterSortsBeforeNines(Decimal(i), Decimal(n / 10), [DIGITS[n % 10]]);
    }
    NamesSortLikeNumerals(display, i, n);
  }

  /** The `n` node names in a list sorted by name. */
  ghost predicate SortedListing(display: string, n: nat, names: seq<string>) {
    && (forall x :: x in names <==> x in Names(display, n))
    && (forall i, j :: 0 <= i < j < |names| ==> SortsBefore(names[i], names[j]))
  }

  /** A list of `n` nodes sorted by name ends with the highest-numbered node if and only if every digit of `n` but the last is a nine. */
  lemma LastListedIsHighestIff(display: string, n: nat, names: seq<string>)
    requires n >= 1 && SortedListing(display, n, names)
    ensures names != [] && (names[|names| - 1] == NodeName(display, n) <==> NinesButLast(n))
  {
    var top := NodeName(display, n);
    assert top in Names(display, n);
    var last := names[|names| - 1];
    assert last in Names(display, n);
    assert forall j :: 0 <= j < |names| - 1 ==> SortsBefore(names[j], last);
    if NinesButLast(n) {
      NothingSortsAfterTop(display, n, last);
      var k :| 0 <= k < |names| && names[k] == top;
    } else {
      var i, digits := OtherwiseNinesSortAfter(n);
      NamesSortLikeNumerals(display, n, i);
      DifferentNumbers(display, i, n);
      var other := NodeName(display, i);
      assert other in Names(display, n);
      OrderIsAsymmetric(top, other);
      var k :| 0 <= k < |names| && names[k] == other;
    }
  }

  lemma DifferentNumbers(display: string, i: nat, n: nat)
    requires i != n
    ensures NodeName(display, i) != NodeName(display, n)
  {
    if NodeName(display, i) == NodeName(display, n) {
      NodeNameIsInjective(display, i, n);
    }
  }

  lemma NothingSortsAfterTop(display: string, n: nat, x: string)
    requires NinesButLast(n) && x in Names(display, n)
    ensures !SortsBefore(NodeName(display, n), x)
  {
    var i: nat :| 1 <= i <= n && x == NodeName(display, i);
    if i < n {
      SmallerSortsBefore(display, i, n);
      OrderIsAsymmetric(x, NodeName(display, n));
    }
  }

  /**
   * Scaling a pool of `n` nodes down by one removes the last listed node. With a list sorted by name the
   * numbering stays dense if and only if every digit of `n` but the last is a nine: for 1 to 9, 90 to 99, and so on.
   */
  lemma SortedScaleDownKeepsDensityIff(display: string, n: nat, names: seq<string>)
    requires n >= 1 && SortedListing(display, n, names)
    ensures names != [] && (Names(display, n) - {names[|names| - 1]} == Names(display, n - 1) <==> NinesButLast(n))
  {
    LastListedIsHighestIff(display, n, names);
    var last := names[|names| - 1];
    assert last in Names(display, n);
    var i: nat :| 1 <= i <= n && last == NodeName(display, i);
    RemovalKeepsDensityExactlyAtTheEnd(display, n, i);
    if last == NodeName(display, n) {
      NodeNameIsInjective(display, i, n);
    }
  }

  // ---------- scaling down with a list sorted by name ----------

  /** Every node that is to stay sorts before every node that is to go. */
  ghost predicate StayersFirst(display: string, n: nat, t: nat) {
    forall i: nat, j: nat :: 1 <= i <= t < j <= n ==> !SortsBefore(NodeName(display, j), NodeName(display, i))
  }

  lemma {:induction false} FirstDigit(n: nat)
    requires n >= 1
    ensures '1' <= Decimal(n)[0]
  {
    if n >= 10 {
      FirstDigit(n / 10);
    }
  }

  lemma OneSortsFirst(display: string, j: nat)
    requires j >= 2
    ensures SortsBefore(NodeName(display, 1), NodeName(display, j))
  {
    var a, b := Decimal(1), Decimal(j);
    FirstDigit(j);
    assert a == "1";
    if b[0] == '1' {
      assert j >= 10;
      assert |b| >= 2 && b[..1] == a;
    } else {
      assert DiffersAt(a, b, 0);
    }
    NamesSortLikeNumerals(display, 1, j);
  }

  /** The number after all nines starts with a one. */
  lemma {:induction false} AfterNines(k: nat)
    ensures Decimal(Nines(k) + 1)[0] == '1'
  {
    if k > 0 {
      AfterNines(k - 1);
      assert (Nines(k) + 1) / 10 == Nines(k - 1) + 1;
    }
  }

  /** Unless every number that is to go consists of nines but for the last digit, some node that is to stay sorts after one that is to go. */
  lemma StayerSortsAfter(display: string, n: nat, t: nat, j: nat) returns (i: nat, gone: nat)
    requires 2 <= t < j <= n && !NinesButLast(j)
    ensures 1 <= i <= t < gone <= n && SortsBefore(NodeName(display, gone), NodeName(display, i))
  {
    var k;
    i, k := OtherwiseNinesSortAfter(j);
    if i <= t {
      gone := j;
      NamesSortLikeNumerals(display, gone, i);
    } else {
      gone := i + 1;
      AfterNines(k);
      i := 2;
      assert Decimal(2) == "2";
      assert DiffersAt(Decimal(gone), Decimal(2), 0);
      NamesSortLikeNumerals(display, gone, 2);
    }
  }

  /** Which targets a list sorted by name can be cut down to without a gap. */
  ghost predicate CutsClean(n: nat, t: nat) {
    t <= 1 || forall j: nat :: t < j <= n ==> NinesButLast(j)
  }

  lemma StayersFirstIff(display: string, n: nat, t: nat)
    requires t <= n
    ensures StayersFirst(display, n, t) <==> CutsClean(n, t)
  {
    if CutsClean(n, t) {
      forall i: nat, j: nat | 1 <= i <= t < j <= n ensures !SortsBefore(NodeName(display, j), NodeName(display, i)) {
        if t == 1 {
          OneSortsFirst(display, j);
        } else {
          SmallerSortsBefore(display, i, j);
        }
        OrderIsAsymmetric(NodeName(display, i), NodeName(display, j));
      }
    } else {
      var j: nat :| t < j <= n && !NinesButLast(j);
      var i, gone := StayerSortsAfter(display, n, t, j);
    }
  }

  function SetOf(names: seq<string>): set<string> {
    set x | x in names
  }

  lemma SortedIsDistinct(names: seq<string>)
    requires forall i, j :: 0 <= i < j < |names| ==> SortsBefore(names[i], names[j])
    ensures forall i, j :: 0 <= i < j < |names| ==> names[i] != names[j]
  {
    forall i, j | 0 <= i < j < |names| ensures names[i] != names[j] {
      OrderIsAsymmetric(names[i], names[j]);
    }
  }

  /** The first `t` of the sorted names are the first `t` numbers if and only if those that stay sort first. */
  lemma PrefixIsDenseIff(display: string, n: nat, t: nat, names: seq<string>)
    requires t <= n && SortedListing(display, n, names)
    ensures |names| == n && (SetOf(names[..t]) == Names(display, t) <==> StayersFirst(display, n, t))
  {
    SortedIsDistinct(names);
    DistinctSize(names, Names(display, n));
    NamesSize(display, n);
    NamesSize(display, t);
    DistinctSize(names[..t], SetOf(names[..t]));
    if SetOf(names[..t]) == Names(display, t) {
      forall i: nat, j: nat | 1 <= i <= t < j <= n ensures !SortsBefore(NodeName(display, j), NodeName(display, i)) {
        KeptSortsBefore(display, n, t, names, i, j);
        OrderIsAsymmetric(NodeName(display, i), NodeName(display, j));
      }
    } else {
      var i, j := Misplaced(display, n, t, names);
    }
  }

  lemma KeptSortsBefore(display: string, n: nat, t: nat, names: seq<string>, i: nat, j: nat)
    requires SortedListing(display, n, names) && 1 <= i <= t < j <= n <= |names| && SetOf(names[..t]) == Names(display, t)
    ensures SortsBefore(NodeName(display, i), NodeName(display, j))
  {
    assert NodeName(display, i) in Names(display, t) && NodeName(display, j) in Names(display, n);
    var a :| 0 <= a < t && names[..t][a] == NodeName(display, i);
    var b :| 0 <= b < |names| && names[b] == NodeName(display, j);
    if b < t {
      assert names[..t][b] in Names(display, t);
      NotAmongFirst(display, t, j);
    }
    assert names[a] == NodeName(display, i) && a < b;
  }

  lemma NotAmongFirst(display: string, t: nat, j: nat)
    requires j > t
    ensures NodeName(display, j) !in Names(display, t)
  {
    if NodeName(display, j) in Names(display, t) {
      var i: nat :| 1 <= i <= t && NodeName(display, i) == NodeName(display, j);
      NodeNameIsInjective(display, i, j);
    }
  }

  /** A prefix of the right length with other names in it: a name too many and a name too few. */
  lemma Misplaced(display: string, n: nat, t: nat, names: seq<string>) returns (i: nat, j: nat)
    requires SortedListing(display, n, names) && t <= n == |names| && |SetOf(names[..t])| == t == |Names(display, t)|
    requires SetOf(names[..t]) != Names(display, t)
    ensures 1 <= i <= t < j <= n && SortsBefore(NodeName(display, j), NodeName(display, i))
  {
    var first, want := SetOf(names[..t]), Names(display, t);
    if first <= want {
      SubsetOfSameSize(first, want);
    }
    if want <= first {
      SubsetOfSameSize(want, first);
    }
    var x, y :| x in first && x !in want && y in want && y !in first;
    var b :| 0 <= b < t && names[..t][b] == x;
    assert x in names;
    j :| 1 <= j <= n && x == NodeName(display, j);
    assert j > t;
    i :| 1 <= i <= t && y == NodeName(display, i);
    assert y in Names(display, n);
    var a :| 0 <= a < |names| && names[a] == y;
    forall c | 0 <= c < t ensures names[c] != y {
      assert names[..t][c] == names[c];
    }
  }

  // ---------- the reconcile ----------

  lemma {:induction false} NamesOfListed(working: seq<VNode>, names: seq<string>)
    requires |working| == |names| && (forall i :: 0 <= i < |names| ==> working[i].name == names[i])
    requires forall i, j :: 0 <= i < j < |names| ==> names[i] != names[j]
    ensures NamesOf(working) == SetOf(names) && DistinctNames(working)
    decreases |names|
  {
    if names != [] {
      var k := |names| - 1;
      NamesOfListed(working[..k], names[..k]);
      assert names == names[..k] + [names[k]];
    }
  }

  lemma PrefixRecords(display: string, w: NodeWorld, names: seq<string>, t: nat)
    requires |names| == t && (forall i, j :: 0 <= i < j < t ==> names[i] != names[j])
    requires w.n.store.records.Keys == SetOf(names)
    ensures |w.n.store.records| == t && (Dense(display, w) <==> SetOf(names) == Names(display, t))
  {
    DistinctSize(names, SetOf(names));
    assert |w.n.store.records| == |w.n.store.records.Keys|;
  }

  /** A complete list of the records in the order of `names`. */
  lemma ListedInOrder(n: Nodes, names: seq<string>, t: nat)
    requires t <= |names| && (forall x :: x in names <==> x in n.store.records)
    requires forall i, j :: 0 <= i < j < |names| ==> names[i] != names[j]
    ensures var working := ListNodes(n.store.records, names);
      |working| == |names| && DistinctNames(working) && Holds(n, working) && NamesOf(working[..t]) == SetOf(names[..t])
  {
    var working := ListNodes(n.store.records, names);
    ListNodesElements(n.store.records, names);
    NamesOfListed(working, names);
    NamesOfListed(working[..t], names[..t]);
  }

  /** With no node to add, the two loops only remove. */
  lemma LoopsOnlyRemove(w: NodeWorld, s: NodeScript, pool: VNodePool, working: seq<VNode>)
    requires 0 <= pool.nodeCount <= |working|
    ensures Loops(w, s, pool, working) == Removals(Dropper(s), w, working, |working| - pool.nodeCount)
  {
    ScaleDownIsRemovals(w, s, working, |working| - pool.nodeCount);
  }

  /** Over a working store, removing from the end leaves the records of a prefix of the list. */
  lemma RemovalsLeaveNames(w: NodeWorld, s: NodeScript, working: seq<VNode>, t: nat)
    requires Undisturbed(s) && StoreWorks(s) && DistinctNames(working) && Holds(w.n, working) && t <= |working|
    ensures Removals(Dropper(s), w, working, |working| - t).w.n.store.records.Keys == NamesOf(working[..t])
  {
    DropperDropsOne(s, true);
    var m := RemovalsLeavePrefix(Dropper(s), w, working, |working| - t, true);
  }

  lemma LoopsLeavePrefix(w: NodeWorld, s: NodeScript, pool: VNodePool, working: seq<VNode>)
    requires Undisturbed(s) && StoreWorks(s) && DistinctNames(working) && Holds(w.n, working) && 0 <= pool.nodeCount <= |working|
    ensures Loops(w, s, pool, working).w.n.store.records.Keys == NamesOf(working[..pool.nodeCount])
  {
    LoopsOnlyRemove(w, s, pool, working);
    RemovalsLeaveNames(w, s, working, pool.nodeCount);
  }

  /** A reconcile with no node to add leaves the first `nodeCount` nodes of its list. */
  lemma ReconcileLeavesPrefix(w: NodeWorld, s: NodeScript, pool: VNodePool, names: seq<string>)
    requires Undisturbed(s) && StoreWorks(s) && 0 <= pool.nodeCount <= |names| && names == s.order(w.n.store.records.Keys)
    requires forall x :: x in names <==> x in w.n.store.records.Keys
    requires forall i, j :: 0 <= i < j < |names| ==> names[i] != names[j]
    ensures Reconcile(w, s, pool).w.n.store.records.Keys == SetOf(names[..pool.nodeCount])
  {
    var w1 := Tick(w, s);
    TickKeepsKeys(w, s);
    ListedInOrder(w1.n, names, pool.nodeCount);
    assert s.fail(w.calls).None?;
    LoopsLeavePrefix(w1, s, pool, ListNodes(w1.n.store.records, names));
  }

  /**
   * A reconcile that scales a pool of n nodes numbered without a gap down to t, over a working store and a list
   * sorted by name, leaves t nodes. They are numbered without a gap if and only if t is at most one or
   * every number from t + 1 to n consists of nines but for its last digit.
   */
  lemma SortedReconcileKeepsDensityIff(w: NodeWorld, s: NodeScript, pool: VNodePool, n: nat)
    requires Undisturbed(s) && StoreWorks(s) && Numbered(DisplayName(pool), w, n) && 0 <= pool.nodeCount <= n
    requires SortedListing(DisplayName(pool), n, s.order(Names(DisplayName(pool), n)))
    ensures var r := Reconcile(w, s, pool);
      |r.w.n.store.records| == pool.nodeCount && (Dense(DisplayName(pool), r.w) <==> CutsClean(n, pool.nodeCount))
  {
    var d, t := DisplayName(pool), pool.nodeCount;
    var names := s.order(Names(d, n));
    PrefixIsDenseIff(d, n, t, names);
    StayersFirstIff(d, n, t);
    SortedIsDistinct(names);
    ReconcileLeavesPrefix(w, s, pool, names);
    PrefixRecords(d, Reconcile(w, s, pool).w, names[..t], t);
  }
}
