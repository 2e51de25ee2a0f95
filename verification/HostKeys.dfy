/** Names of virtual nodes and host pods, and when host pod names are unambiguous. */
module HostKeys {
  import opened Translation

  // ---------- decimal numerals ----------

  const DIGITS := "0123456789"

  function Decimal(n: nat): (s: string)
    ensures s != "" && '-' !in s
  {
    assert forall i :: 0 <= i < 10 ==> DIGITS[i] != '-';
    if n < 10 then [DIGITS[n]] else Decimal(n / 10) + [DIGITS[n % 10]]
  }

  lemma DigitsAreDistinct(i: nat, j: nat)
    requires i < 10 && j < 10 && DIGITS[i] == DIGITS[j]
    ensures i == j
  {
  }

  lemma {:induction false} DecimalIsInjective(m: nat, n: nat)
    requires Decimal(m) == Decimal(n)
    ensures m == n
  {
    var s := Decimal(m);
    if m < 10 && n < 10 {
      DigitsAreDistinct(m, n);
    } else {
      assert |s| == 1 <==> m < 10;
      assert |Decimal(n)| == 1 <==> n < 10;
      var k := |s| - 1;
      assert s[..k] == Decimal(m / 10) && Decimal(n)[..k] == Decimal(n / 10);
      assert s[k] == DIGITS[m % 10] && Decimal(n)[k] == DIGITS[n % 10];
      DecimalIsInjective(m / 10, n / 10);
      DigitsAreDistinct(m % 10, n % 10);
    }
  }

  /** The name given to the `index`-th virtual node of a pool displayed as `display`. */
  function NodeName(display: string, index: nat): string {
    "vnode-" + display + "-" + Decimal(index)
  }

  lemma NodeNameIsInjective(display: string, i: nat, j: nat)
    requires NodeName(display, i) == NodeName(display, j)
    ensures i == j
  {
    var p := "vnode-" + display + "-";
    assert NodeName(display, i) == p + Decimal(i) && NodeName(display, j) == p + Decimal(j);
    CancelPrefix(p, Decimal(i), Decimal(j));
    DecimalIsInjective(i, j);
  }

  // ---------- splitting at dashes ----------

  lemma CancelPrefix(p: string, a: string, b: string)
    requires p + a == p + b
    ensures a == b
  {
    assert (p + a)[|p|..] == a && (p + b)[|p|..] == b;
  }

  /** `b` is `a` followed by a dash and something more. */
  predicate DashPrefix(a: string, b: string) {
    |a| < |b| && b[..|a|] == a && b[|a|] == '-'
  }

  /** Two dash-joined pairs that read the same either split at the same dash or one head extends the other. */
  lemma SplitAtDash(a: string, x: string, b: string, y: string)
    requires a + "-" + x == b + "-" + y
    ensures (a == b && x == y) || DashPrefix(a, b) || DashPrefix(b, a)
  {
    var s, t := a + "-" + x, b + "-" + y;
    assert s[|a|] == '-' && t[|b|] == '-';
    assert s[..|a|] == a && t[..|b|] == b;
    if |a| < |b| {
      assert b[..|a|] == t[..|a|];
      assert b[|a|] == t[|a|];
    } else if |b| < |a| {
      assert a[..|b|] == s[..|b|];
      assert a[|b|] == s[|b|];
    } else {
      assert a == b;
      CancelPrefix(a + "-", x, y);
    }
  }

  // ---------- host pod names ----------

  /** No namespace of the set is another one followed by a dash and more. */
  ghost predicate DashPrefixFree(namespaces: iset<string>) {
    forall a, b :: a in namespaces && b in namespaces ==> !DashPrefix(a, b)
  }

  /** Distinct (node, namespace, pod) triples of one pool get distinct host pod names. */
  ghost predicate HostNamesInjective(display: string, namespaces: iset<string>) {
    forall i: nat, a, x, j: nat, b, y ::
      (a in namespaces && b in namespaces &&
       HostName(NodeName(display, i), a, x) == HostName(NodeName(display, j), b, y))
      ==> i == j && a == b && x == y
  }

  lemma HostNameParts(display: string, i: nat, a: string, x: string, j: nat, b: string, y: string)
    requires HostName(NodeName(display, i), a, x) == HostName(NodeName(display, j), b, y)
    ensures i == j && a + "-" + x == b + "-" + y
  {
    var p := "vnode-" + display + "-";
    var s, t := a + "-" + x, b + "-" + y;
    assert HostName(NodeName(display, i), a, x) == p + (Decimal(i) + "-" + s);
    assert HostName(NodeName(display, j), b, y) == p + (Decimal(j) + "-" + t);
    CancelPrefix(p, Decimal(i) + "-" + s, Decimal(j) + "-" + t);
    SplitAtDash(Decimal(i), s, Decimal(j), t);
    DecimalIsInjective(i, j);
  }

  lemma HostNameIsInjective(display: string, namespaces: iset<string>, i: nat, a: string, x: string, j: nat, b: string, y: string)
    requires DashPrefixFree(namespaces) && a in namespaces && b in namespaces
    requires HostName(NodeName(display, i), a, x) == HostName(NodeName(display, j), b, y)
    ensures i == j && a == b && x == y
  {
    HostNameParts(display, i, a, x, j, b, y);
    SplitAtDash(a, x, b, y);
  }

  /** Whenever one namespace dash-extends another, some two pods on one node share a host pod name. */
  lemma DashPrefixCollides(display: string, a: string, b: string, y: string) returns (x: string)
    requires DashPrefix(a, b)
    ensures HostName(NodeName(display, 1), a, x) == HostName(NodeName(display, 1), b, y)
  {
    var r := b[|a| + 1..];
    x := r + "-" + y;
    assert b == a + "-" + r;
    assert a + "-" + x == b + "-" + y;
    var n := NodeName(display, 1);
    assert HostName(n, a, x) == n + "-" + (a + "-" + x);
    assert HostName(n, b, y) == n + "-" + (b + "-" + y);
  }

  /** Host pod names are unambiguous for every pod exactly when no tenant namespace dash-extends another. */
  lemma HostNamesInjectiveIff(display: string, namespaces: iset<string>)
    ensures HostNamesInjective(display, namespaces) <==> DashPrefixFree(namespaces)
  {
    if DashPrefixFree(namespaces) {
      forall i: nat, a, x, j: nat, b, y | a in namespaces && b in namespaces &&
        HostName(NodeName(display, i), a, x) == HostName(NodeName(display, j), b, y)
        ensures i == j && a == b && x == y
      {
        HostNameIsInjective(display, namespaces, i, a, x, j, b, y);
      }
    } else {
      var a, b :| a in namespaces && b in namespaces && DashPrefix(a, b);
      var x := DashPrefixCollides(display, a, b, "web");
      assert a != b;
    }
  }

  // ---------- host names of ConfigMaps and Secrets ----------

  /** Distinct (namespace, resource) pairs get distinct host names. */
  ghost predicate ResourceNamesInjective(namespaces: iset<string>) {
    forall a, x, b, y ::
      (a in namespaces && b in namespaces && ResourceName(a, x) == ResourceName(b, y)) ==> a == b && x == y
  }

  /** Host names of copied resources are unambiguous exactly when no tenant namespace dash-extends another. */
  lemma ResourceNamesInjectiveIff(namespaces: iset<string>)
    ensures ResourceNamesInjective(namespaces) <==> DashPrefixFree(namespaces)
  {
    if DashPrefixFree(namespaces) {
      forall a, x, b, y | a in namespaces && b in namespaces && ResourceName(a, x) == ResourceName(b, y)
        ensures a == b && x == y
      {
        SplitAtDash(a, x, b, y);
      }
    } else {
      var a, b :| a in namespaces && b in namespaces && DashPrefix(a, b);
      var r := b[|a| + 1..];
      assert b == a + "-" + r;
      assert ResourceName(a, r + "-" + "cfg") == ResourceName(b, "cfg");
      assert a != b;
    }
  }
}
