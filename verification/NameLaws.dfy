/** When two different things are given the same name. */
module NameLaws {
  import opened Names

  predicate HyphenFree(s: string) { '-' !in s }

  // --------------------------------------------------------------- joining by "-"

  /** A prefix in common can be dropped. */
  lemma PrefixCancels(p: string, a: string, b: string)
    requires p + a == p + b
    ensures a == b
  {
    assert a == (p + a)[|p|..] && b == (p + b)[|p|..];
  }

  /** One pair shifts a stretch of its first name into its second. */
  ghost predicate Shifted(a: string, b: string, c: string, d: string) {
    exists m: string :: c == a + "-" + m && b == m + "-" + d
  }

  lemma ShiftedJoins(a: string, b: string, c: string, d: string)
    requires Shifted(a, b, c, d)
    ensures Join(a, b) == Join(c, d)
  {
    var m: string :| c == a + "-" + m && b == m + "-" + d;
    assert a + "-" + (m + "-" + d) == (a + "-" + m) + "-" + d;
  }

  lemma LongerShifts(a: string, b: string, c: string, d: string)
    requires Join(a, b) == Join(c, d) && |a| < |c|
    ensures Shifted(a, b, c, d)
  {
    var j := Join(a, b);
    var m := c[|a| + 1..];
    assert c == j[..|c|] && a == j[..|a|] && j[|a|] == '-' && j[|c|] == '-';
    assert c == c[..|a|] + [c[|a|]] + m;
    assert b == j[|a| + 1..] && d == j[|c| + 1..];
    assert b == b[..|m|] + [b[|m|]] + b[|m| + 1..];
    assert b[..|m|] == m && b[|m|] == '-' && b[|m| + 1..] == d;
  }

  /** Exactly when two joined names are the same. */
  lemma JoinCollides(a: string, b: string, c: string, d: string)
    ensures Join(a, b) == Join(c, d) <==> (a == c && b == d) || Shifted(a, b, c, d) || Shifted(c, d, a, b)
  {
    if Shifted(a, b, c, d) {
      ShiftedJoins(a, b, c, d);
    }
    if Shifted(c, d, a, b) {
      ShiftedJoins(c, d, a, b);
    }
    if Join(a, b) == Join(c, d) {
      if |a| < |c| {
        LongerShifts(a, b, c, d);
      } else if |c| < |a| {
        LongerShifts(c, d, a, b);
      } else {
        assert a == Join(a, b)[..|a|] && c == Join(c, d)[..|c|];
        PrefixCancels(a + "-", b, d);
      }
    }
  }

  lemma HyphenInside(x: string, y: string)
    ensures !HyphenFree(x + "-" + y)
  {
    assert (x + "-" + y)[|x|] == '-';
  }

  lemma ShiftsHyphens(a: string, b: string, c: string, d: string)
    requires Shifted(a, b, c, d)
    ensures !HyphenFree(b) && !HyphenFree(c)
  {
    var m: string :| c == a + "-" + m && b == m + "-" + d;
    HyphenInside(a, m);
    HyphenInside(m, d);
  }

  /** No two pairs share a name when all first parts, or all second parts, are
      free of hyphens. */
  lemma JoinInjective(a: string, b: string, c: string, d: string)
    requires Join(a, b) == Join(c, d)
    requires (HyphenFree(a) && HyphenFree(c)) || (HyphenFree(b) && HyphenFree(d))
    ensures a == c && b == d
  {
    JoinCollides(a, b, c, d);
    if Shifted(a, b, c, d) {
      ShiftsHyphens(a, b, c, d);
    }
    if Shifted(c, d, a, b) {
      ShiftsHyphens(c, d, a, b);
    }
  }

  /** Two environments get one namespace exactly when one project's name runs on
      into the other's environment. */
  lemma NamespacesCollide(p: string, e: string, q: string, f: string)
    ensures NamespaceName(p, e) == NamespaceName(q, f) <==>
            (p == q && e == f) || Shifted(p, e, q, f) || Shifted(q, f, p, e)
  {
    JoinCollides(p, e, q, f);
    if NamespaceName(p, e) == NamespaceName(q, f) {
      PrefixCancels("proj-", Join(p, e), Join(q, f));
    }
  }

  /** Two backings of two previews get one source snapshot and one static content
      exactly when the namespace of one runs on into the other's backing. */
  lemma ClonesCollide(ns: string, b: string, ns': string, b': string)
    ensures CloneName(ns, b) == CloneName(ns', b') <==>
            (ns == ns' && b == b') || Shifted(ns, b, ns', b') || Shifted(ns', b', ns, b)
  {
    JoinCollides(ns, b, ns', b');
    if CloneName(ns, b) == CloneName(ns', b') {
      PrefixCancels("paas-clone-", Join(ns, b), Join(ns', b'));
    }
  }

  lemma NamespacesInjective(p: string, e: string, q: string, f: string)
    requires NamespaceName(p, e) == NamespaceName(q, f)
    requires (HyphenFree(p) && HyphenFree(q)) || (HyphenFree(e) && HyphenFree(f))
    ensures p == q && e == f
  {
    PrefixCancels("proj-", Join(p, e), Join(q, f));
    JoinInjective(p, e, q, f);
  }

  /** Any hyphen inside a project makes its namespaces ambiguous. */
  lemma HyphenCollides(x: string, y: string, e: string)
    ensures NamespaceName(x + "-" + y, e) == NamespaceName(x, y + "-" + e)
    ensures CloneName(x + "-" + y, e) == CloneName(x, y + "-" + e)
  {
    assert (x + "-" + y) + "-" + e == x + "-" + (y + "-" + e);
  }

  /** One name of each kind, as the cluster has it. */
  lemma BackingNamesInUse()
    ensures BackingName("dev", "db") == "dev-db" && ClaimName("dev", "db") == "data-dev-db-0"
    ensures BackupName("dev-db") == "dev-db-backup" && AppSecretName("dev-db") == "dev-db-app"
    ensures CloneCredsName("dev-db") == "dev-db-clone-src"
  {
  }

  lemma ProcessNamesInUse()
    ensures ProcessName("dev", "web", "http") == "dev-web-http"
    ensures ServiceHost("dev-db", "shop") == "dev-db.shop.svc.cluster.local"
  {
  }

  lemma JobNamesInUse()
    ensures ReleaseJobName("dev", "web", 12) == "dev-web-release-g12"
  {
    assert Decimal(12) == Decimal(1) + Decimal(2) == "12";
  }

  lemma CloneNamesInUse()
    ensures NamespaceName("shop", "dev") == "proj-shop-dev" && RestoreName("db") == "clone-db"
    ensures CloneName("proj-shop-pr", "db") == "paas-clone-proj-shop-pr-db"
  {
  }

  // --------------------------------------------------------------------- numerals

  predicate IsDigit(c: char) { '0' <= c <= '9' }

  predicate Digits(s: string) { forall i | 0 <= i < |s| :: IsDigit(s[i]) }

  lemma {:induction false} DecimalDigits(n: nat)
    ensures Digits(Decimal(n)) && Decimal(n) != ""
  {
    if n >= 10 {
      DecimalDigits(n / 10);
    }
  }

  lemma {:induction false} DecimalInjective(m: nat, n: nat)
    requires Decimal(m) == Decimal(n)
    ensures m == n
    decreases m
  {
    hide Digit;
    LastDigit(m);
    LastDigit(n);
    DigitInjective(m % 10, n % 10);
    if m >= 10 && n >= 10 {
      DecimalInjective(m / 10, n / 10);
    }
  }

  lemma DigitInjective(m: nat, n: nat)
    requires m < 10 && n < 10 && Digit(m) == Digit(n)
    ensures m == n
  {
  }

  lemma LastDigit(n: nat)
    ensures var s := Decimal(n);
            s != "" && s[|s| - 1] == Digit(n % 10) &&
            (if n < 10 then |s| == 1 else |s| > 1 && s[..|s| - 1] == Decimal(n / 10))
  {
    DecimalDigits(n / 10);
  }

  /** A numeral after a letter can be read back off the end. */
  lemma NumeralSuffix(x: string, d: string, y: string, e: string)
    requires Digits(d) && Digits(e) && x != "" && y != ""
    requires !IsDigit(x[|x| - 1]) && !IsDigit(y[|y| - 1])
    requires x + d == y + e
    ensures x == y && d == e
  {
    if |x| < |y| {
      LongerHead(x, d, y, e);
    } else if |y| < |x| {
      LongerHead(y, e, x, d);
    } else {
      assert x == (x + d)[..|x|] && y == (y + e)[..|y|];
      PrefixCancels(x, d, e);
    }
  }

  lemma LongerHead(x: string, d: string, y: string, e: string)
    requires x + d == y + e && |x| < |y| && Digits(d)
    ensures IsDigit(y[|y| - 1])
  {
    assert (x + d)[|y| - 1] == d[|y| - 1 - |x|] && (y + e)[|y| - 1] == y[|y| - 1];
  }

  /** Within one Stack no two release Jobs share a name, whatever hyphens and
      digits the services' names hold. */
  lemma JobNamesInjective(stack: string, s: string, g: nat, t: string, h: nat)
    requires ReleaseJobName(stack, s, g) == ReleaseJobName(stack, t, h)
    ensures s == t && g == h
  {
    var x, y := Join(stack, s) + "-release-g", Join(stack, t) + "-release-g";
    DecimalDigits(g);
    DecimalDigits(h);
    NumeralSuffix(x, Decimal(g), y, Decimal(h));
    DecimalInjective(g, h);
    var u := "-release-g";
    assert Join(stack, s) == x[..|x| - |u|] && Join(stack, t) == y[..|y| - |u|];
    PrefixCancels(stack + "-", s, t);
  }

  /** Across the Stacks of a namespace they can: exactly when the joined names of
      Stack and service do. */
  lemma JobNamesCollide(stack: string, s: string, g: nat, stack': string, t: string, h: nat)
    ensures ReleaseJobName(stack, s, g) == ReleaseJobName(stack', t, h) <==>
            g == h && ((stack == stack' && s == t) || Shifted(stack, s, stack', t) || Shifted(stack', t, stack, s))
  {
    JoinCollides(stack, s, stack', t);
    if ReleaseJobName(stack, s, g) == ReleaseJobName(stack', t, h) {
      var x, y := Join(stack, s) + "-release-g", Join(stack', t) + "-release-g";
      DecimalDigits(g);
      DecimalDigits(h);
      NumeralSuffix(x, Decimal(g), y, Decimal(h));
      DecimalInjective(g, h);
      var u := "-release-g";
      assert Join(stack, s) == x[..|x| - |u|] && Join(stack', t) == y[..|y| - |u|];
    }
  }
}
