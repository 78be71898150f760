/** sort.Strings and sortedKeys (servicedef.go): the order that keeps rendered
    objects the same from pass to pass. */
module Sorting {
  /** Byte-wise string order. */
  predicate Less(a: string, b: string) {
    if b == "" then false
    else if a == "" then true
    else if a[0] != b[0] then a[0] < b[0]
    else Less(a[1..], b[1..])
  }

  lemma LessTotal(a: string, b: string)
    ensures Less(a, b) || a == b || Less(b, a)
    ensures !(Less(a, b) && Less(b, a)) && (a == b ==> !Less(a, b))
  {
    if a != "" && b != "" && a[0] == b[0] {
      LessTotal(a[1..], b[1..]);
      assert a == [a[0]] + a[1..] && b == [b[0]] + b[1..];
    }
  }

  lemma LessTransitive(a: string, b: string, c: string)
    requires Less(a, b) && Less(b, c)
    ensures Less(a, c)
  {
    if a != "" && b != "" && c != "" && a[0] == b[0] == c[0] {
      LessTransitive(a[1..], b[1..], c[1..]);
    }
  }

  predicate Ascending(s: seq<string>) {
    forall i, j | 0 <= i < j < |s| :: Less(s[i], s[j])
  }

  ghost predicate IsOrderOf(s: seq<string>, keys: set<string>) {
    Ascending(s) && forall k :: k in s <==> k in keys
  }

  /** A set has one ascending listing, so the order cannot depend on map
      iteration. */
  lemma {:induction false} OrderUnique(s: seq<string>, t: seq<string>, keys: set<string>)
    requires IsOrderOf(s, keys) && IsOrderOf(t, keys)
    ensures s == t
    decreases |s|
  {
    if t != [] {
      assert t[0] in keys && t[0] in s;
    }
    if s == [] {
    } else {
      assert s[0] in keys;
      assert t != [];
      assert t[0] in keys;
      var i :| 0 <= i < |t| && t[i] == s[0];
      var j :| 0 <= j < |s| && s[j] == t[0];
      LessTotal(s[0], t[0]);
      assert s[0] == t[0];
      forall k ensures k in s[1..] <==> k in keys - {s[0]} {
        LessTotal(s[0], s[0]);
      }
      forall k ensures k in t[1..] <==> k in keys - {s[0]} {
        LessTotal(s[0], s[0]);
      }
      OrderUnique(s[1..], t[1..], keys - {s[0]});
    }
  }

  /** The ascending listing of a set of strings. */
  ghost function Order(keys: set<string>): (s: seq<string>)
    ensures IsOrderOf(s, keys)
  {
    OrderExists(keys);
    var s :| IsOrderOf(s, keys);
    s
  }

  lemma {:induction false} OrderExists(keys: set<string>)
    ensures exists s :: IsOrderOf(s, keys)
  {
    if keys == {} {
      assert IsOrderOf([], keys);
    } else {
      var k :| k in keys;
      OrderExists(keys - {k});
      var s :| IsOrderOf(s, keys - {k});
      var t := Insert(s, k);
      InsertOrder(s, k, keys - {k});
      assert keys == keys - {k} + {k};
      assert IsOrderOf(t, keys);
    }
  }

  function Insert(s: seq<string>, k: string): seq<string> {
    if s == [] then [k]
    else if Less(k, s[0]) then [k] + s
    else [s[0]] + Insert(s[1..], k)
  }

  lemma {:induction false} InsertOrder(s: seq<string>, k: string, keys: set<string>)
    requires IsOrderOf(s, keys) && k !in keys
    ensures IsOrderOf(Insert(s, k), keys + {k})
    decreases |s|
  {
    var t := Insert(s, k);
    if s == [] {
    } else {
      LessTotal(k, s[0]);
      assert s[0] in keys;
      if Less(k, s[0]) {
        forall i, j | 0 <= i < j < |t| ensures Less(t[i], t[j]) {
          if i == 0 && j > 1 {
            LessTransitive(k, s[0], s[j - 1]);
          }
        }
      } else {
        var rest := keys - {s[0]};
        LessTotal(s[0], s[0]);
        assert forall x :: x in s[1..] ==> x in s;
        forall x ensures x in s[1..] <==> x in rest {
          if x in rest {
            var i :| 0 <= i < |s| && s[i] == x;
            assert s[1..][i - 1] == x;
          }
        }
        InsertOrder(s[1..], k, rest);
        var u := Insert(s[1..], k);
        forall i, j | 0 <= i < j < |t| ensures Less(t[i], t[j]) {
          if i == 0 {
            assert t[j] == u[j - 1];
            assert u[j - 1] in u;
            assert u[j - 1] in rest + {k};
            if u[j - 1] != k {
              var n :| 0 <= n < |s| && s[n] == u[j - 1];
            }
          }
        }
        forall x ensures x in t <==> x in keys + {k} {
          assert t == [s[0]] + u;
        }
      }
    }
  }

  /** sortedKeys: collect the keys in map order, then sort. */
  method SortedKeys(m: map<string, string>) returns (out: seq<string>)
    ensures out == Order(m.Keys)
  {
    out := [];
    var rest := m.Keys;
    ghost var done: set<string> := {};
    while rest != {}
      invariant done + rest == m.Keys && done !! rest && IsOrderOf(out, done)
      decreases |rest|
    {
      var k :| k in rest;
      InsertOrder(out, k, done);
      out := Insert(out, k);
      done := done + {k};
      rest := rest - {k};
    }
    assert done == m.Keys;
    OrderUnique(out, Order(m.Keys), m.Keys);
  }
}
