/** The alias-indexed descriptor catalog (servicedef.go), its ConfigMap overlay,
    and the API's projection of it (catalog_api.go). */
module Catalogs {
  import opened Wrappers
  import opened Objects
  import opened Sorting

  // ------------------------------------------------------- registering, looking up

  /** A map with some names pointed at one value. */
  function Overlaid<V>(m: map<string, V>, names: set<string>, v: V): (r: map<string, V>)
    ensures r.Keys == m.Keys + names
    ensures forall k | k in r :: r[k] == if k in names then v else m[k]
  {
    map k | k in m.Keys + names :: if k in names then v else m[k]
  }

  /** What a descriptor claims: its type and its aliases, whatever their case. */
  lemma ClaimsExactly(def: ServiceDefinition, key: string)
    ensures Claims(def, key) <==>
      key == Lower(def.kind) || exists i | 0 <= i < |def.aliases| :: key == Lower(def.aliases[i])
  {
    NamesUpToAre(def, |def.aliases|, key);
  }

  lemma {:induction false} NamesUpToAre(def: ServiceDefinition, n: nat, key: string)
    requires n <= |def.aliases|
    ensures key in NamesUpTo(def, n) <==>
      key == Lower(def.kind) || exists i | 0 <= i < n :: key == Lower(def.aliases[i])
  {
    hide Lower;
    if n > 0 {
      NamesUpToAre(def, n - 1, key);
    }
  }

  /** Types in any case. */
  lemma TypesInUse()
    ensures Lower("Valkey-8") == "valkey-8" && IsPostgres("PostgreSQL") && IsPostgres("postgres")
    ensures IsObjectStore("S3") && IsObjectStore("object") && !IsPostgres("redis") && !IsObjectStore("redis")
  {
    assert Lower("redis")[0] == 'r' && "postgres"[0] == 'p' && "postgresql"[0] == 'p' && "object"[0] == 'o' &&
           "s3"[0] == 's';
  }

  function Registered(cat: Catalog, def: ServiceDefinition): Catalog {
    Overlaid(cat, NamesUpTo(def, |def.aliases|), def)
  }

  /** byType after registering descriptors in order. */
  function RegisteredAll(cat: Catalog, defs: seq<ServiceDefinition>): Catalog {
    if defs == [] then cat else Registered(RegisteredAll(cat, defs[..|defs| - 1]), defs[|defs| - 1])
  }

  function Lookup(cat: Catalog, kind: string): Option<ServiceDefinition> {
    if Lower(kind) in cat then Some(cat[Lower(kind)]) else None
  }

  /** The last of `defs` that claims a key. */
  function LastClaimant(defs: seq<ServiceDefinition>, key: string): Option<ServiceDefinition> {
    if defs == [] then None
    else if Claims(defs[|defs| - 1], key) then Some(defs[|defs| - 1])
    else LastClaimant(defs[..|defs| - 1], key)
  }

  /** After any sequence of registrations a name is at the last descriptor that
      claims it, or where it was before when none does. */
  lemma {:induction false} LastClaimantWins(cat: Catalog, defs: seq<ServiceDefinition>, key: string)
    ensures var last := LastClaimant(defs, key); var after := RegisteredAll(cat, defs);
            if last.Some? then key in after && after[key] == last.value
            else (key in after <==> key in cat) && (key in cat ==> after[key] == cat[key])
  {
    hide NamesUpTo;
    if defs != [] {
      LastClaimantWins(cat, defs[..|defs| - 1], key);
    }
  }

  /** And that is what a lookup, in any case, finds. */
  lemma {:induction false} LastWriterWins(cat: Catalog, defs: seq<ServiceDefinition>, kind: string)
    ensures Lookup(RegisteredAll(cat, defs), kind) ==
            (var last := LastClaimant(defs, Lower(kind)); if last.Some? then last else Lookup(cat, kind))
  {
    hide Lower, LastClaimant, RegisteredAll;
    LastClaimantWins(cat, defs, Lower(kind));
  }

  /** Descriptors that claim a common name are equal. */
  ghost predicate NamesAgree(defs: seq<ServiceDefinition>) {
    forall i, j, key | 0 <= i < j < |defs| :: Claims(defs[i], key) && Claims(defs[j], key) ==> defs[i] == defs[j]
  }

  lemma {:induction false} SoleClaimant(defs: seq<ServiceDefinition>, i: nat, key: string)
    requires i < |defs| && Claims(defs[i], key)
    requires forall j | 0 <= j < |defs| :: Claims(defs[j], key) ==> defs[j] == defs[i]
    ensures LastClaimant(defs, key) == Some(defs[i])
  {
    var n := |defs| - 1;
    if i < n {
      SoleClaimant(defs[..n], i, key);
    }
  }

  lemma {:induction false} NoClaimant(defs: seq<ServiceDefinition>, key: string)
    ensures LastClaimant(defs, key).Some? ==>
              exists i :: 0 <= i < |defs| && Claims(defs[i], key) && LastClaimant(defs, key) == Some(defs[i])
    ensures LastClaimant(defs, key).None? ==> forall i | 0 <= i < |defs| :: !Claims(defs[i], key)
  {
    if defs != [] {
      NoClaimant(defs[..|defs| - 1], key);
    }
  }

  lemma SameClaimant(defs: seq<ServiceDefinition>, defs': seq<ServiceDefinition>, key: string)
    requires NamesAgree(defs') && forall d :: d in defs ==> d in defs'
    ensures LastClaimant(defs, key).Some? ==> LastClaimant(defs', key) == LastClaimant(defs, key)
  {
    hide Claims;
    NoClaimant(defs, key);
    if LastClaimant(defs, key).Some? {
      var i :| 0 <= i < |defs| && Claims(defs[i], key) && LastClaimant(defs, key) == Some(defs[i]);
      assert defs[i] in defs';
      var j :| 0 <= j < |defs'| && defs'[j] == defs[i];
      SoleClaimant(defs', j, key);
    }
  }

  /** The overlay does not depend on the order of the descriptors when those that
      claim a common name are equal. */
  lemma OrderIrrelevant(cat: Catalog, defs: seq<ServiceDefinition>, defs': seq<ServiceDefinition>)
    requires NamesAgree(defs) && NamesAgree(defs') && forall d :: d in defs <==> d in defs'
    ensures RegisteredAll(cat, defs) == RegisteredAll(cat, defs')
  {
    hide RegisteredAll, LastClaimant, NamesAgree;
    forall k ensures (k in RegisteredAll(cat, defs) <==> k in RegisteredAll(cat, defs')) &&
        (k in RegisteredAll(cat, defs) ==> RegisteredAll(cat, defs)[k] == RegisteredAll(cat, defs')[k])
    {
      LastClaimantWins(cat, defs, k);
      LastClaimantWins(cat, defs', k);
      SameClaimant(defs, defs', k);
      SameClaimant(defs', defs, k);
    }
  }

  /** An overlay adds and overrides names; it never takes one away. */
  lemma {:induction false} NothingUnregistered(cat: Catalog, defs: seq<ServiceDefinition>)
    ensures cat.Keys <= RegisteredAll(cat, defs).Keys
  {
    if defs != [] {
      NothingUnregistered(cat, defs[..|defs| - 1]);
    }
  }

  // ------------------------------------------------------------ the API projection

  datatype Tier = OperatorTier | ObjectTier | TemplateTier | NoTier

  /** The branch reconcileBacking takes for a type, before its image fallback. */
  function TierOf(cat: Catalog, kind: string): Tier {
    if IsPostgres(kind) then OperatorTier
    else if IsObjectStore(kind) then ObjectTier
    else if Lookup(cat, kind).Some? then TemplateTier
    else NoTier
  }

  datatype CatalogEntry = CatalogEntry(
    kind: string, aliases: seq<string>, tier: Tier, defaultVersion: string, port: int, defaultEnv: string,
    extra: seq<string>, persistent: bool, managedBackup: bool)

  const OPERATOR_ENTRIES: seq<CatalogEntry> := [
    CatalogEntry("postgres", ["postgresql"], OperatorTier, "17.2", 5432, "DATABASE_URL",
      ["PGHOST", "PGPORT", "PGDATABASE", "PGUSER", "PGPASSWORD"], true, true),
    CatalogEntry("object", ["s3"], ObjectTier, "", 0, "S3_ENDPOINT",
      ["S3_ENDPOINT", "S3_BUCKET", "S3_REGION", "S3_ACCESS_KEY_ID", "S3_SECRET_ACCESS_KEY"], false, false)]

  function UpperSnakeChar(ch: char): char {
    if 'a' <= ch <= 'z' then ch - 'a' + 'A'
    else if 'A' <= ch <= 'Z' || '0' <= ch <= '9' then ch
    else '_'
  }

  /** Letters, digits and underscores only, byte for byte. */
  function UpperSnaked(s: string): string {
    seq(|s|, i requires 0 <= i < |s| => UpperSnakeChar(s[i]))
  }

  method UpperSnake(s: string) returns (b: string)
    ensures b == UpperSnaked(s)
    ensures |b| == |s| && forall i | 0 <= i < |b| :: 'A' <= b[i] <= 'Z' || '0' <= b[i] <= '9' || b[i] == '_'
  {
    b := "";
    for i := 0 to |s|
      invariant b == UpperSnaked(s[..i])
    {
      b := b + [UpperSnakeChar(s[i])];
    }
    assert s[..|s|] == s;
  }

  function TemplateDefaultEnv(kind: string): string {
    if kind == "valkey" then "REDIS_URL"
    else if kind == "memcached" then "MEMCACHED_SERVERS"
    else if kind == "nats" then "NATS_URL"
    else UpperSnaked(kind) + "_URL"
  }

  method DefaultEnv(kind: string) returns (env: string)
    ensures env == TemplateDefaultEnv(kind)
  {
    if kind == "valkey" {
      env := "REDIS_URL";
    } else if kind == "memcached" {
      env := "MEMCACHED_SERVERS";
    } else if kind == "nats" {
      env := "NATS_URL";
    } else {
      env := UpperSnake(kind);
      env := env + "_URL";
    }
  }

  ghost function EntryOf(def: ServiceDefinition): CatalogEntry {
    CatalogEntry(def.kind, def.aliases, TemplateTier, def.defaultVersion, def.port, TemplateDefaultEnv(def.kind),
      Order(def.extra.Keys), def.persistence.Some?, false)
  }

  /** Sorted by type (sort.Slice leaves the order of equal types open). */
  predicate SortedByKind(s: seq<CatalogEntry>) {
    forall i, j | 0 <= i < j < |s| :: !Less(s[j].kind, s[i].kind)
  }

  function InsertEntry(s: seq<CatalogEntry>, e: CatalogEntry): (r: seq<CatalogEntry>)
    ensures multiset(r) == multiset(s) + multiset{e}
  {
    if s == [] then [e]
    else if Less(e.kind, s[0].kind) then
      [e] + s
    else
      assert s == [s[0]] + s[1..];
      [s[0]] + InsertEntry(s[1..], e)
  }

  /** Nothing in `s` comes before `kind`. */
  predicate NotBefore(kind: string, s: seq<CatalogEntry>) {
    forall i | 0 <= i < |s| :: !Less(s[i].kind, kind)
  }

  lemma ConsSorted(e: CatalogEntry, s: seq<CatalogEntry>)
    requires SortedByKind(s) && NotBefore(e.kind, s)
    ensures SortedByKind([e] + s)
  {
    hide Less;
  }

  lemma {:induction false} InsertKeepsAfter(s: seq<CatalogEntry>, e: CatalogEntry, kind: string)
    requires NotBefore(kind, s) && !Less(e.kind, kind)
    ensures NotBefore(kind, InsertEntry(s, e))
  {
    hide Less;
    var t := InsertEntry(s, e);
    forall i | 0 <= i < |t| ensures !Less(t[i].kind, kind) {
      assert t[i] in multiset(t);
      assert t[i] == e || t[i] in s;
    }
  }

  lemma BeforeStays(x: string, e: string, y: string)
    requires Less(e, y) && !Less(x, y)
    ensures !Less(x, e)
  {
    if Less(x, e) {
      LessTransitive(x, e, y);
    }
  }

  lemma {:induction false} InsertEntrySorted(s: seq<CatalogEntry>, e: CatalogEntry)
    requires SortedByKind(s)
    ensures SortedByKind(InsertEntry(s, e))
  {
    if s != [] {
      LessTotal(e.kind, s[0].kind);
      if Less(e.kind, s[0].kind) {
        forall i | 0 <= i < |s| ensures !Less(s[i].kind, e.kind) {
          LessTotal(s[i].kind, s[0].kind);
          BeforeStays(s[i].kind, e.kind, s[0].kind);
        }
        ConsSorted(e, s);
      } else {
        InsertEntrySorted(s[1..], e);
        InsertKeepsAfter(s[1..], e, s[0].kind);
        ConsSorted(s[0], InsertEntry(s[1..], e));
      }
    }
  }

  function Pointed(index: map<string, nat>, def: ServiceDefinition, n: nat, p: nat): map<string, nat>
    requires n <= |def.aliases|
  {
    Overlaid(index, NamesUpTo(def, n), p)
  }

  /** Names point at descriptors that claim them, and no registered descriptor
      ever loses a name. */
  ghost predicate Pointers(defs: seq<ServiceDefinition>, index: map<string, nat>) {
    (forall k | k in index :: index[k] < |defs| && Claims(defs[index[k]], k)) &&
    (forall i, k | 0 <= i < |defs| && Claims(defs[i], k) :: k in index)
  }

  function Dereferenced(defs: seq<ServiceDefinition>, index: map<string, nat>): Catalog
    requires Pointers(defs, index)
  {
    map k | k in index :: defs[index[k]]
  }

  lemma PointedFirst(index: map<string, nat>, def: ServiceDefinition, p: nat)
    ensures Pointed(index, def, 0, p) == index[Lower(def.kind) := p]
  {
  }

  lemma PointedNext(index: map<string, nat>, def: ServiceDefinition, n: nat, p: nat)
    requires n < |def.aliases|
    ensures Pointed(index, def, n + 1, p) == Pointed(index, def, n, p)[Lower(def.aliases[n]) := p]
  {
    hide Lower;
  }

  lemma PointersGrow(defs: seq<ServiceDefinition>, index: map<string, nat>, def: ServiceDefinition)
    requires Pointers(defs, index)
    ensures Pointers(defs + [def], Pointed(index, def, |def.aliases|, |defs|))
    ensures index.Keys <= Pointed(index, def, |def.aliases|, |defs|).Keys
  {
    hide NamesUpTo, Overlaid;
    var index', defs' := Pointed(index, def, |def.aliases|, |defs|), defs + [def];
    forall i, k | 0 <= i < |defs'| && Claims(defs'[i], k) ensures k in index' {
      assert i < |defs| ==> defs'[i] == defs[i];
    }
  }

  lemma ViewGrows(defs: seq<ServiceDefinition>, index: map<string, nat>, def: ServiceDefinition)
    requires Pointers(defs, index) && Pointers(defs + [def], Pointed(index, def, |def.aliases|, |defs|))
    ensures Dereferenced(defs + [def], Pointed(index, def, |def.aliases|, |defs|)) ==
            Registered(Dereferenced(defs, index), def)
  {
    hide NamesUpTo, Overlaid, Claims;
  }

  /** Every pointer once. */
  ghost predicate Covers(order: seq<nat>, ps: set<nat>) {
    (forall i, j | 0 <= i < j < |order| :: order[i] != order[j]) && (forall p :: p in order <==> p in ps)
  }

  ghost predicate InRange(order: seq<nat>, n: nat) {
    forall i | 0 <= i < |order| :: order[i] < n
  }

  ghost function Projected(defs: seq<ServiceDefinition>, order: seq<nat>): multiset<CatalogEntry>
    requires InRange(order, |defs|)
  {
    if order == [] then multiset(OPERATOR_ENTRIES)
    else Projected(defs, order[..|order| - 1]) + multiset{EntryOf(defs[order[|order| - 1]])}
  }

  /** The entries of a catalog: the operator types and each descriptor once. */
  ghost predicate IsProjection(defs: seq<ServiceDefinition>, ps: set<nat>, out: seq<CatalogEntry>) {
    exists order: seq<nat> ::
      InRange(order, |defs|) && Covers(order, ps) && multiset(out) == Projected(defs, order)
  }

  /** The index of type -> descriptor. A descriptor pointer is its position among
      the descriptors allocated so far. */
  class ServiceCatalog {
    var defs: seq<ServiceDefinition>
    var byType: map<string, nat>

    ghost predicate Valid()
      reads this
    {
      Pointers(defs, byType)
    }

    /** What lookup sees. */
    function View(): Catalog
      reads this
      requires Valid()
    {
      Dereferenced(defs, byType)
    }

    constructor ()
      ensures Valid() && View() == map[]
    {
      defs, byType := [], map[];
    }

    /** The start of catalog(): another index over the same descriptors. */
    constructor Copy(other: ServiceCatalog)
      requires other.Valid()
      ensures Valid() && View() == other.View()
    {
      defs, byType := other.defs, other.byType;
    }

    /** register. */
    method Register(def: ServiceDefinition)
      requires Valid()
      modifies this
      ensures Valid() && View() == Registered(old(View()), def)
      ensures defs == old(defs) + [def] && old(byType).Keys <= byType.Keys
    {
      hide NamesUpTo, Overlaid, Pointed, Lower;
      PointersGrow(defs, byType, def);
      ViewGrows(defs, byType, def);
      ghost var before := byType;
      var p := |defs|;
      defs := defs + [def];
      byType := byType[Lower(def.kind) := p];
      PointedFirst(before, def, p);
      for i := 0 to |def.aliases|
        invariant defs == old(defs) + [def] && byType == Pointed(before, def, i, p)
      {
        byType := byType[Lower(def.aliases[i]) := p];
        PointedNext(before, def, i, p);
      }
    }

    /** lookup. */
    method LookUp(kind: string) returns (r: Option<ServiceDefinition>)
      requires Valid()
      ensures r == Lookup(View(), kind)
    {
      r := if Lower(kind) in byType then Some(defs[byType[Lower(kind)]]) else None;
    }

    /** Entries: the operator types, and every descriptor some name points at once,
        sorted by type. */
    method Entries() returns (out: seq<CatalogEntry>)
      requires Valid()
      ensures SortedByKind(out) && IsProjection(defs, byType.Values, out)
    {
      hide InsertEntry, Projected, Covers, InRange, TemplateDefaultEnv;
      out := InsertEntry([OPERATOR_ENTRIES[1]], OPERATOR_ENTRIES[0]);
      InsertEntrySorted([OPERATOR_ENTRIES[1]], OPERATOR_ENTRIES[0]);
      var seen: set<nat> := {};
      var rest := byType.Keys;
      ghost var order: seq<nat> := [];
      NothingProjected(defs, out);
      while rest != {}
        invariant rest <= byType.Keys && SortedByKind(out)
        invariant seen <= byType.Values && forall k | k in byType && k !in rest :: byType[k] in seen
        invariant InRange(order, |defs|) && Covers(order, seen) && multiset(out) == Projected(defs, order)
        decreases |rest|
      {
        var k :| k in rest;
        rest := rest - {k};
        var p := byType[k];
        if p !in seen {
          var e := Project(defs[p]);
          InsertEntrySorted(out, e);
          out := InsertEntry(out, e);
          ProjectedMore(defs, order, seen, p);
          order := order + [p];
          seen := seen + {p};
        }
      }
      assert seen == byType.Values;
    }
  }

  method Project(def: ServiceDefinition) returns (e: CatalogEntry)
    ensures e == EntryOf(def)
  {
    var extra := SortedKeys(def.extra);
    var env := DefaultEnv(def.kind);
    e := CatalogEntry(def.kind, def.aliases, TemplateTier, def.defaultVersion, def.port, env, extra,
                      def.persistence.Some?, false);
  }

  lemma NothingProjected(defs: seq<ServiceDefinition>, out: seq<CatalogEntry>)
    requires out == InsertEntry([OPERATOR_ENTRIES[1]], OPERATOR_ENTRIES[0])
    ensures InRange([], |defs|) && Covers([], {}) && multiset(out) == Projected(defs, [])
  {
    assert OPERATOR_ENTRIES == [OPERATOR_ENTRIES[0]] + [OPERATOR_ENTRIES[1]];
  }

  lemma ProjectedMore(defs: seq<ServiceDefinition>, order: seq<nat>, ps: set<nat>, p: nat)
    requires InRange(order, |defs|) && Covers(order, ps) && p !in ps && p < |defs|
    ensures InRange(order + [p], |defs|) && Covers(order + [p], ps + {p})
    ensures Projected(defs, order + [p]) == Projected(defs, order) + multiset{EntryOf(defs[p])}
  {
    CoversMore(order, ps, p);
    assert (order + [p])[..|order|] == order;
  }

  lemma CoversMore(order: seq<nat>, ps: set<nat>, p: nat)
    requires Covers(order, ps) && p !in ps
    ensures Covers(order + [p], ps + {p})
  {
    assert forall i | 0 <= i < |order| :: order[i] in order;
  }

  // ---------------------------------------------------------- entries that dispatch

  predicate OperatorName(key: string) {
    key == "postgres" || key == "postgresql" || key == "object" || key == "s3"
  }

  lemma OperatorNamesLower(key: string)
    requires OperatorName(key)
    ensures Lower(key) == key
  {
  }

  /** Every type and alias an entry offers is provisioned by the tier the entry
      advertises, under any later overlay, if and only if the entry's names keep
      clear of the operators' names. */
  lemma EntryDispatches(cat: Catalog, overlay: seq<ServiceDefinition>, def: ServiceDefinition)
    requires forall key | Claims(def, key) :: key in cat
    ensures (forall kind | Claims(def, Lower(kind)) :: TierOf(RegisteredAll(cat, overlay), kind) == TemplateTier) <==>
            (forall key | Claims(def, key) :: !OperatorName(key))
  {
    hide Lower, Claims;
    NothingUnregistered(cat, overlay);
    if key :| Claims(def, key) && OperatorName(key) {
      OperatorNamesLower(key);
      assert TierOf(RegisteredAll(cat, overlay), key) != TemplateTier;
    }
  }
}
