/** Reading the descriptors' ConfigMap, whose documents come in any order. */
module Overlays {
  import opened Wrappers
  import opened Objects
  import opened Catalogs
  import opened Backings

  /** No two documents describe different things under a common name. */
  ghost predicate DocsAgree(cfg: Config, data: map<string, string>) {
    forall m, n, key | m in data && n in data && cfg.parse(data[m]).Some? && cfg.parse(data[n]).Some? ::
      Claims(cfg.parse(data[m]).value, key) && Claims(cfg.parse(data[n]).value, key) ==>
        cfg.parse(data[m]) == cfg.parse(data[n])
  }

  /** The descriptors of a document order are those of the documents. */
  lemma ParsedOf(cfg: Config, data: map<string, string>, names: seq<string>, d: ServiceDefinition)
    requires IsDocOrder(names, data)
    ensures d in Parsed(cfg, Documents(names, data)) <==> exists n :: n in data && cfg.parse(data[n]) == Some(d)
  {
    var docs := Documents(names, data);
    ParsedMembers(cfg, docs, d);
    if i :| 0 <= i < |docs| && cfg.parse(docs[i]) == Some(d) {
      assert names[i] in names;
    }
    if n :| n in data && cfg.parse(data[n]) == Some(d) {
      assert n in names;
      var i :| 0 <= i < |names| && names[i] == n;
      assert docs[i] == data[n];
    }
  }

  lemma ParsedAgree(cfg: Config, data: map<string, string>, names: seq<string>)
    requires IsDocOrder(names, data) && DocsAgree(cfg, data)
    ensures NamesAgree(Parsed(cfg, Documents(names, data)))
  {
    hide Claims, Parsed, Documents;
    var defs := Parsed(cfg, Documents(names, data));
    forall i, j, key | 0 <= i < j < |defs| && Claims(defs[i], key) && Claims(defs[j], key) ensures defs[i] == defs[j] {
      assert defs[i] in defs && defs[j] in defs;
      ParsedOf(cfg, data, names, defs[i]);
      ParsedOf(cfg, data, names, defs[j]);
      var m :| m in data && cfg.parse(data[m]) == Some(defs[i]);
      var n :| n in data && cfg.parse(data[n]) == Some(defs[j]);
    }
  }

  /** Whatever orders the map was walked in, reads of a ConfigMap give one catalog. */
  lemma OrdersAgree(cfg: Config, data: map<string, string>, cat: Catalog, cat': Catalog)
    requires IsOverlay(cfg, data, cat) && IsOverlay(cfg, data, cat') && DocsAgree(cfg, data)
    ensures cat == cat'
  {
    hide Claims, NamesAgree, DocsAgree, RegisteredAll, Parsed;
    var names :| IsDocOrder(names, data) && cat == RegisteredAll(cfg.builtins, Parsed(cfg, Documents(names, data)));
    var names' :| IsDocOrder(names', data) && cat' == RegisteredAll(cfg.builtins, Parsed(cfg, Documents(names', data)));
    ParsedAgree(cfg, data, names);
    ParsedAgree(cfg, data, names');
    var defs, defs' := Parsed(cfg, Documents(names, data)), Parsed(cfg, Documents(names', data));
    forall d ensures d in defs <==> d in defs' {
      ParsedOf(cfg, data, names, d);
      ParsedOf(cfg, data, names', d);
    }
    OrderIrrelevant(cfg.builtins, defs, defs');
  }

  /** Some order ends with a given document, whose names it then decides. */
  lemma EndsWith(cfg: Config, data: map<string, string>, m: string) returns (cat: Catalog)
    requires m in data && cfg.parse(data[m]).Some?
    ensures IsOverlay(cfg, data, cat)
    ensures forall key :: Claims(cfg.parse(data[m]).value, key) ==> key in cat && cat[key] == cfg.parse(data[m]).value
  {
    hide NamesUpTo;
    var rest := NamesOf(data.Keys - {m});
    var names := rest + [m];
    assert forall n :: n in names <==> n in data;
    assert IsDocOrder(names, data);
    var docs := Documents(names, data);
    assert docs[|docs| - 1] == data[m];
    cat := RegisteredAll(cfg.builtins, Parsed(cfg, docs));
  }

  /** Two different descriptors under one name: the order of the documents decides. */
  lemma OrderMatters(cfg: Config, data: map<string, string>, m: string, n: string, key: string)
    returns (cat: Catalog, cat': Catalog)
    requires m in data && n in data && cfg.parse(data[m]).Some? && cfg.parse(data[n]).Some?
    requires Claims(cfg.parse(data[m]).value, key) && Claims(cfg.parse(data[n]).value, key)
    requires cfg.parse(data[m]) != cfg.parse(data[n])
    ensures IsOverlay(cfg, data, cat) && IsOverlay(cfg, data, cat') && key in cat && key in cat' &&
            cat[key] != cat'[key]
  {
    hide IsOverlay, Claims;
    cat := EndsWith(cfg, data, m);
    cat' := EndsWith(cfg, data, n);
  }

  /** Every read of a ConfigMap gives the same catalog, whatever the map order, if
      and only if no two documents describe different things under one name. */
  lemma OneCatalog(cfg: Config, data: map<string, string>)
    ensures (forall cat, cat' | IsOverlay(cfg, data, cat) && IsOverlay(cfg, data, cat') :: cat == cat') <==>
      DocsAgree(cfg, data)
  {
    hide IsOverlay, Claims;
    if DocsAgree(cfg, data) {
      forall cat, cat' | IsOverlay(cfg, data, cat) && IsOverlay(cfg, data, cat') ensures cat == cat' {
        OrdersAgree(cfg, data, cat, cat');
      }
    } else {
      var m, n, key :| m in data && n in data && cfg.parse(data[m]).Some? && cfg.parse(data[n]).Some? &&
        Claims(cfg.parse(data[m]).value, key) && Claims(cfg.parse(data[n]).value, key) &&
        cfg.parse(data[m]) != cfg.parse(data[n]);
      var cat, cat' := OrderMatters(cfg, data, m, n, key);
    }
  }
}
