/** The generated passwords of template backings. */
module Credentials {
  import opened Wrappers
  import opened Objects
  import opened Clusters
  import opened Runs

  function PasswordOf(o: Object): string {
    if o.Secret? then GetOr(o.data, "password", "") else ""
  }

  /** The descriptor renders a value over the minted password. */
  predicate RendersPassword(p: Patch) {
    p.TemplatedSecret? && "password" in p.def.secretValues
  }

  /** One pass keeps a password exactly when the descriptor has no template of
      that key, or the template happens to give the same value again. */
  lemma PasswordKept(cfg: Config, p: Patch, o: Object)
    requires p.TemplatedSecret? && o.Secret? && PasswordOf(o) != "" && Mutate(cfg, p, Some(o)).Ok?
    ensures PasswordOf(Mutate(cfg, p, Some(o)).value) == PasswordOf(o) <==>
            (RendersPassword(p) ==>
               cfg.render(p.def.secretValues["password"], TemplateData(p.host, p.def.port, PasswordOf(o))) ==
                 Ok(PasswordOf(o)))
  {
    var base := SecretBase(p.def, p.host, p.mint, o.data);
    assert GetOr(base, "password", "") == PasswordOf(o);
    assert SecretData(p.def, p.host, p.mint, o.data) == TemplateData(p.host, p.def.port, PasswordOf(o));
  }

  lemma PasswordStep(cfg: Config, s: Store, ev: Event, k: Key)
    requires Typed(s) && Possible(cfg, s, ev) && k.kind == SecretKind && k in s.objs && k in Effect(cfg, s, ev).objs
    requires OwnerOf(s.objs[k].obj) != None && PasswordOf(s.objs[k].obj) != ""
    requires ev.Applied? && ev.key == k ==> !RendersPassword(ev.patch)
    ensures PasswordOf(Effect(cfg, s, ev).objs[k].obj) == PasswordOf(s.objs[k].obj)
    ensures OwnerOf(Effect(cfg, s, ev).objs[k].obj) == OwnerOf(s.objs[k].obj)
  {
    hide Mutate, Renders, SecretFinal;
    if ev.Applied? && ev.key == k {
      PatchKeepsPassword(cfg, ev.patch, s.objs[k].obj);
    }
  }

  lemma PatchKeepsPassword(cfg: Config, p: Patch, o: Object)
    requires PatchKind(p) == SecretKind && o.Secret? && PasswordOf(o) != "" && !RendersPassword(p)
    requires OwnerOf(o) != None && Mutate(cfg, p, Some(o)).Ok?
    ensures PasswordOf(Mutate(cfg, p, Some(o)).value) == PasswordOf(o)
    ensures OwnerOf(Mutate(cfg, p, Some(o)).value) == OwnerOf(o)
  {
    if p.TemplatedSecret? {
      PasswordKept(cfg, p, o);
    }
  }

  /** Password stability, over all runs: once a Stack's Secret holds a password, no
      pass, however stale its reads, changes it while the object lives. */
  lemma PasswordStable(cfg: Config, stores: seq<Store>, events: seq<Event>, i: nat, j: nat, k: Key)
    requires IsRun(cfg, stores, events) && i <= j < |stores| && k.kind == SecretKind
    requires k in stores[i].objs && k in stores[j].objs && stores[i].objs[k].uid == stores[j].objs[k].uid
    requires OwnerOf(stores[i].objs[k].obj) != None && PasswordOf(stores[i].objs[k].obj) != ""
    requires forall e | i <= e < j && events[e].Applied? && events[e].key == k :: !RendersPassword(events[e].patch)
    ensures PasswordOf(stores[j].objs[k].obj) == PasswordOf(stores[i].objs[k].obj)
    ensures OwnerOf(stores[j].objs[k].obj) == OwnerOf(stores[i].objs[k].obj)
    decreases j
  {
    hide IsStep, Warranted, Effect, Possible;
    RunTyped(cfg, stores, events, i);
    if i < j {
      SameUidBefore(cfg, stores, events, i, j, k);
      PasswordStable(cfg, stores, events, i, j - 1, k);
      RunTyped(cfg, stores, events, j - 1);
      StepOf(cfg, stores, events, j - 1);
      PasswordStep(cfg, stores[j - 1], events[j - 1], k);
    }
  }

  // ------------------------------------------------------------------- coherence

  /** The data a mutate function starts from. */
  function DataBefore(base: Option<Object>): map<string, string> {
    if base.Some? && base.value.Secret? then base.value.data else map[]
  }

  /** The password the templates are rendered with: the one there, or the one
      minted for want of it. */
  function PasswordUsed(p: Patch, data: map<string, string>): string
    requires p.TemplatedSecret?
  {
    if p.def.generatePassword && GetOr(data, "password", "") == "" then p.mint else GetOr(data, "password", "")
  }

  /** The password the Secret then holds. */
  function PasswordLeft(cfg: Config, p: Patch, data: map<string, string>): Result<string>
    requires p.TemplatedSecret?
  {
    if RendersPassword(p)
    then cfg.render(p.def.secretValues["password"], TemplateData(p.host, p.def.port, PasswordUsed(p, data)))
    else Ok(PasswordUsed(p, data))
  }

  /** No template can tell the password it is rendered with from the one left. */
  predicate RendersAlike(cfg: Config, p: Patch, data: map<string, string>)
    requires p.TemplatedSecret?
  {
    PasswordLeft(cfg, p, data).Ok? &&
    forall k | k in p.def.secretValues ::
      cfg.render(p.def.secretValues[k], TemplateData(p.host, p.def.port, PasswordUsed(p, data))) ==
      cfg.render(p.def.secretValues[k], TemplateData(p.host, p.def.port, PasswordLeft(cfg, p, data).value))
  }

  /** One pass leaves a coherent Secret exactly when every template renders the
      same with the password used as with the password left. */
  lemma CoherentExactly(cfg: Config, p: Patch, base: Option<Object>)
    requires p.TemplatedSecret? && (base.Some? ==> base.value.Secret?) && Mutate(cfg, p, base).Ok?
    ensures Coherent(cfg, p.def, p.host, Mutate(cfg, p, base).value.data) <==> RendersAlike(cfg, p, DataBefore(base))
    ensures p.def.generatePassword && !RendersPassword(p) ==> PasswordOf(Mutate(cfg, p, base).value) != ""
  {
    var data := DataBefore(base);
    var used := SecretData(p.def, p.host, p.mint, data);
    var final := Mutate(cfg, p, base).value.data;
    assert used == TemplateData(p.host, p.def.port, PasswordUsed(p, data));
    assert Ok(GetOr(final, "password", "")) == PasswordLeft(cfg, p, data);
    assert forall k | k in p.def.secretValues :: k in final && cfg.render(p.def.secretValues[k], used) == Ok(final[k]);
  }

  /** A Stack's Secret is what some pass's mutate function made of the one before. */
  lemma SecretMade(cfg: Config, stores: seq<Store>, events: seq<Event>, n: nat, k: Key) returns (w: nat)
    requires IsRun(cfg, stores, events) && n < |stores| && k.kind == SecretKind && k in stores[n].objs
    requires OwnerOf(stores[n].objs[k].obj) != None
    ensures w < n && events[w].Applied? && events[w].key == k && PatchKind(events[w].patch) == SecretKind
    ensures Mutate(cfg, events[w].patch, Find(stores[w], k)) == Ok(stores[n].objs[k].obj)
  {
    hide IsStep, Warranted, Justified, Mutate, Carries, OwnerOf;
    assert n > 0;
    RunTyped(cfg, stores, events, n);
    OwnedSteps(cfg, stores, events, n, k);
    if events[n - 1].Applied? && events[n - 1].key == k {
      w := n - 1;
      StepOf(cfg, stores, events, n - 1);
    } else {
      RunTyped(cfg, stores, events, n - 1);
      w := SecretMade(cfg, stores, events, n - 1, k);
    }
  }

  /** Coherence, over all runs: a Secret last written for a template backing holds
      every rendered value beside the very password it was rendered with, exactly
      when the templates render alike; they do without a template of "password". */
  lemma SecretsCohere(cfg: Config, stores: seq<Store>, events: seq<Event>, n: nat, k: Key) returns (w: nat)
    requires IsRun(cfg, stores, events) && n < |stores| && k.kind == SecretKind && k in stores[n].objs
    requires OwnerOf(stores[n].objs[k].obj) != None
    ensures w < n && events[w].Applied? && events[w].key == k && stores[n].objs[k].obj.Secret?
    ensures var p := events[w].patch; var data := DataBefore(Find(stores[w], k));
            p.TemplatedSecret? ==>
              (Coherent(cfg, p.def, p.host, stores[n].objs[k].obj.data) <==> RendersAlike(cfg, p, data)) &&
              (!RendersPassword(p) ==>
                 RendersAlike(cfg, p, data) && (p.def.generatePassword ==> PasswordOf(stores[n].objs[k].obj) != ""))
  {
    hide IsStep, Coherent, Mutate, RendersAlike;
    RunTyped(cfg, stores, events, n);
    w := SecretMade(cfg, stores, events, n, k);
    var p := events[w].patch;
    if p.TemplatedSecret? {
      CoherentExactly(cfg, p, Find(stores[w], k));
      if !RendersPassword(p) {
        AlikeWithout(cfg, p, DataBefore(Find(stores[w], k)));
      }
    }
  }

  lemma AlikeWithout(cfg: Config, p: Patch, data: map<string, string>)
    requires p.TemplatedSecret? && !RendersPassword(p)
    ensures RendersAlike(cfg, p, data)
  {
  }

  /** A template of its own for "password" breaks stability at a Secret that holds
      another password already, and coherence at the first pass: the URL is
      rendered with a password that is not the one left beside it. */
  lemma PasswordTemplateBreaks(cfg: Config, stack: string, def: ServiceDefinition, host: string, mint: NonEmptyString,
        held: string)
    requires def.generatePassword && def.secretValues == map["password" := "fixed", "url" := "{{.Password}}"]
    requires forall values :: cfg.render("fixed", values) == Ok("fixed")
    requires forall values :: "Password" in values ==> cfg.render("{{.Password}}", values) == Ok(values["Password"])
    requires mint != "fixed" && held != "fixed" && held != ""
    ensures var made := Mutate(cfg, TemplatedSecret(stack, def, host, mint), None);
            made.Ok? && made.value.Secret? && !Coherent(cfg, def, host, made.value.data)
    ensures var made := Mutate(cfg, TemplatedSecret(stack, def, host, mint),
                               Some(Secret(Some(stack), map["password" := held])));
            made.Ok? && PasswordOf(made.value) == "fixed" && !Coherent(cfg, def, host, made.value.data)
  {
    FixedAndUrl(cfg, stack, def, host, mint, None);
    FixedAndUrl(cfg, stack, def, host, mint, Some(Secret(Some(stack), map["password" := held])));
  }

  lemma FixedAndUrl(cfg: Config, stack: string, def: ServiceDefinition, host: string, mint: NonEmptyString,
        base: Option<Object>)
    requires def.generatePassword && def.secretValues == map["password" := "fixed", "url" := "{{.Password}}"]
    requires forall values :: cfg.render("fixed", values) == Ok("fixed")
    requires forall values :: "Password" in values ==> cfg.render("{{.Password}}", values) == Ok(values["Password"])
    requires base.Some? ==> base.value.Secret? && base.value.owner == Some(stack)
    ensures var p := TemplatedSecret(stack, def, host, mint); var made := Mutate(cfg, p, base);
            made.Ok? && made.value.Secret? && PasswordOf(made.value) == "fixed" &&
            (PasswordUsed(p, DataBefore(base)) != "fixed" ==> !Coherent(cfg, def, host, made.value.data))
  {
    var p := TemplatedSecret(stack, def, host, mint);
    var used := SecretData(def, host, mint, DataBefore(base));
    assert used["Password"] == PasswordUsed(p, DataBefore(base));
    assert Renders(cfg, def, used);
    var made := Mutate(cfg, p, base).value;
    assert made.data["password"] == "fixed" && made.data["url"] == used["Password"];
    assert "url" in def.secretValues;
  }
}
