/**
 * Injection of the live feed into one module dict of the anchor file, and
 * the in-place loop over the module list.
 */
module ModuleInjection {
  import opened Wrappers
  import opened JsonValues
  import opened RiskCalibration

  /** Python's `sub in s` on strings. */
  function Contains(s: string, sub: string): bool
    decreases |s|
  {
    if |s| < |sub| then false else s[..|sub|] == sub || Contains(s[1..], sub)
  }

  /** `"MODULE_6" in module_id`: a substring test on a string, membership on a list or a dict; anything else raises TypeError. */
  function MentionsModuleSix(moduleId: Json): Result<bool> {
    match moduleId
    case JStr(s) => Ok(Contains(s, "MODULE_6"))
    case JArr(items) => Ok(JStr("MODULE_6") in items)
    case JObj(fields) => Ok("MODULE_6" in fields)
    case _ => Err("TypeError")
  }

  /** `fields.setdefault(key, {})`: the section that is there, or a fresh empty dict. */
  function SectionOf(fields: map<string, Json>, key: string): Json {
    if key in fields then fields[key] else JObj(map[])
  }

  /** `section[entry] = value`; only a dict accepts a string key. */
  function SetEntry(section: Json, entry: string, value: Json): (r: Result<Json>)
    ensures r.Ok? <==> section.JObj?
    ensures r.Ok? ==> r.value.JObj? && r.value.fields == section.fields[entry := value]
  {
    if section.JObj? then Ok(JObj(section.fields[entry := value])) else Err("TypeError")
  }

  /** The module id as `mod.get("module_id", "")` reads it. */
  function ModuleId(fields: map<string, Json>): Json {
    if "module_id" in fields then fields["module_id"] else JStr("")
  }

  /** One pass of the injection loop body over one module. */
  function InjectModule(mod: Json, now: string, liveFeed: Json, metrics: RiskMetrics): Result<Json> {
    if !mod.JObj? then Err("AttributeError")
    else
      var runtime :- SetEntry(SectionOf(mod.fields, "runtime"), "last_update_utc", JStr(now));
      var f1 := mod.fields["runtime" := runtime];
      var telemetry :- SetEntry(SectionOf(f1, "telemetry"), "fusion_integrity", JNum(0.998));
      var f2 := f1["telemetry" := telemetry];
      var outputs :- SetEntry(SectionOf(f2, "outputs"), "live_feed", liveFeed);
      var f3 := f2["outputs" := outputs];
      var isSix :- MentionsModuleSix(ModuleId(f3));
      if isSix then
        var risky := outputs.fields["systemic_risk_score" := JNum(metrics.riskScore)]
                                   ["macro_tone_state" := JStr(ToneLabel(metrics.tone))];
        Ok(JObj(f3["outputs" := JObj(risky)]))
      else
        Ok(JObj(f3))
  }

  /** A section `setdefault` can extend: absent, or a dict. */
  predicate SectionUsable(fields: map<string, Json>, key: string) {
    key !in fields || fields[key].JObj?
  }

  /** A `module_id` the `in` test accepts: absent, a string, a list or a dict. */
  predicate ModuleIdUsable(fields: map<string, Json>) {
    "module_id" !in fields || fields["module_id"].JStr? || fields["module_id"].JArr? || fields["module_id"].JObj?
  }

  /** The old section's entries, with `entry` set to `value`. */
  predicate SectionSet(old_: map<string, Json>, key: string, new_: map<string, Json>, entry: string, value: Json) {
    key in new_ && new_[key].JObj? && SectionOf(old_, key).JObj?
    && new_[key].fields == SectionOf(old_, key).fields[entry := value]
  }

  // ----- properties -----

  /**
   * Injection succeeds exactly on a dict whose three sections are absent or
   * dicts and whose id the `in` test accepts. On success every key is kept,
   * the three sections gain their entries and keep their other entries, and
   * only a module whose id mentions MODULE_6 receives the risk fields.
   */
  lemma InjectModuleSpec(mod: Json, now: string, liveFeed: Json, metrics: RiskMetrics)
    ensures InjectModule(mod, now, liveFeed, metrics).Ok? <==>
      mod.JObj? && SectionUsable(mod.fields, "runtime") && SectionUsable(mod.fields, "telemetry")
      && SectionUsable(mod.fields, "outputs") && ModuleIdUsable(mod.fields)
    ensures InjectModule(mod, now, liveFeed, metrics).Ok? ==>
      var f := mod.fields;
      var g := InjectModule(mod, now, liveFeed, metrics).value.fields;
      var isSix := MentionsModuleSix(ModuleId(f)).value;
      && g.Keys == f.Keys + {"runtime", "telemetry", "outputs"}
      && (forall k :: k in f && k !in {"runtime", "telemetry", "outputs"} ==> g[k] == f[k])
      && SectionSet(f, "runtime", g, "last_update_utc", JStr(now))
      && SectionSet(f, "telemetry", g, "fusion_integrity", JNum(0.998))
      && (!isSix ==> SectionSet(f, "outputs", g, "live_feed", liveFeed))
      && (isSix ==>
            (g["outputs"].JObj? && SectionOf(f, "outputs").JObj?
             && g["outputs"].fields ==
                SectionOf(f, "outputs").fields["live_feed" := liveFeed]
                  ["systemic_risk_score" := JNum(metrics.riskScore)]["macro_tone_state" := JStr(ToneLabel(metrics.tone))]))
  {
    if mod.JObj? && SectionUsable(mod.fields, "runtime") && SectionUsable(mod.fields, "telemetry")
       && SectionUsable(mod.fields, "outputs") {
      var f := mod.fields;
      var f1 := f["runtime" := JObj(SectionOf(f, "runtime").fields["last_update_utc" := JStr(now)])];
      assert SectionOf(f1, "telemetry") == SectionOf(f, "telemetry");
      var f2 := f1["telemetry" := JObj(SectionOf(f, "telemetry").fields["fusion_integrity" := JNum(0.998)])];
      assert SectionOf(f2, "outputs") == SectionOf(f, "outputs");
      var f3 := f2["outputs" := JObj(SectionOf(f, "outputs").fields["live_feed" := liveFeed])];
      assert ModuleId(f3) == ModuleId(f);
    }
  }

  /** The id test is a substring test: a longer id that merely contains MODULE_6 matches too. */
  lemma ModuleSixIsSubstringMatch()
    ensures MentionsModuleSix(JStr("MODULE_6")) == Ok(true)
    ensures MentionsModuleSix(JStr("MODULE_60")) == Ok(true)
    ensures MentionsModuleSix(JStr("MODULE_5")) == Ok(false)
    ensures MentionsModuleSix(JStr("")) == Ok(false)
    ensures MentionsModuleSix(JNull).Err?
  {
    assert "MODULE_60"[..8] == "MODULE_6";
    assert "MODULE_5"[7] != "MODULE_6"[7];
    assert |"MODULE_5"[1..]| < 8;
  }

  /**
   * The injection loop over the module list, in place. On success each
   * element is its own injected version, so the list keeps its length and
   * order. On the first failure the loop stops with that error: the modules
   * before it are injected and the rest are as they were.
   */
  method InjectModules(modules: array<Json>, now: string, liveFeed: Json, metrics: RiskMetrics)
    returns (error: Option<string>)
    modifies modules
    ensures error.None? <==>
      forall i :: 0 <= i < modules.Length ==> InjectModule(old(modules[i]), now, liveFeed, metrics).Ok?
    ensures error.None? ==>
      forall i :: 0 <= i < modules.Length ==> InjectModule(old(modules[i]), now, liveFeed, metrics) == Ok(modules[i])
    ensures error.Some? ==>
      exists j :: (0 <= j < modules.Length
        && InjectModule(old(modules[j]), now, liveFeed, metrics) == Err(error.value)
        && (forall i :: 0 <= i < j ==> InjectModule(old(modules[i]), now, liveFeed, metrics) == Ok(modules[i]))
        && (forall i :: j <= i < modules.Length ==> modules[i] == old(modules[i])))
  {
    var k := 0;
    while k < modules.Length
      invariant 0 <= k <= modules.Length
      invariant forall i :: 0 <= i < k ==> InjectModule(old(modules[i]), now, liveFeed, metrics) == Ok(modules[i])
      invariant forall i :: k <= i < modules.Length ==> modules[i] == old(modules[i])
    {
      var r := InjectModule(modules[k], now, liveFeed, metrics);
      if r.Err? {
        return Some(r.error);
      }
      modules[k] := r.value;
      k := k + 1;
    }
    return None;
  }
}
