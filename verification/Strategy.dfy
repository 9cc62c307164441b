/**
 Strategy parameters: JSON layers merged over the defaults, and the checked edits that keep every
 effective combination valid.
 */
module Strategy {
  import opened Domain
  import opened Pricing

  datatype Json = Null | Num(n: real) | Text(s: string) | Obj(m: map<string, Json>)

  type Object = map<string, Json>

  function DefaultParams(): Params
  {
    Params(
      BaselineParams(15, 0.97, 0.95, 0.98, 0.0),
      ControllerParams(0.85, 1.25, 0.03, 0.05, 7),
      Guardrails(0.5, 20000.0, 0.15, 0.02, 30, 0.3, 2.0),
      60, 30)
  }

  // ---- decoding onto existing parameters ----

  /** A missing or null field keeps its value; a field of another type is an error. */
  function ReadReal(o: Object, key: string, old': real): Option<real>
  {
    if key !in o || o[key] == Null then Some(old')
    else if o[key].Num? then Some(o[key].n)
    else None
  }

  function ReadInt(o: Object, key: string, old': int): Option<int>
  {
    if key !in o || o[key] == Null then Some(old')
    else if o[key].Num? && o[key].n.Floor as real == o[key].n then Some(o[key].n.Floor)
    else None
  }

  function ReadSection(o: Object, key: string): Option<Object>
  {
    if key !in o || o[key] == Null then Some(map[])
    else if o[key].Obj? then Some(o[key].m)
    else None
  }

  function ReadBaseline(o: Object, p: BaselineParams): Option<BaselineParams>
  {
    var a, b, c, d, e := ReadInt(o, "topn", p.topN), ReadReal(o, "k1", p.k1), ReadReal(o, "k2", p.k2),
      ReadReal(o, "k3", p.k3),
      ReadReal(o, "min_lease_ratio", p.minLeaseRatio);
    if a.Some? && b.Some? && c.Some? && d.Some? && e.Some?
    then Some(BaselineParams(a.value, b.value, c.value, d.value, e.value)) else None
  }

  function ReadCtrl(o: Object, p: ControllerParams): Option<ControllerParams>
  {
    var a, b, c, d, e := ReadReal(o, "min", p.fMin), ReadReal(o, "max", p.fMax), ReadReal(o, "step_up", p.stepUp),
      ReadReal(o, "step_down", p.stepDown), ReadInt(o, "stale_days", p.staleDays);
    if a.Some? && b.Some? && c.Some? && d.Some? && e.Some?
    then Some(ControllerParams(a.value, b.value, c.value, d.value, e.value)) else None
  }

  function ReadGuard(o: Object, p: Guardrails): Option<Guardrails>
  {
    var a, b, c, d, e, f, g := ReadReal(o, "min_rent", p.minRent), ReadReal(o, "max_rent", p.maxRent),
      ReadReal(o, "max_change_ratio", p.maxChangeRatio), ReadReal(o, "noise_ratio", p.noiseRatio),
      ReadInt(o, "cooldown_minutes", p.cooldownMinutes), ReadReal(o, "deposit_floor_ratio", p.depositFloorRatio),
      ReadReal(o, "deposit_cap_ratio", p.depositCapRatio);
    if a.Some? && b.Some? && c.Some? && d.Some? && e.Some? && f.Some? && g.Some?
    then Some(Guardrails(a.value, b.value, c.value, d.value, e.value, f.value, g.value)) else None
  }

  function ReadParams(o: Object, p: Params): Option<Params>
  {
    var sb, sc, sg := ReadSection(o, "baseline"), ReadSection(o, "factor"), ReadSection(o, "guardrails");
    var u, e := ReadInt(o, "uu_max_days", p.uuMaxDays), ReadInt(o, "eco_max_days", p.ecoMaxDays);
    if !(sb.Some? && sc.Some? && sg.Some? && u.Some? && e.Some?) then None
    else
      var b, c, g := ReadBaseline(sb.value, p.baseline), ReadCtrl(sc.value, p.ctrl), ReadGuard(sg.value, p.guard);
      if b.Some? && c.Some? && g.Some? then Some(Params(b.value, c.value, g.value, u.value, e.value)) else None
  }

  /** Unmarshal of a document onto parameters; a top-level null changes nothing. */
  function Unmarshal(t: Json, p: Params): Option<Params>
  {
    match t
    case Null => Some(p)
    case Obj(m) => ReadParams(m, p)
    case _ => None
  }

  // ---- merging ----

  /** typedToRaw */
  function Raw(p: Params): Object
  {
    map["baseline" := Obj(RawBaseline(p.baseline)), "factor" := Obj(RawCtrl(p.ctrl)),
      "guardrails" := Obj(RawGuard(p.guard)),
        "uu_max_days" := Num(p.uuMaxDays as real), "eco_max_days" := Num(p.ecoMaxDays as real)]
  }

  function RawBaseline(p: BaselineParams): Object
  {
    map["topn" := Num(p.topN as real), "k1" := Num(p.k1), "k2" := Num(p.k2), "k3" := Num(p.k3),
      "min_lease_ratio" := Num(p.minLeaseRatio)]
  }

  function RawCtrl(p: ControllerParams): Object
  {
    map["min" := Num(p.fMin), "max" := Num(p.fMax), "step_up" := Num(p.stepUp), "step_down" := Num(p.stepDown),
      "stale_days" := Num(p.staleDays as real)]
  }

  function RawGuard(p: Guardrails): Object
  {
    map["min_rent" := Num(p.minRent), "max_rent" := Num(p.maxRent), "max_change_ratio" := Num(p.maxChangeRatio),
        "noise_ratio" := Num(p.noiseRatio), "cooldown_minutes" := Num(p.cooldownMinutes as real),
        "deposit_floor_ratio" := Num(p.depositFloorRatio), "deposit_cap_ratio" := Num(p.depositCapRatio)]
  }

  /** One layer over a value: objects merge key by key, anything else replaces. */
  function MergeValue(base: Option<Json>, layer: Json): Json
    decreases layer
  {
    if layer.Obj? && base.Some? && base.value.Obj? then
      Obj(map k | k in base.value.m.Keys + layer.m.Keys ::
            if k in layer.m then MergeValue(if k in base.value.m then Some(base.value.m[k]) else None, layer.m[k])
              else base.value.m[k])
    else layer
  }

  function Merge(base: Object, layer: Object): Object
  {
    map k | k in base.Keys + layer.Keys ::
      if k in layer then MergeValue(if k in base then Some(base[k]) else None, layer[k]) else base[k]
  }

  lemma MergeStep(base: Object, layer: Object, k: string, v: Json)
    requires k !in layer
    ensures Merge(base, layer[k := v]) ==
            Merge(base, layer)[k := MergeValue(if k in base then Some(base[k]) else None, v)]
  {
  }

  lemma MergeObjects(a: Object, b: Object)
    ensures MergeValue(Some(Obj(a)), Obj(b)) == Obj(Merge(a, b))
  {
  }

  /** deepMerge over one layer, with its loop over the layer's keys. */
  method DeepMerge(base: Object, layer: Object) returns (out: Object)
    ensures out == Merge(base, layer)
    decreases Obj(layer)
  {
    out := base;
    var rest := layer.Keys;
    assert layer - rest == map[];
    while rest != {}
      invariant rest <= layer.Keys
      invariant out == Merge(base, layer - rest)
      decreases rest
    {
      var k :| k in rest;
      var v := layer[k];
      MergeStep(base, layer - rest, k, v);
      assert layer - (rest - {k}) == (layer - rest)[k := v];
      if v.Obj? && k in base && base[k].Obj? {
        assert Obj(layer).m[k] == v;
        MergeObjects(base[k].m, v.m);
        var inner := DeepMerge(base[k].m, v.m);
        out := out[k := Obj(inner)];
      } else {
        out := out[k := v];
      }
      rest := rest - {k};
    }
    assert layer - rest == layer;
  }

  function Fields(t: Json): Object { if t.Obj? then t.m else map[] }

  /**
   The template step: the typed parameters, the global document and the template document are merged
   and decoded again.
   */
  function Remerge(p: Params, global: Json, template: Json): Option<Params>
  {
    if !template.Obj? && template != Null then None
    else Unmarshal(Obj(Merge(Merge(Raw(p), Fields(global)), Fields(template))), p)
  }

  function ParseFrom(start: Params, global: Json, template: Option<Json>): Option<Params>
  {
    var p := Unmarshal(global, start);
    if p == None then None
    else
      var q := if template == None then p else Remerge(p.value, global, template.value);
      if q.Some? && Valid(q.value) then q else None
  }

  /** ParseParams; None is an error. A missing template is None. */
  function ParseParams(global: Json, template: Option<Json>): Option<Params>
  {
    ParseFrom(DefaultParams(), global, template)
  }

  // ---- the merge is a plain overlay ----

  /** What a field of the merged document reads as: the layer's reading over the old value. */
  lemma FieldReads(raw: Object, g: Object, o: Object, key: string, old': real)
    requires key in raw && raw[key] == Num(old') && (key in g ==> g[key] == Null || g[key] == Num(old'))
    ensures ReadReal(Merge(Merge(raw, g), o), key, old') == ReadReal(o, key, old')
  {
  }

  lemma IntReads(raw: Object, g: Object, o: Object, key: string, old': int)
    requires key in raw && raw[key] == Num(old' as real) && (key in g ==> g[key] == Null || g[key] == Num(old' as real))
    ensures ReadInt(Merge(Merge(raw, g), o), key, old') == ReadInt(o, key, old')
  {
  }

  /** Without the global layer's own object, the same holds: missing fields read as the old value. */
  lemma ReadFixesField(g: Object, key: string, start: real, old': real)
    requires ReadReal(g, key, start) == Some(old')
    ensures key in g ==> g[key] == Null || g[key] == Num(old')
  {
  }

  lemma ReadFixesInt(g: Object, key: string, start: int, old': int)
    requires ReadInt(g, key, start) == Some(old')
    ensures key in g ==> g[key] == Null || g[key] == Num(old' as real)
  {
  }

  lemma BaselineReads(g: Object, o: Object, start: BaselineParams, p: BaselineParams)
    requires ReadBaseline(g, start) == Some(p)
    ensures ReadBaseline(Merge(Merge(RawBaseline(p), g), o), p) == ReadBaseline(o, p)
  {
    var raw := RawBaseline(p);
    ReadFixesInt(g, "topn", start.topN, p.topN);
    IntReads(raw, g, o, "topn", p.topN);
    ReadFixesField(g, "k1", start.k1, p.k1);
    FieldReads(raw, g, o, "k1", p.k1);
    ReadFixesField(g, "k2", start.k2, p.k2);
    FieldReads(raw, g, o, "k2", p.k2);
    ReadFixesField(g, "k3", start.k3, p.k3);
    FieldReads(raw, g, o, "k3", p.k3);
    ReadFixesField(g, "min_lease_ratio", start.minLeaseRatio, p.minLeaseRatio);
    FieldReads(raw, g, o, "min_lease_ratio", p.minLeaseRatio);
  }

  lemma CtrlReads(g: Object, o: Object, start: ControllerParams, p: ControllerParams)
    requires ReadCtrl(g, start) == Some(p)
    ensures ReadCtrl(Merge(Merge(RawCtrl(p), g), o), p) == ReadCtrl(o, p)
  {
    var raw := RawCtrl(p);
    ReadFixesField(g, "min", start.fMin, p.fMin);
    FieldReads(raw, g, o, "min", p.fMin);
    ReadFixesField(g, "max", start.fMax, p.fMax);
    FieldReads(raw, g, o, "max", p.fMax);
    ReadFixesField(g, "step_up", start.stepUp, p.stepUp);
    FieldReads(raw, g, o, "step_up", p.stepUp);
    ReadFixesField(g, "step_down", start.stepDown, p.stepDown);
    FieldReads(raw, g, o, "step_down", p.stepDown);
    ReadFixesInt(g, "stale_days", start.staleDays, p.staleDays);
    IntReads(raw, g, o, "stale_days", p.staleDays);
  }

  lemma GuardReads(g: Object, o: Object, start: Guardrails, p: Guardrails)
    requires ReadGuard(g, start) == Some(p)
    ensures ReadGuard(Merge(Merge(RawGuard(p), g), o), p) == ReadGuard(o, p)
  {
    var raw := RawGuard(p);
    ReadFixesField(g, "min_rent", start.minRent, p.minRent);
    FieldReads(raw, g, o, "min_rent", p.minRent);
    ReadFixesField(g, "max_rent", start.maxRent, p.maxRent);
    FieldReads(raw, g, o, "max_rent", p.maxRent);
    ReadFixesField(g, "max_change_ratio", start.maxChangeRatio, p.maxChangeRatio);
    FieldReads(raw, g, o, "max_change_ratio", p.maxChangeRatio);
    ReadFixesField(g, "noise_ratio", start.noiseRatio, p.noiseRatio);
    FieldReads(raw, g, o, "noise_ratio", p.noiseRatio);
    ReadFixesInt(g, "cooldown_minutes", start.cooldownMinutes, p.cooldownMinutes);
    IntReads(raw, g, o, "cooldown_minutes", p.cooldownMinutes);
    ReadFixesField(g, "deposit_floor_ratio", start.depositFloorRatio, p.depositFloorRatio);
    FieldReads(raw, g, o, "deposit_floor_ratio", p.depositFloorRatio);
    ReadFixesField(g, "deposit_cap_ratio", start.depositCapRatio, p.depositCapRatio);
    FieldReads(raw, g, o, "deposit_cap_ratio", p.depositCapRatio);
  }

  predicate MergedSection(raw: Object, g: Object, o: Object, s: Object) { s == Merge(Merge(raw, g), o) || s == o }

  /**
   A section of the merged document: merged key by key over the global section, or the template's
   own section when the global one is null.
   */
  lemma SectionReads(raw: Object, g: Object, o: Object, key: string)
    requires key in raw && raw[key].Obj? && ReadSection(g, key).Some?
    ensures ReadSection(Merge(Merge(raw, g), o), key).Some? <==> ReadSection(o, key).Some?
    ensures ReadSection(o, key).Some? ==>
            MergedSection(raw[key].m, ReadSection(g, key).value, ReadSection(o, key).value,
              ReadSection(Merge(Merge(raw, g), o), key).value)
  {
    var inner := raw[key].m;
    assert Merge(inner, map[]) == inner;
    if key in g && g[key].Obj? {
      assert MergeValue(Some(raw[key]), g[key]) == Obj(Merge(inner, g[key].m));
    }
    var after := Merge(raw, g)[key];
    if after.Obj? {
      assert after.m == Merge(inner, ReadSection(g, key).value);
      assert Merge(after.m, map[]) == after.m;
      if key in o && o[key].Obj? {
        assert MergeValue(Some(after), o[key]) == Obj(Merge(after.m, o[key].m));
      }
    }
  }

  /** Defaults, then the global document, then the template document: each layer read over the one before. */
  function Overlay(start: Params, global: Json, template: Json): Option<Params>
  {
    var p := Unmarshal(global, start);
    if p == None then None else Unmarshal(template, p.value)
  }

  lemma RemergeIsUnmarshal(start: Params, global: Json, template: Json, p: Params)
    requires Unmarshal(global, start) == Some(p)
    ensures Remerge(p, global, template) == Unmarshal(template, p)
  {
    if template.Obj? || template == Null { MergedUnmarshal(global, template, start, p); }
  }

  /**
   ParseParams refines the plain overlay, nulls and type errors included: re-merging the typed
   parameters and the global layer under the template changes nothing.
   */
  lemma ParseIsOverlay(start: Params, global: Json, template: Json)
    ensures var q := Overlay(start, global, template);
            ParseFrom(start, global, Some(template)) == if q.Some? && !Misconfigured(q.value) then q else None
    ensures var q := Unmarshal(global, start);
            ParseFrom(start, global, None) == if q.Some? && !Misconfigured(q.value) then q else None
  {
    var p := Unmarshal(global, start);
    if p.Some? { RemergeIsUnmarshal(start, global, template, p.value); }
  }

  lemma FieldsRead(t: Json, p: Params)
    requires t.Obj? || t == Null
    ensures ReadParams(Fields(t), p) == Unmarshal(t, p)
  {
    if t == Null { EmptyReads(p); }
  }

  lemma MergedUnmarshal(global: Json, template: Json, start: Params, p: Params)
    requires Unmarshal(global, start) == Some(p) && (template.Obj? || template == Null)
    ensures Remerge(p, global, template) == Unmarshal(template, p)
  {
    FieldsRead(global, start);
    MergedReads(Fields(global), Fields(template), start, p);
    FieldsRead(template, p);
  }

  lemma EmptyReads(p: Params)
    ensures ReadParams(map[], p) == Some(p)
  {
  }

  lemma SectionOf(g: Object, start: Params, p: Params)
    requires ReadParams(g, start) == Some(p)
    ensures ReadSection(g, "baseline").Some? &&
            ReadBaseline(ReadSection(g, "baseline").value, start.baseline) == Some(p.baseline)
    ensures ReadSection(g, "factor").Some? && ReadCtrl(ReadSection(g, "factor").value, start.ctrl) == Some(p.ctrl)
    ensures ReadSection(g, "guardrails").Some? &&
            ReadGuard(ReadSection(g, "guardrails").value, start.guard) == Some(p.guard)
    ensures ReadInt(g, "uu_max_days", start.uuMaxDays) == Some(p.uuMaxDays) &&
            ReadInt(g, "eco_max_days", start.ecoMaxDays) == Some(p.ecoMaxDays)
  {
  }

  lemma BaselineSection(g: Object, o: Object, start: Params, p: Params)
    requires ReadParams(g, start) == Some(p)
    ensures var s := ReadSection(Merge(Merge(Raw(p), g), o), "baseline");
            && (s.Some? <==> ReadSection(o, "baseline").Some?)
            && (s.Some? ==>
                  ReadBaseline(s.value, p.baseline) == ReadBaseline(ReadSection(o, "baseline").value, p.baseline))
  {
    SectionOf(g, start, p);
    SectionReads(Raw(p), g, o, "baseline");
    if ReadSection(o, "baseline").Some? {
      BaselineReads(ReadSection(g, "baseline").value, ReadSection(o, "baseline").value, start.baseline, p.baseline);
    }
  }

  lemma CtrlSection(g: Object, o: Object, start: Params, p: Params)
    requires ReadParams(g, start) == Some(p)
    ensures var s := ReadSection(Merge(Merge(Raw(p), g), o), "factor");
            (s.Some? <==> ReadSection(o, "factor").Some?) &&
              (s.Some? ==> ReadCtrl(s.value, p.ctrl) == ReadCtrl(ReadSection(o, "factor").value, p.ctrl))
  {
    SectionOf(g, start, p);
    SectionReads(Raw(p), g, o, "factor");
    if ReadSection(o, "factor").Some? {
      CtrlReads(ReadSection(g, "factor").value, ReadSection(o, "factor").value, start.ctrl, p.ctrl);
    }
  }

  lemma GuardSection(g: Object, o: Object, start: Params, p: Params)
    requires ReadParams(g, start) == Some(p)
    ensures var s := ReadSection(Merge(Merge(Raw(p), g), o), "guardrails");
            (s.Some? <==> ReadSection(o, "guardrails").Some?) &&
              (s.Some? ==> ReadGuard(s.value, p.guard) == ReadGuard(ReadSection(o, "guardrails").value, p.guard))
  {
    SectionOf(g, start, p);
    SectionReads(Raw(p), g, o, "guardrails");
    if ReadSection(o, "guardrails").Some? {
      GuardReads(ReadSection(g, "guardrails").value, ReadSection(o, "guardrails").value, start.guard, p.guard);
    }
  }

  lemma DaysRead(g: Object, o: Object, start: Params, p: Params)
    requires ReadParams(g, start) == Some(p)
    ensures ReadInt(Merge(Merge(Raw(p), g), o), "uu_max_days", p.uuMaxDays) == ReadInt(o, "uu_max_days", p.uuMaxDays)
    ensures ReadInt(Merge(Merge(Raw(p), g), o), "eco_max_days", p.ecoMaxDays) ==
            ReadInt(o, "eco_max_days", p.ecoMaxDays)
  {
    SectionOf(g, start, p);
    ReadFixesInt(g, "uu_max_days", start.uuMaxDays, p.uuMaxDays);
    IntReads(Raw(p), g, o, "uu_max_days", p.uuMaxDays);
    ReadFixesInt(g, "eco_max_days", start.ecoMaxDays, p.ecoMaxDays);
    IntReads(Raw(p), g, o, "eco_max_days", p.ecoMaxDays);
  }

  lemma SameReadings(m: Object, o: Object, p: Params)
    requires ReadInt(m, "uu_max_days", p.uuMaxDays) == ReadInt(o, "uu_max_days", p.uuMaxDays)
    requires ReadInt(m, "eco_max_days", p.ecoMaxDays) == ReadInt(o, "eco_max_days", p.ecoMaxDays)
    requires var s, t := ReadSection(m, "baseline"), ReadSection(o, "baseline");
             (s.Some? <==> t.Some?) && (s.Some? ==>
               ReadBaseline(s.value, p.baseline) == ReadBaseline(t.value, p.baseline))
    requires var s, t := ReadSection(m, "factor"), ReadSection(o, "factor");
             (s.Some? <==> t.Some?) && (s.Some? ==> ReadCtrl(s.value, p.ctrl) == ReadCtrl(t.value, p.ctrl))
    requires var s, t := ReadSection(m, "guardrails"), ReadSection(o, "guardrails");
             (s.Some? <==> t.Some?) && (s.Some? ==> ReadGuard(s.value, p.guard) == ReadGuard(t.value, p.guard))
    ensures ReadParams(m, p) == ReadParams(o, p)
  {
  }

  lemma MergedReads(g: Object, o: Object, start: Params, p: Params)
    requires ReadParams(g, start) == Some(p)
    ensures ReadParams(Merge(Merge(Raw(p), g), o), p) == ReadParams(o, p)
  {
    BaselineSection(g, o, start, p);
    CtrlSection(g, o, start, p);
    GuardSection(g, o, start, p);
    DaysRead(g, o, start, p);
    SameReadings(Merge(Merge(Raw(p), g), o), o, p);
  }

  // ---- field by field ----

  /** The value a layered field takes: the upper document's number, else the lower one's, else the default. */
  function Picked(g: Object, o: Object, key: string, default_: real): real
  {
    if key in o && o[key].Num? then o[key].n else if key in g && g[key].Num? then g[key].n else default_
  }

  function PickedInt(g: Object, o: Object, key: string, default_: int): int
  {
    Picked(g, o, key, default_ as real).Floor
  }

  function PickedBaseline(g: Object, o: Object, p: BaselineParams): BaselineParams
  {
    BaselineParams(PickedInt(g, o, "topn", p.topN), Picked(g, o, "k1", p.k1), Picked(g, o, "k2", p.k2),
      Picked(g, o, "k3", p.k3),
      Picked(g, o, "min_lease_ratio", p.minLeaseRatio))
  }

  function PickedCtrl(g: Object, o: Object, p: ControllerParams): ControllerParams
  {
    ControllerParams(Picked(g, o, "min", p.fMin), Picked(g, o, "max", p.fMax), Picked(g, o, "step_up", p.stepUp),
      Picked(g, o, "step_down", p.stepDown), PickedInt(g, o, "stale_days", p.staleDays))
  }

  function PickedGuard(g: Object, o: Object, p: Guardrails): Guardrails
  {
    Guardrails(Picked(g, o, "min_rent", p.minRent), Picked(g, o, "max_rent", p.maxRent),
      Picked(g, o, "max_change_ratio", p.maxChangeRatio), Picked(g, o, "noise_ratio", p.noiseRatio),
      PickedInt(g, o, "cooldown_minutes", p.cooldownMinutes), Picked(g, o, "deposit_floor_ratio", p.depositFloorRatio),
      Picked(g, o, "deposit_cap_ratio", p.depositCapRatio))
  }

  function SectionFields(t: Json, section: string): Object
  {
    if section in Fields(t) then Fields(Fields(t)[section]) else map[]
  }

  function PickedParams(g: Json, o: Json, p: Params): Params
  {
    Params(
      PickedBaseline(SectionFields(g, "baseline"), SectionFields(o, "baseline"), p.baseline),
      PickedCtrl(SectionFields(g, "factor"), SectionFields(o, "factor"), p.ctrl),
      PickedGuard(SectionFields(g, "guardrails"), SectionFields(o, "guardrails"), p.guard),
      PickedInt(Fields(g), Fields(o), "uu_max_days", p.uuMaxDays),
      PickedInt(Fields(g), Fields(o), "eco_max_days", p.ecoMaxDays))
  }

  lemma RealLayered(g: Object, o: Object, key: string, a: real, b: real, c: real)
    requires ReadReal(g, key, a) == Some(b) && ReadReal(o, key, b) == Some(c)
    ensures c == Picked(g, o, key, a)
  {
  }

  lemma IntLayered(g: Object, o: Object, key: string, a: int, b: int, c: int)
    requires ReadInt(g, key, a) == Some(b) && ReadInt(o, key, b) == Some(c)
    ensures c == PickedInt(g, o, key, a)
  {
  }

  lemma BaselineLayered(g: Object, o: Object, a: BaselineParams, b: BaselineParams, c: BaselineParams)
    requires ReadBaseline(g, a) == Some(b) && ReadBaseline(o, b) == Some(c)
    ensures c == PickedBaseline(g, o, a)
  {
    IntLayered(g, o, "topn", a.topN, b.topN, c.topN);
    RealLayered(g, o, "k1", a.k1, b.k1, c.k1);
    RealLayered(g, o, "k2", a.k2, b.k2, c.k2);
    RealLayered(g, o, "k3", a.k3, b.k3, c.k3);
    RealLayered(g, o, "min_lease_ratio", a.minLeaseRatio, b.minLeaseRatio, c.minLeaseRatio);
  }

  lemma CtrlLayered(g: Object, o: Object, a: ControllerParams, b: ControllerParams, c: ControllerParams)
    requires ReadCtrl(g, a) == Some(b) && ReadCtrl(o, b) == Some(c)
    ensures c == PickedCtrl(g, o, a)
  {
    RealLayered(g, o, "min", a.fMin, b.fMin, c.fMin);
    RealLayered(g, o, "max", a.fMax, b.fMax, c.fMax);
    RealLayered(g, o, "step_up", a.stepUp, b.stepUp, c.stepUp);
    RealLayered(g, o, "step_down", a.stepDown, b.stepDown, c.stepDown);
    IntLayered(g, o, "stale_days", a.staleDays, b.staleDays, c.staleDays);
  }

  lemma GuardLayered(g: Object, o: Object, a: Guardrails, b: Guardrails, c: Guardrails)
    requires ReadGuard(g, a) == Some(b) && ReadGuard(o, b) == Some(c)
    ensures c == PickedGuard(g, o, a)
  {
    RealLayered(g, o, "min_rent", a.minRent, b.minRent, c.minRent);
    RealLayered(g, o, "max_rent", a.maxRent, b.maxRent, c.maxRent);
    RealLayered(g, o, "max_change_ratio", a.maxChangeRatio, b.maxChangeRatio, c.maxChangeRatio);
    RealLayered(g, o, "noise_ratio", a.noiseRatio, b.noiseRatio, c.noiseRatio);
    IntLayered(g, o, "cooldown_minutes", a.cooldownMinutes, b.cooldownMinutes, c.cooldownMinutes);
    RealLayered(g, o, "deposit_floor_ratio", a.depositFloorRatio, b.depositFloorRatio, c.depositFloorRatio);
    RealLayered(g, o, "deposit_cap_ratio", a.depositCapRatio, b.depositCapRatio, c.depositCapRatio);
  }

  lemma SectionIsFields(t: Json, key: string)
    requires t.Obj? || t == Null
    requires ReadSection(Fields(t), key).Some?
    ensures ReadSection(Fields(t), key).value == SectionFields(t, key)
  {
  }

  lemma LayerReads(t: Json, p: Params, q: Params)
    requires Unmarshal(t, p) == Some(q)
    ensures ReadGuard(SectionFields(t, "guardrails"), p.guard) == Some(q.guard)
    ensures ReadCtrl(SectionFields(t, "factor"), p.ctrl) == Some(q.ctrl)
    ensures ReadBaseline(SectionFields(t, "baseline"), p.baseline) == Some(q.baseline)
    ensures ReadInt(Fields(t), "uu_max_days", p.uuMaxDays) == Some(q.uuMaxDays)
    ensures ReadInt(Fields(t), "eco_max_days", p.ecoMaxDays) == Some(q.ecoMaxDays)
  {
    FieldsRead(t, p);
    SectionOf(Fields(t), p, q);
    SectionIsFields(t, "guardrails");
    SectionIsFields(t, "factor");
    SectionIsFields(t, "baseline");
  }

  lemma OverlayIsPicked(a: Params, g: Json, o: Json, b: Params, c: Params)
    requires Unmarshal(g, a) == Some(b) && Unmarshal(o, b) == Some(c)
    ensures c == PickedParams(g, o, a)
  {
    LayerReads(g, a, b);
    LayerReads(o, b, c);
    BaselineLayered(SectionFields(g, "baseline"), SectionFields(o, "baseline"), a.baseline, b.baseline, c.baseline);
    CtrlLayered(SectionFields(g, "factor"), SectionFields(o, "factor"), a.ctrl, b.ctrl, c.ctrl);
    GuardLayered(SectionFields(g, "guardrails"), SectionFields(o, "guardrails"), a.guard, b.guard, c.guard);
    IntLayered(Fields(g), Fields(o), "uu_max_days", a.uuMaxDays, b.uuMaxDays, c.uuMaxDays);
    IntLayered(Fields(g), Fields(o), "eco_max_days", a.ecoMaxDays, b.ecoMaxDays, c.ecoMaxDays);
  }

  /** Template fields override global fields, which override defaults, in every field of the parsed parameters. */
  lemma TemplateOverridesGlobal(start: Params, global: Json, template: Json)
    requires ParseFrom(start, global, Some(template)).Some?
    ensures ParseFrom(start, global, Some(template)).value == PickedParams(global, template, start)
  {
    ParseIsOverlay(start, global, template);
    var p := Unmarshal(global, start).value;
    OverlayIsPicked(start, global, template, p, Unmarshal(template, p).value);
  }

  // ---- checked edits ----

  datatype Template = Template(params: Json, route: string, live: bool, enabled: bool)

  datatype Strategies = Strategies(globalId: int, global: Json, route: string, live: bool,
    templates: map<string, Template>)

  datatype Patch = Patch(params: Option<Json>, route: Option<string>, live: Option<bool>)

  datatype EditError = NotFound | InvalidParams | InvalidRoute

  const VALID_ROUTES := {"uu_only", "eco_only", "both", "uu_primary_eco_fallback"}

  /** validateGlobalStrategyParams: the global document alone and with every enabled template. */
  predicate GlobalIsValid(global: Json, templates: map<string, Template>)
  {
    && ParseParams(global, None).Some?
    && forall h | h in templates && templates[h].enabled :: ParseParams(global, Some(templates[h].params)).Some?
  }

  /** handleStrategyUpdateGlobal: parameters and enabling are validated, a mere disabling or re-routing is not. */
  predicate NeedsValidation(p: Patch) { p.params.Some? || p.live == Some(true) }

  function UpdateGlobal(s: Strategies, id: int, p: Patch): Result<Strategies, EditError>
  {
    var global := if p.params.Some? then p.params.value else s.global;
    if p.route.Some? && p.route.value !in VALID_ROUTES then Err(InvalidRoute)
    else if p.params.Some? && ParseParams(p.params.value, None) == None then Err(InvalidParams)
    else if id != s.globalId then Err(NotFound)
    else if NeedsValidation(p) && !GlobalIsValid(global, s.templates) then Err(InvalidParams)
    else
      Ok(s.(global := global,
            route := if p.route.Some? then p.route.value else s.route,
            live := if p.live.Some? then p.live.value else s.live))
  }

  function UpsertTemplate(s: Strategies, hash: string, route: string, params: Json,
      live: Option<bool>): Result<Strategies, EditError>
  {
    if route !in VALID_ROUTES then Err(InvalidRoute)
    else if ParseParams(s.global, Some(params)) == None then Err(InvalidParams)
    else
      var kept := if live.Some? then live.value else if hash in s.templates then s.templates[hash].live else false;
      Ok(s.(templates := s.templates[hash := Template(params, route, kept, true)]))
  }

  function DeleteTemplate(s: Strategies, hash: string): Result<Strategies, EditError>
  {
    if hash !in s.templates then Err(NotFound) else Ok(s.(templates := s.templates - {hash}))
  }

  class StrategyStore {
    var globalId: int
    var global: Json
    var route: string
    var live: bool
    var templates: map<string, Template>

    /** EnsureGlobalStrategy with an empty object. */
    constructor (id: int)
      ensures State() == Strategies(id, Obj(map[]), "both", false, map[])
    {
      globalId, global, route, live, templates := id, Obj(map[]), "both", false, map[];
    }

    ghost function State(): Strategies
      reads this
    {
      Strategies(globalId, global, route, live, templates)
    }

    /** The validator's loop over the locked templates. */
    method ValidateGlobal(candidate: Json) returns (ok: bool)
      ensures ok == GlobalIsValid(candidate, templates)
    {
      if ParseParams(candidate, None) == None { return false; }
      var rest := templates.Keys;
      while rest != {}
        invariant rest <= templates.Keys
        invariant forall h | h in templates && h !in rest && templates[h].enabled ::
                  ParseParams(candidate, Some(templates[h].params)).Some?
        decreases rest
      {
        var h :| h in rest;
        if templates[h].enabled && ParseParams(candidate, Some(templates[h].params)) == None { return false; }
        rest := rest - {h};
      }
      ok := true;
    }

    method UpdateGlobalChecked(id: int, p: Patch) returns (error: Option<EditError>)
      modifies this
      ensures globalId == old(globalId) && templates == old(templates)
      ensures error.Some? ==> State() == old(State())
      ensures error == None ==>
                && global == (if p.params == None then old(global) else p.params.value)
                && route == (if p.route == None then old(route) else p.route.value)
                && live == (if p.live == None then old(live) else p.live.value)
      ensures error == Some(InvalidRoute) <==>
                p.route.Some? && p.route.value !in ["uu_only", "eco_only", "both", "uu_primary_eco_fallback"]
      ensures error == Some(NotFound) ==> id != globalId
      ensures error == None ==> id == globalId
      ensures error == Some(InvalidParams) ==>
                || (p.params.Some? && ParseParams(p.params.value, None) == None)
                || ((p.params.Some? || p.live == Some(true)) &&
                    !GlobalIsValid(if p.params.Some? then p.params.value else old(global), templates))
      ensures var r := UpdateGlobal(old(State()), id, p);
              State() == (if r.Ok? then r.value else old(State())) && error == if r.Ok? then None else Some(r.error)
    {
      if p.route.Some? && p.route.value !in VALID_ROUTES { return Some(InvalidRoute); }
      if p.params.Some? && ParseParams(p.params.value, None) == None { return Some(InvalidParams); }
      if id != globalId { return Some(NotFound); }
      var candidate := if p.params.Some? then p.params.value else global;
      if p.params.Some? || p.live == Some(true) {
        var ok := ValidateGlobal(candidate);
        if !ok { return Some(InvalidParams); }
      }
      global := candidate;
      if p.route.Some? { route := p.route.value; }
      if p.live.Some? { live := p.live.value; }
      error := None;
    }

    method UpsertTemplateChecked(hash: string, route': string, params: Json, live': Option<bool>)
        returns (error: Option<EditError>)
      modifies this`templates
      ensures error.Some? ==> templates == old(templates)
      ensures error == None ==>
                && hash in templates && templates == old(templates)[hash := templates[hash]]
                && var t := templates[hash];
                   && t.params == params && t.route == route' && t.enabled
                   && (live'.Some? ==> t.live == live'.value)
                   && (live' == None ==> (t.live <==> hash in old(templates) && old(templates)[hash].live))
      ensures error == Some(InvalidRoute) <==> route' !in ["uu_only", "eco_only", "both", "uu_primary_eco_fallback"]
      ensures error == None ==> ParseParams(global, Some(params)).Some?
      ensures var r := UpsertTemplate(old(State()), hash, route', params, live');
              State() == (if r.Ok? then r.value else old(State())) && error == if r.Ok? then None else Some(r.error)
    {
      if route' !in VALID_ROUTES { return Some(InvalidRoute); }
      if ParseParams(global, Some(params)) == None { return Some(InvalidParams); }
      var kept := if live'.Some? then live'.value else if hash in templates then templates[hash].live else false;
      templates := templates[hash := Template(params, route', kept, true)];
      error := None;
    }

    /** Removing a template needs no validation. */
    method RemoveTemplateStrategy(hash: string) returns (error: Option<EditError>)
      modifies this`templates
      ensures error == None <==> hash in old(templates)
      ensures error.Some? ==> error == Some(NotFound) && templates == old(templates)
      ensures hash !in templates && forall h | h != hash ::
                (h in templates <==> h in old(templates)) && (h in templates ==> templates[h] == old(templates)[h])
      ensures var r := DeleteTemplate(old(State()), hash);
              State() == (if r.Ok? then r.value else old(State())) && error == if r.Ok? then None else Some(r.error)
    {
      if hash !in templates { return Some(NotFound); }
      templates := templates - {hash};
      error := None;
    }
  }

  /** The ranges that parameters are refused for. */
  predicate Misconfigured(p: Params)
  {
    || p.ctrl.fMin > p.ctrl.fMax
    || p.guard.maxChangeRatio < 0.0 || p.guard.noiseRatio < 0.0
    || p.guard.minRent < 0.0 || p.guard.maxRent < 0.0 || p.guard.minRent > p.guard.maxRent
    || p.guard.depositFloorRatio < 0.0 || p.guard.depositCapRatio < 0.0
  }

  datatype Edit =
    | EditGlobal(id: int, patch: Patch)
    | EditTemplate(hash: string, route: string, params: Json, live: Option<bool>)
    | RemoveTemplate(hash: string)

  function EditResult(s: Strategies, e: Edit): Result<Strategies, EditError>
  {
    match e
    case EditGlobal(id, patch) => UpdateGlobal(s, id, patch)
    case EditTemplate(hash, route, params, live) => UpsertTemplate(s, hash, route, params, live)
    case RemoveTemplate(hash) => DeleteTemplate(s, hash)
  }

  function Edited(s: Strategies, es: seq<Edit>): Strategies
  {
    if es == [] then s
    else
      var t := Edited(s, es[..|es| - 1]);
      var r := EditResult(t, es[|es| - 1]);
      if r.Ok? then r.value else t
  }

  /** A store without parameters runs on these. */
  lemma DefaultsAreValid()
    ensures ParseParams(Obj(map[]), None) == Some(Params(
              BaselineParams(15, 0.97, 0.95, 0.98, 0.0), ControllerParams(0.85, 1.25, 0.03, 0.05, 7),
              Guardrails(0.5, 20000.0, 0.15, 0.02, 30, 0.3, 2.0), 60, 30))
    ensures ParseParams(Obj(map[]), None) == Some(DefaultParams()) && Valid(DefaultParams())
  {
    EmptyReads(DefaultParams());
  }

  /** Every state reachable by checked edits parses and validates, alone and with each enabled template. */
  lemma {:induction false} EditsStayValid(s: Strategies, es: seq<Edit>)
    requires GlobalIsValid(s.global, s.templates)
    ensures GlobalIsValid(Edited(s, es).global, Edited(s, es).templates)
  {
    if es != [] {
      EditsStayValid(s, es[..|es| - 1]);
      assert EditKeepsValid(Edited(s, es[..|es| - 1]), es[|es| - 1]) by {
        EditStep(Edited(s, es[..|es| - 1]), es[|es| - 1]);
      }
    }
  }

  ghost predicate EditKeepsValid(t: Strategies, e: Edit)
  {
    EditResult(t, e).Ok? ==> GlobalIsValid(EditResult(t, e).value.global, EditResult(t, e).value.templates)
  }

  lemma EditStep(t: Strategies, e: Edit)
    requires GlobalIsValid(t.global, t.templates)
    ensures EditKeepsValid(t, e)
  {
  }

  lemma FreshStoreStaysValid(id: int, es: seq<Edit>)
    ensures var s := Edited(Strategies(id, Obj(map[]), "both", false, map[]), es); GlobalIsValid(s.global, s.templates)
  {
    DefaultsAreValid();
    EditsStayValid(Strategies(id, Obj(map[]), "both", false, map[]), es);
  }

  /**
   Whatever was stored before, an accepted global edit that stores parameters or switches execution on
   leaves the global document valid, alone and with every enabled template; only other edits go unchecked.
   */
  lemma AcceptedGlobalEditIsValid(s: Strategies, id: int, p: Patch)
    requires UpdateGlobal(s, id, p).Ok?
    ensures NeedsValidation(p) ==> GlobalIsValid(UpdateGlobal(s, id, p).value.global, s.templates)
    ensures var t := UpdateGlobal(s, id, p).value; t.global != s.global || (t.live && !s.live) ==> NeedsValidation(p)
  {
  }

  /** The global document alone and every enabled template but one. */
  ghost predicate RestIsValid(s: Strategies, hash: string)
  {
    && ParseParams(s.global, None).Some?
    && forall h | h in s.templates && h != hash && s.templates[h].enabled ::
      ParseParams(s.global, Some(s.templates[h].params)).Some?
  }

  /**
   An accepted template edit vouches for its own template only: the whole is valid afterwards exactly
   if the rest was.
   */
  lemma AcceptedTemplateEditIsValidIff(s: Strategies, hash: string, route: string, params: Json, live: Option<bool>)
    requires UpsertTemplate(s, hash, route, params, live).Ok?
    ensures var t := UpsertTemplate(s, hash, route, params, live).value;
            GlobalIsValid(t.global, t.templates) <==> RestIsValid(s, hash)
  {
    var t := UpsertTemplate(s, hash, route, params, live).value;
    if GlobalIsValid(t.global, t.templates) {
      forall h | h in s.templates && h != hash && s.templates[h].enabled
        ensures ParseParams(s.global, Some(s.templates[h].params)).Some?
      {
        assert h in t.templates && t.templates[h] == s.templates[h];
      }
    }
  }

  /** An accepted template edit leaves any other enabled template that does not validate where it is. */
  lemma InvalidRestSurvives(s: Strategies, hash: string, route: string, params: Json, live: Option<bool>, other: string)
    requires UpsertTemplate(s, hash, route, params, live).Ok? && other != hash && other in s.templates
    requires s.templates[other].enabled && ParseParams(s.global, Some(s.templates[other].params)) == None
    ensures var t := UpsertTemplate(s, hash, route, params, live).value; !GlobalIsValid(t.global, t.templates)
  {
    var t := UpsertTemplate(s, hash, route, params, live).value;
    assert other in t.templates && t.templates[other] == s.templates[other];
  }

  lemma TextIsNoTemplate(global: Json, text: string)
    ensures ParseParams(global, Some(Text(text))) == None
  {
  }

  lemma EmptyEditIsAccepted(s: Strategies, hash: string)
    requires s.global == Obj(map[])
    ensures var r := UpsertTemplate(s, hash, "both", Obj(map[]), Some(true));
            r.Ok? && hash in r.value.templates && r.value.templates[hash].live
  {
    EmptyOverlay();
  }

  /** Next to an invalid legacy template another one can be stored and made live. */
  lemma LegacyTemplateSurvivesTemplateEdit()
    ensures var bad := Template(Text("x"), "both", false, true);
            var s := Strategies(1, Obj(map[]), "both", false, map["a" := bad]);
            var r := UpsertTemplate(s, "b", "both", Obj(map[]), Some(true));
            r.Ok? && r.value.templates["b"].live && !GlobalIsValid(r.value.global, r.value.templates)
  {
    var s := Strategies(1, Obj(map[]), "both", false, map["a" := Template(Text("x"), "both", false, true)]);
    EmptyEditIsAccepted(s, "b");
    TextIsNoTemplate(s.global, "x");
    InvalidRestSurvives(s, "b", "both", Obj(map[]), Some(true), "a");
  }

  lemma EmptyOverlay()
    ensures ParseParams(Obj(map[]), Some(Obj(map[]))).Some?
  {
    DefaultsAreValid();
    ParseIsOverlay(DefaultParams(), Obj(map[]), Obj(map[]));
  }
}
