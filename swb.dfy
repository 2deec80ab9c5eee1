/** WFD/swb_import.py: the bot for surface water bodies (SWB). Each record
    of a report becomes labels, descriptions and claims on the item with the
    same EU code, or on a new item when new items may be created. */
module Swb {
  import opened Wrappers
  import opened Text
  import opened Py
  import opened Wikidata
  import opened Validation
  import opened Commit
  import opened Preview
  import opened Driver
  import opened Base

  /** `eu_swb_p`: the EU code of a surface water body (eu_cd). */
  const SwbProp := "P2856"

  // ---------------------------------------------------------------------
  // make_labels

  /** `make_labels(data)` as written: the English label is the bare name. */
  function MakeLabelsAsWritten(data: Dict<PyVal>, badNames: set<string>): Res<Dict<PyVal>> {
    var name :- UsableName(data, "surfaceWaterBodyName", badNames);
    if name.Some? then Ok([("en", PyStr(name.value))]) else Ok([])
  }

  /** `make_labels(data)` with the name in a one-element list, the shape the
      RBD bot builds and `PreviewItem.format_labels` reads: an English label
      exactly when the name is non-empty and not a placeholder. */
  function MakeLabels(data: Dict<PyVal>, badNames: set<string>): (r: Res<Dict<PyVal>>)
    ensures r.Ok? <==> UsableName(data, "surfaceWaterBodyName", badNames).Ok?
    ensures r.Ok? && r.value != [] <==>
              var name := Field(data, "surfaceWaterBodyName");
              name.PyStr? && name.s != [] && Lower(name.s) !in badNames
    ensures r.Ok? && r.value != [] ==> r.value == [("en", PyList([Field(data, "surfaceWaterBodyName")]))]
  {
    var name :- UsableName(data, "surfaceWaterBodyName", badNames);
    if name.Some? then Ok([("en", PyList([PyStr(name.value)]))]) else Ok([])
  }

  /** The bare-string label commits like the list, but its preview cannot
      be rendered; the list renders as the name in italics. */
  lemma BareLabelBreaksPreview(data: Dict<PyVal>, badNames: set<string>, item: Entity)
    requires UsableName(data, "surfaceWaterBodyName", badNames).Ok?
    requires UsableName(data, "surfaceWaterBodyName", badNames).value.Some?
    ensures LabelsText(MakeLabelsAsWritten(data, badNames).value).Err?
    ensures LabelsText(MakeLabels(data, badNames).value)
         == Ok("* " + Bold("en") + ": " + Italics(Field(data, "surfaceWaterBodyName").s) + "\n")
    ensures LabelActions(MakeLabelsAsWritten(data, badNames).value, item, false)
         == LabelActions(MakeLabels(data, badNames).value, item, false)
  {
    var name := Field(data, "surfaceWaterBodyName").s;
    var bare := MakeLabelsAsWritten(data, badNames).value;
    assert bare == [("en", PyStr(name))];
    assert bare[..0] == [];
    assert LabelsText(bare) == LabelStep(Ok(""), bare[0]);
    LabelsTextOneLanguage("en", name, []);
    assert [PyStr(name)] + PyStrs([]) == [PyStr(name)];
    assert MakeLabels(data, badNames).value[..0] == [];
  }

  // ---------------------------------------------------------------------
  // make_significant_impact_type

  /** The statement for one reported impact: the text before " - " is
      looked up; a mapped Q-id gives an item statement, any other mapped
      value a special one (novalue/somevalue). */
  function ImpactStatement(impactTypes: PyVal, impact: PyVal, year: string): (r: Res<Statement>)
    ensures r.Ok? ==> r.value.quals == [Qualifier("P585", PlainValue(PyStr(year)))] && r.value.ref.None?
  {
    if !impact.PyStr? then Err(TypeFault("'" + TypeName(impact) + "' object has no attribute 'split'"))
    else
      var q :- DictGet(impactTypes, PyStr(BeforeFirst(impact.s, " - ")));
      if !q.PyStr? then Err(TypeFault("'" + TypeName(q) + "' object has no attribute 'startswith'"))
      else if StartsWith(q.s, "Q") then Ok(YearStatement(ItemValue(q.s), year))
      else Ok(YearStatement(SpecialValue(q.s), year))
  }

  /** An impact is claimed as the value its text before " - " maps to: an
      item when that value is a Q-id, a special value otherwise. */
  lemma ImpactStatementLookup(impactTypes: PyVal, impact: PyVal, year: string)
    requires ImpactStatement(impactTypes, impact, year).Ok?
    ensures impact.PyStr? && impactTypes.PyDict?
    ensures var q := Field(impactTypes.entries, BeforeFirst(impact.s, " - "));
            var itis := ImpactStatement(impactTypes, impact, year).value.itis;
            q.PyStr? &&
            (StartsWith(q.s, "Q") ==> itis == ItemValue(q.s)) &&
            (!StartsWith(q.s, "Q") ==> itis == SpecialValue(q.s))
  {
  }

  /** The statement of each impact. */
  function ImpactStatementOf(impactTypes: PyVal, year: string): PyVal -> Res<Statement> {
    impact => ImpactStatement(impactTypes, impact, year)
  }

  /** The statements of the listed impacts, in order. */
  function ImpactStatements(impactTypes: PyVal, impacts: seq<PyVal>, year: string): Res<seq<Statement>> {
    MapAll(impacts, ImpactStatementOf(impactTypes, year))
  }

  /** One statement per impact, each the statement of that impact. */
  lemma ImpactStatementsEach(impactTypes: PyVal, impacts: seq<PyVal>, year: string)
    ensures ImpactStatements(impactTypes, impacts, year).Ok? <==>
              forall i :: 0 <= i < |impacts| ==> ImpactStatement(impactTypes, impacts[i], year).Ok?
    ensures ImpactStatements(impactTypes, impacts, year).Ok? ==>
              var sts := ImpactStatements(impactTypes, impacts, year).value;
              |sts| == |impacts| &&
              forall i :: 0 <= i < |impacts| ==> sts[i] == ImpactStatement(impactTypes, impacts[i], year).value
  {
    MapAllEach(impacts, ImpactStatementOf(impactTypes, year));
  }

  /** The impacts a record lists: one, several, or none. */
  function Impacts(data: Dict<PyVal>): seq<PyVal> {
    Listify(Field(data, "swSignificantImpactType"))
  }

  /** `make_significant_impact_type(data)`: the statements of the impacts,
      or a single `novalue` statement when there are none. */
  function SignificantImpactType(impactTypes: PyVal, data: Dict<PyVal>, year: string): Res<seq<Statement>> {
    var claims :- ImpactStatements(impactTypes, Impacts(data), year);
    if claims == [] then Ok([YearStatement(SpecialValue("novalue"), year)]) else Ok(claims)
  }

  /** One statement per listed impact, or exactly the `novalue` statement;
      every statement is dated by the report year. */
  lemma SignificantImpactTypeShape(impactTypes: PyVal, data: Dict<PyVal>, year: string)
    requires SignificantImpactType(impactTypes, data, year).Ok?
    ensures var sts := SignificantImpactType(impactTypes, data, year).value;
            |sts| == (if Impacts(data) == [] then 1 else |Impacts(data)|) &&
            (Impacts(data) == [] ==> sts == [YearStatement(SpecialValue("novalue"), year)]) &&
            (forall i :: 0 <= i < |Impacts(data)| ==>
               ImpactStatement(impactTypes, Impacts(data)[i], year).Ok? &&
               sts[i] == ImpactStatement(impactTypes, Impacts(data)[i], year).value) &&
            forall st :: st in sts ==> st.quals == [Qualifier("P585", PlainValue(PyStr(year)))]
  {
    var impacts := Impacts(data);
    ImpactStatementsEach(impactTypes, impacts, year);
    var sts := SignificantImpactType(impactTypes, data, year).value;
    forall st | st in sts ensures st.quals == [Qualifier("P585", PlainValue(PyStr(year)))] {
      if impacts != [] {
        var i :| 0 <= i < |sts| && sts[i] == st;
        assert ImpactStatement(impactTypes, impacts[i], year).Ok?;
      }
    }
  }

  // ---------------------------------------------------------------------
  // make_general_ecological_status

  const StatusField := "swEcologicalStatusOrPotentialValue"

  /** `make_general_ecological_status(data)`: a mapped status gives its
      item; otherwise "Unknown" gives `somevalue`, "Not applicable" gives no
      claim, and any other value stops the bot. The claim is dated by the
      report year. */
  function EcologicalStatus(mappings: Dict<PyVal>, data: Dict<PyVal>, year: string): (r: Res<Protoclaim>)
    ensures r.Ok? && r.value.One? ==>
              r.value.statement.quals == [Qualifier("P585", PlainValue(PyStr(year)))]
    ensures Field(mappings, StatusField).PyDict? && Field(data, StatusField).PyStr? ==>
              var mapped := Field(Field(mappings, StatusField).entries, Field(data, StatusField).s);
              var raw := Field(data, StatusField).s;
              (mapped.PyStr? && mapped.s != [] ==> r == Ok(One(YearStatement(ItemValue(ItemId(mapped.s)), year)))) &&
              (!Truthy(mapped) && raw == "Unknown" ==> r == Ok(One(YearStatement(SpecialValue("somevalue"), year)))) &&
              (!Truthy(mapped) && raw == "Not applicable" ==> r == Ok(NoClaim)) &&
              (!Truthy(mapped) && raw != "Unknown" && raw != "Not applicable" ==> r == Err(UnexpectedValue(StatusField, raw)))
  {
    var raw := Field(data, StatusField);
    var mapped :- DictGet(Field(mappings, StatusField), raw);
    if Truthy(mapped) then
      var q :- ItemOf(mapped, "QtoItemPage");
      Ok(One(YearStatement(ItemValue(q), year)))
    else if raw == PyStr("Unknown") then Ok(One(YearStatement(SpecialValue("somevalue"), year)))
    else if raw == PyStr("Not applicable") then Ok(NoClaim)
    else Err(UnexpectedValue(StatusField, Str(raw)))
  }

  // ---------------------------------------------------------------------
  // make_protoclaims

  /** The values of the bot a record is processed with. */
  datatype SwbConfig = SwbConfig(
    mappings: Dict<PyVal>, year: string, langs: seq<string>, badNames: set<string>,
    demo: bool, createNew: bool, cutoff: Option<int>,
    swbItems: Dict<string>, swbCats: PyVal, impactTypes: PyVal,
    countryDict: Option<PyVal>, country: Option<string>, rbd: Option<string>,
    descriptions: PyVal, ref: Option<Reference>)

  /** `make_protoclaims(data)`: category (P31), EU code (P2856), country
      (P17), river basin district (P361), impacts (P3643) and ecological
      status (P4002). */
  function SwbProtoclaims(cfg: SwbConfig, data: Dict<PyVal>): Res<Dict<Protoclaim>> {
    var cat :- DictGet(cfg.swbCats, Field(data, "surfaceWaterBodyCategory"));
    var catQ :- ItemOf(cat, "QtoItemPage");
    if cfg.country.None? then Err(TypeFault("'SwbBot' object has no attribute 'country'"))
    else if cfg.rbd.None? then Err(TypeFault("'SwbBot' object has no attribute 'rbd'"))
    else
      var impacts :- SignificantImpactType(cfg.impactTypes, data, cfg.year);
      var status :- EcologicalStatus(cfg.mappings, data, cfg.year);
      Ok([("P31", One(Plain(ItemValue(catQ)))),
          (SwbProp, One(Plain(PlainValue(Field(data, "euSurfaceWaterBodyCode"))))),
          ("P17", One(Plain(ItemValue(cfg.country.value)))),
          ("P361", One(Plain(ItemValue(cfg.rbd.value)))),
          ("P3643", Many(impacts)),
          ("P4002", status)])
  }

  /** The protoclaims have exactly the six properties, in this order, with
      the record's code verbatim, the bot's country and district, and the
      impact and status claims. */
  lemma SwbProtoclaimsShape(cfg: SwbConfig, data: Dict<PyVal>)
    requires SwbProtoclaims(cfg, data).Ok?
    ensures var pcs := SwbProtoclaims(cfg, data).value;
            |pcs| == 6 &&
            pcs[0].0 == "P31" && pcs[1].0 == SwbProp && pcs[2].0 == "P17" &&
            pcs[3].0 == "P361" && pcs[4].0 == "P3643" && pcs[5].0 == "P4002" &&
            pcs[1].1 == One(Plain(PlainValue(Field(data, "euSurfaceWaterBodyCode")))) &&
            cfg.country.Some? && pcs[2].1 == One(Plain(ItemValue(cfg.country.value))) &&
            cfg.rbd.Some? && pcs[3].1 == One(Plain(ItemValue(cfg.rbd.value))) &&
            pcs[4].1 == Many(SignificantImpactType(cfg.impactTypes, data, cfg.year).value) &&
            pcs[5].1 == EcologicalStatus(cfg.mappings, data, cfg.year).value
  {
    var cat := DictGet(cfg.swbCats, Field(data, "surfaceWaterBodyCategory"));
    assert cat.Ok? && ItemOf(cat.value, "QtoItemPage").Ok?;
    assert SignificantImpactType(cfg.impactTypes, data, cfg.year).Ok?;
    assert EcologicalStatus(cfg.mappings, data, cfg.year).Ok?;
  }

  // ---------------------------------------------------------------------
  // process_single_swb

  /** The identifier claim of a new item: the record's EU code. */
  function IdClaim(data: Dict<PyVal>): Claim {
    Claim(SwbProp, PlainValue(Field(data, "euSurfaceWaterBodyCode")))
  }

  /** Labels, descriptions and protoclaims of a record. */
  function SwbRecord(cfg: SwbConfig, data: Dict<PyVal>): Res<(Dict<PyVal>, Dict<PyVal>, Dict<Protoclaim>)> {
    var labels :- MakeLabels(data, cfg.badNames);
    var descriptions :- Descriptions(cfg.descriptions, cfg.countryDict, cfg.langs);
    var protoclaims :- SwbProtoclaims(cfg, data);
    Ok((labels, descriptions, protoclaims))
  }

  /** `create_new_swb_item(data)`: the creation call, and the new item. */
  function NewSwbItem(cfg: SwbConfig, data: Dict<PyVal>): Res<(Action, Entity)> {
    var labels :- MakeLabels(data, cfg.badNames);
    var descriptions :- Descriptions(cfg.descriptions, cfg.countryDict, cfg.langs);
    Ok((CreateItem(labels, descriptions, IdClaim(data)), Created(IdClaim(data))))
  }

  /** Writing a record to `item`. */
  function WriteSwb(cfg: SwbConfig, data: Dict<PyVal>, item: Entity): Res<seq<Action>> {
    var record :- SwbRecord(cfg, data);
    CommitActions(record.0, record.1, record.2, item, cfg.ref)
  }

  /** `process_single_swb(data, item)`: in demo mode a preview, otherwise
      the writes to the item, created first when there is none. */
  function SwbEffect(cfg: SwbConfig, entry: PyVal, item: Option<Entity>): Res<Effect> {
    if !entry.PyDict? then Err(TypeFault("'" + TypeName(entry) + "' object has no attribute 'get'"))
    else if cfg.demo then
      var record :- SwbRecord(cfg, entry.entries);
      var preview :- NewPreviewItem(record.0, record.1, record.2, PreviewQid(item), cfg.ref);
      Ok(Effect([], [preview]))
    else if item.None? then
      var made :- NewSwbItem(cfg, entry.entries);
      var writes :- WriteSwb(cfg, entry.entries, made.1);
      Ok(Effect([made.0] + writes, []))
    else
      var writes :- WriteSwb(cfg, entry.entries, item.value);
      Ok(Effect(writes, []))
  }

  /** `process_single_swb` as written: `create_new_swb_item` returns None,
      so `item.exists()` fails right after the item is created. */
  function SwbEffectAsWritten(cfg: SwbConfig, entry: PyVal, item: Option<Entity>): Res<Effect> {
    if !cfg.demo && item.None? && entry.PyDict? then
      var made :- NewSwbItem(cfg, entry.entries);
      Err(TypeFault("'NoneType' object has no attribute 'exists'"))
    else SwbEffect(cfg, entry, item)
  }

  /** As written, a record without an item is never written: the item is
      created and the bot stops. */
  lemma NewSwbItemLost(cfg: SwbConfig, data: Dict<PyVal>)
    requires !cfg.demo && NewSwbItem(cfg, data).Ok?
    ensures SwbEffectAsWritten(cfg, PyDict(data), None)
         == Err(TypeFault("'NoneType' object has no attribute 'exists'"))
  {
  }

  /** Writing a record creates nothing and targets the given item only. */
  lemma WriteSwbTargets(cfg: SwbConfig, data: Dict<PyVal>, item: Entity)
    requires WriteSwb(cfg, data, item).Ok?
    ensures forall a :: a in WriteSwb(cfg, data, item).value ==> !a.Creates() && a.item == item
  {
    var record := SwbRecord(cfg, data).value;
    CommitActionsTarget(record.0, record.1, record.2, item, cfg.ref);
  }

  /** Once the created item is returned, the creation comes first and every
      later write goes to the created item. */
  lemma NewSwbItemWritten(cfg: SwbConfig, data: Dict<PyVal>)
    requires !cfg.demo && SwbEffect(cfg, PyDict(data), None).Ok?
    ensures NewSwbItem(cfg, data).Ok?
    ensures var actions := SwbEffect(cfg, PyDict(data), None).value.actions;
            |actions| >= 1 && actions[0] == NewSwbItem(cfg, data).value.0 &&
            forall i :: 1 <= i < |actions| ==> !actions[i].Creates() && actions[i].item == Created(IdClaim(data))
  {
    var made := NewSwbItem(cfg, data).value;
    assert made.1 == Created(IdClaim(data));
    var writes := WriteSwb(cfg, data, made.1).value;
    WriteSwbTargets(cfg, data, made.1);
    assert SwbEffect(cfg, PyDict(data), None).value.actions == [made.0] + writes;
    WritesAfterCreation(made.0, writes, made.1);
  }

  /** The creation call carries the record's labels, its descriptions and
      its EU code as identifier claim. */
  lemma NewSwbItemCall(cfg: SwbConfig, data: Dict<PyVal>)
    requires NewSwbItem(cfg, data).Ok?
    ensures MakeLabels(data, cfg.badNames).Ok?
    ensures Descriptions(cfg.descriptions, cfg.countryDict, cfg.langs).Ok?
    ensures NewSwbItem(cfg, data).value.0
         == CreateItem(MakeLabels(data, cfg.badNames).value,
                       Descriptions(cfg.descriptions, cfg.countryDict, cfg.langs).value,
                       Claim(SwbProp, PlainValue(Field(data, "euSurfaceWaterBodyCode"))))
  {
  }

  /** Writing a record to an existing item creates nothing and targets that
      item only; demo mode calls nothing and makes one preview. */
  lemma SwbEffectKinds(cfg: SwbConfig, entry: PyVal, item: Option<Entity>)
    requires SwbEffect(cfg, entry, item).Ok?
    ensures cfg.demo ==> SwbEffect(cfg, entry, item).value.actions == [] &&
                         |SwbEffect(cfg, entry, item).value.previews| == 1
    ensures !cfg.demo ==> SwbEffect(cfg, entry, item).value.previews == []
    ensures !cfg.demo && item.Some? ==>
              forall a :: a in SwbEffect(cfg, entry, item).value.actions ==> !a.Creates() && a.item == item.value
  {
    if !cfg.demo && item.Some? {
      WriteSwbTargets(cfg, entry.entries, item.value);
    }
  }

  // ---------------------------------------------------------------------
  // process_all_swb

  /** `eu_swb_code in self.swb_items`, and the item it names. */
  function SwbKnown(cfg: SwbConfig, entry: PyVal): Res<Option<Entity>> {
    var code :- DictGet(entry, PyStr("euSurfaceWaterBodyCode"));
    KnownItem(cfg.swbItems, code)
  }

  function KnownOf(cfg: SwbConfig): PyVal -> Res<Option<Entity>> {
    entry => SwbKnown(cfg, entry)
  }

  function EffectOf(cfg: SwbConfig): (PyVal, Option<Entity>) -> Res<Effect> {
    (entry, item) => SwbEffect(cfg, entry, item)
  }

  /** `process_all_swb(records)` over the listified records. */
  function SwbRun(cfg: SwbConfig, entries: seq<PyVal>): Res<Progress> {
    Drive(entries, cfg.cutoff, cfg.createNew, KnownOf(cfg), EffectOf(cfg))
  }

  /** Without `new` the run writes only to known items and creates none; it
      never processes more records than a positive cutoff. */
  lemma SwbRunBounds(cfg: SwbConfig, entries: seq<PyVal>)
    requires SwbRun(cfg, entries).Ok?
    ensures cfg.cutoff.Some? && cfg.cutoff.value > 0 ==> SwbRun(cfg, entries).value.count <= cfg.cutoff.value
    ensures SwbRun(cfg, entries).value.processed == Selected(Eligibility(entries, KnownOf(cfg), cfg.createNew), cfg.cutoff)
    ensures !cfg.createNew ==> NoCreation(SwbRun(cfg, entries).value.effect.actions)
    ensures !cfg.createNew ==>
              forall i :: i in SwbRun(cfg, entries).value.processed ==>
                i < |entries| && SwbKnown(cfg, entries[i]).Ok? && SwbKnown(cfg, entries[i]).value.Some?
  {
    DriveSelects(entries, cfg.cutoff, cfg.createNew, KnownOf(cfg), EffectOf(cfg));
    DriveWithinCutoff(entries, cfg.cutoff, cfg.createNew, KnownOf(cfg), EffectOf(cfg));
    if !cfg.createNew {
      forall e, x | EffectOf(cfg)(e, Some(x)).Ok? ensures NoCreation(EffectOf(cfg)(e, Some(x)).value.actions) {
        SwbEffectKinds(cfg, e, Some(x));
        var actions := EffectOf(cfg)(e, Some(x)).value.actions;
        forall i | 0 <= i < |actions| ensures !actions[i].Creates() {
          assert actions[i] in actions;
        }
      }
      DriveNoCreation(entries, cfg.cutoff, KnownOf(cfg), EffectOf(cfg));
      DriveOnlyKnown(entries, cfg.cutoff, KnownOf(cfg), EffectOf(cfg));
    }
  }

  /** Demo mode calls nothing and previews each processed record once;
      otherwise nothing is previewed. */
  lemma SwbRunModes(cfg: SwbConfig, entries: seq<PyVal>)
    requires SwbRun(cfg, entries).Ok?
    ensures cfg.demo ==> SwbRun(cfg, entries).value.effect.actions == [] &&
                         |SwbRun(cfg, entries).value.effect.previews| == SwbRun(cfg, entries).value.count
    ensures !cfg.demo ==> SwbRun(cfg, entries).value.effect.previews == []
  {
    forall e, k | EffectOf(cfg)(e, k).Ok?
      ensures cfg.demo ==> EffectOf(cfg)(e, k).value.actions == [] && |EffectOf(cfg)(e, k).value.previews| == 1
      ensures !cfg.demo ==> EffectOf(cfg)(e, k).value.previews == []
    {
      SwbEffectKinds(cfg, e, k);
    }
    if cfg.demo {
      DriveDemo(entries, cfg.cutoff, cfg.createNew, KnownOf(cfg), EffectOf(cfg));
    } else {
      DriveNoPreviews(entries, cfg.cutoff, cfg.createNew, KnownOf(cfg), EffectOf(cfg));
    }
  }

  // ---------------------------------------------------------------------
  // set_common_values

  /** `self.rbd_items.get(code)`. */
  function RbdOf(rbdItems: Dict<string>, code: PyVal): Res<PyVal> {
    match code
    case PyStr(k) => Ok(match Get(rbdItems, k) case Some(q) => PyStr(q) case None => PyNone)
    case PyNone => Ok(PyNone)
    case _ => Err(TypeFault("unhashable type: '" + TypeName(code) + "'"))
  }

  /** What the SWB bot adds to `set_common_values`: the item of the report's
      river basin district, and the SWB description templates, which must
      cover every required language. */
  function SwbValues(mappings: Dict<PyVal>, langs: seq<string>, rbdItems: Dict<string>, data: PyVal)
    : Res<(string, PyVal)>
  {
    var code :- DictGet(data, PyStr("euRBDCode"));
    var rbdQ :- RbdOf(rbdItems, code);
    var rbd :- ItemOf(rbdQ, "QtoItemPage");
    var descriptions :- DictGet(Field(mappings, "descriptions"), PyStr("SWB"));
    var valid :- ValidateMappingOf(descriptions, langs, "descriptions");
    Ok((rbd, descriptions))
  }

  /** A district code missing from the known districts reaches
      `QtoItemPage(None)`: the `KeyError` handler never fires. */
  lemma UnknownDistrict(mappings: Dict<PyVal>, langs: seq<string>, rbdItems: Dict<string>, data: Dict<PyVal>)
    requires Field(data, "euRBDCode").PyStr? && Field(data, "euRBDCode").s !in Keys(rbdItems)
    ensures SwbValues(mappings, langs, rbdItems, PyDict(data)) == Err(ForeignFault("QtoItemPage"))
  {
    assert DictGet(PyDict(data), PyStr("euRBDCode")) == Ok(Field(data, "euRBDCode"));
  }

  /** The district is the item of the report's code, and the description
      templates cover every required language. */
  lemma SwbValuesFound(mappings: Dict<PyVal>, langs: seq<string>, rbdItems: Dict<string>, data: PyVal)
    requires SwbValues(mappings, langs, rbdItems, data).Ok?
    ensures data.PyDict? && Field(data.entries, "euRBDCode").PyStr?
    ensures Field(data.entries, "euRBDCode").s in Keys(rbdItems)
    ensures SwbValues(mappings, langs, rbdItems, data).value.0
         == ItemId(Get(rbdItems, Field(data.entries, "euRBDCode").s).value)
    ensures ValidateMappingOf(SwbValues(mappings, langs, rbdItems, data).value.1, langs, "descriptions").Ok?
  {
    var code := DictGet(data, PyStr("euRBDCode")).value;
    assert code == Field(data.entries, "euRBDCode");
    assert RbdOf(rbdItems, code).Ok? && ItemOf(RbdOf(rbdItems, code).value, "QtoItemPage").Ok?;
  }

  // ---------------------------------------------------------------------
  // validate_indata

  /** The categories and the listed impacts of the records, as the loop of
      `validate_indata` collects them; a record that is not a dict fails. */
  function Collected(records: seq<PyVal>): Res<(seq<PyVal>, seq<PyVal>)> {
    if records == [] then Ok(([], []))
    else
      var init :- Collected(records[..|records| - 1]);
      var record := records[|records| - 1];
      if !record.PyDict? then Err(TypeFault("'" + TypeName(record) + "' object has no attribute 'get'"))
      else
        Ok((init.0 + [Field(record.entries, "surfaceWaterBodyCategory")],
            init.1 + Impacts(record.entries)))
  }

  /** Collecting fails exactly when some record is not a dict. */
  lemma {:induction false} CollectedOk(records: seq<PyVal>)
    ensures Collected(records).Ok? <==> forall i :: 0 <= i < |records| ==> records[i].PyDict?
  {
    if records != [] {
      var init := records[..|records| - 1];
      CollectedOk(init);
      assert forall i :: 0 <= i < |init| ==> init[i] == records[i];
    }
  }

  /** Every category and every listed impact of every record is collected,
      and nothing else. */
  lemma {:induction false} CollectedAll(records: seq<PyVal>)
    requires Collected(records).Ok?
    ensures forall i :: 0 <= i < |records| ==> records[i].PyDict?
    ensures var cats := Collected(records).value.0;
            |cats| == |records| &&
            forall i :: 0 <= i < |records| ==> cats[i] == Field(records[i].entries, "surfaceWaterBodyCategory")
    ensures forall v :: v in Collected(records).value.1 <==>
              exists i :: 0 <= i < |records| && v in Impacts(records[i].entries)
  {
    CollectedOk(records);
    if records != [] {
      var init := records[..|records| - 1];
      CollectedAll(init);
      assert forall i :: 0 <= i < |init| ==> init[i] == records[i];
      var last := records[|records| - 1];
      assert Collected(records).value.1 == Collected(init).value.1 + Impacts(last.entries);
    }
  }

  /** `impact.split(' - ')[0]` for one impact. */
  function ImpactKey(impact: PyVal): (r: Res<string>)
    ensures r.Ok? <==> impact.PyStr?
    ensures r.Ok? ==> r.value == BeforeFirst(impact.s, " - ")
  {
    if impact.PyStr? then Ok(BeforeFirst(impact.s, " - "))
    else Err(TypeFault("'" + TypeName(impact) + "' object has no attribute 'split'"))
  }

  /** `[impact.split(' - ')[0] for impact in impacts]`. */
  function ImpactKeys(impacts: seq<PyVal>): (r: Res<seq<string>>)
    ensures r.Ok? <==> forall i :: 0 <= i < |impacts| ==> impacts[i].PyStr?
    ensures r.Ok? ==>
              |r.value| == |impacts| &&
              forall i :: 0 <= i < |impacts| ==> r.value[i] == BeforeFirst(impacts[i].s, " - ")
  {
    MapAllEach(impacts, ImpactKey);
    MapAll(impacts, ImpactKey)
  }

  /** The checks of `validate_indata` on a list of records. */
  function ValidateRecords(records: seq<PyVal>, mappings: Dict<PyVal>): Res<()> {
    var found :- Collected(records);
    var keys :- ImpactKeys(found.1);
    var cats :- ValidateMappingValues(Field(mappings, "surfaceWaterBodyCategory"), found.0, "surfaceWaterBodyCategory");
    ValidateMappingValues(Field(mappings, "swSignificantImpactType"), PyStrs(keys), "swSignificantImpactType")
  }

  /** With flat mappings the records pass iff every category is a mapped
      key and every impact's text before " - " is a mapped key. */
  lemma ValidateRecordsFlat(records: seq<PyVal>, mappings: Dict<PyVal>, catMap: Dict<PyVal>, impactMap: Dict<PyVal>)
    requires Field(mappings, "surfaceWaterBodyCategory") == PyDict(catMap) && !IsNested(catMap)
    requires Field(mappings, "swSignificantImpactType") == PyDict(impactMap) && !IsNested(impactMap)
    requires Collected(records).Ok? && ImpactKeys(Collected(records).value.1).Ok?
    ensures ValidateRecords(records, mappings).Ok? <==>
              (forall c :: c in Collected(records).value.0 ==> c.PyStr? && c.s in Keys(catMap)) &&
              (forall k :: k in ImpactKeys(Collected(records).value.1).value ==> k in Keys(impactMap))
  {
    var cats := Collected(records).value.0;
    var keys := ImpactKeys(Collected(records).value.1).value;
    FlatValuesPass(catMap, cats, "surfaceWaterBodyCategory");
    FlatValuesPass(impactMap, PyStrs(keys), "swSignificantImpactType");
    PyStrsMembers(keys);
  }

  lemma PyStrsMembers(keys: seq<string>)
    ensures forall k :: k in keys <==> PyStr(k) in PyStrs(keys)
  {
    forall k ensures k in keys <==> PyStr(k) in PyStrs(keys) {
      if PyStr(k) in PyStrs(keys) {
        var i :| 0 <= i < |keys| && PyStrs(keys)[i] == PyStr(k);
        assert keys[i] == k;
      }
      if k in keys {
        var i :| 0 <= i < |keys| && keys[i] == k;
        assert PyStrs(keys)[i] == PyStr(k);
      }
    }
  }

  /** `validate_indata(data, mappings)` as written: `SurfaceWaterBody` is
      used as it is, so a single record (a dict) is iterated by its keys and
      a missing one fails on `len(None)`. */
  function ValidateIndataAsWritten(data: PyVal, mappings: Dict<PyVal>): Res<()> {
    if !data.PyDict? then Err(TypeFault("'" + TypeName(data) + "' object has no attribute 'get'"))
    else
      match Field(data.entries, "SurfaceWaterBody")
      case PyNone => Err(TypeFault("object of type 'NoneType' has no len()"))
      case PyList(records) => ValidateRecords(records, mappings)
      case PyDict(record) => ValidateRecords(seq(|record|, i requires 0 <= i < |record| => PyStr(record[i].0)), mappings)
      case PyStr(s) => ValidateRecords(seq(|s|, i requires 0 <= i < |s| => PyStr([s[i]])), mappings)
  }

  /** `validate_indata(data, mappings)` reading the records as
      `process_all_swb` does, through `listify`. */
  function ValidateIndata(data: PyVal, mappings: Dict<PyVal>): Res<()> {
    if !data.PyDict? then Err(TypeFault("'" + TypeName(data) + "' object has no attribute 'get'"))
    else ValidateRecords(Listify(Field(data.entries, "SurfaceWaterBody")), mappings)
  }

  /** A report with a single record fails as written whatever the mappings
      hold, while the listified check validates that record. A list of
      records is checked the same way by both. */
  lemma SingleRecordRejected(data: Dict<PyVal>, record: Dict<PyVal>, mappings: Dict<PyVal>)
    requires Field(data, "SurfaceWaterBody") == PyDict(record) && record != []
    ensures ValidateIndataAsWritten(PyDict(data), mappings).Err?
    ensures ValidateIndata(PyDict(data), mappings) == ValidateRecords([PyDict(record)], mappings)
  {
    var keys := seq(|record|, i requires 0 <= i < |record| => PyStr(record[i].0));
    CollectedOk(keys);
    assert !keys[0].PyDict?;
  }

  lemma ListOfRecordsSame(data: Dict<PyVal>, records: seq<PyVal>, mappings: Dict<PyVal>)
    requires Field(data, "SurfaceWaterBody") == PyList(records)
    ensures ValidateIndataAsWritten(PyDict(data), mappings) == ValidateIndata(PyDict(data), mappings)
  {
  }

  // ---------------------------------------------------------------------
  // The bot

  /** `SwbBot`: the base bot, the known SWB and RBD items (code to Q-id,
      from a query), and the category and impact mappings. */
  class SwbBot {
    const base: WfdBot
    const swbItems: Dict<string>
    const rbdItems: Dict<string>
    const swbCats: PyVal
    const impactTypes: PyVal
    /** `self.rbd`: the item of the report's river basin district. */
    var rbd: Option<string>

    constructor(mappings: Dict<PyVal>, year: string, createNew: bool, cutoff: Option<int>,
                demo: bool, badNames: set<string>, swbItems: Dict<string>, rbdItems: Dict<string>)
      ensures fresh(base) && fresh(base.wd) && base.wd.log == [] && base.previews == []
      ensures base.mappings == mappings && base.year == year && base.createNew == createNew
      ensures base.cutoff == cutoff && base.demo == demo && base.badNames == badNames && base.langs == Langs
      ensures base.countryDict.None? && base.country.None? && base.ref.None? && base.descriptions == PyNone
      ensures this.swbItems == swbItems && this.rbdItems == rbdItems
      ensures swbCats == Field(mappings, "surfaceWaterBodyCategory")
      ensures impactTypes == Field(mappings, "swSignificantImpactType")
      ensures rbd.None?
    {
      base := new WfdBot(mappings, year, createNew, cutoff, demo, badNames);
      this.swbItems := swbItems;
      this.rbdItems := rbdItems;
      swbCats := Field(mappings, "surfaceWaterBodyCategory");
      impactTypes := Field(mappings, "swSignificantImpactType");
      rbd := None;
    }

    /** The values a record is processed with. */
    function Config(): SwbConfig
      reads this`rbd, base`countryDict, base`country, base`descriptions, base`ref
    {
      SwbConfig(base.mappings, base.year, base.langs, base.badNames, base.demo, base.createNew, base.cutoff,
                swbItems, swbCats, impactTypes, base.countryDict, base.country, rbd, base.descriptions, base.ref)
    }

    /** `set_common_values(data)`: the base values, then the district and the
        description templates. */
    method SetCommonValues(data: PyVal) returns (r: Res<()>)
      modifies this, base
      ensures r.Ok? <==> CommonValues(base.mappings, base.year, base.langs, data).Ok? &&
                         SwbValues(base.mappings, base.langs, rbdItems, data).Ok?
      ensures r.Ok? ==>
                base.countryDict.Some? && base.country.Some? && base.ref.Some? &&
                CommonValues(base.mappings, base.year, base.langs, data)
                  == Ok(Common(base.countryDict.value, base.country.value, base.datasetQ, base.language, base.ref.value)) &&
                rbd.Some? && SwbValues(base.mappings, base.langs, rbdItems, data) == Ok((rbd.value, base.descriptions))
      ensures base.previews == old(base.previews)
    {
      r := base.SetCommonValues(data);
      if r.Err? {
        return;
      }
      var extra := SwbValues(base.mappings, base.langs, rbdItems, data);
      if extra.Err? {
        return Err(extra.error);
      }
      rbd := Some(extra.value.0);
      base.descriptions := extra.value.1;
    }

    /** `make_significant_impact_type(data)`. */
    method MakeSignificantImpactType(data: Dict<PyVal>) returns (r: Res<seq<Statement>>)
      ensures r == SignificantImpactType(impactTypes, data, base.year)
    {
      var impacts := Impacts(data);
      ghost var f := ImpactStatementOf(impactTypes, base.year);
      var claims: seq<Statement> := [];
      var i := 0;
      assert impacts[..0] == [];
      while i < |impacts|
        invariant 0 <= i <= |impacts|
        invariant MapAll(impacts[..i], f) == Ok(claims)
      {
        var st := ImpactStatement(impactTypes, impacts[i], base.year);
        MapAllStep(impacts, f, i);
        if st.Err? {
          return Err(st.error);
        }
        claims := claims + [st.value];
        i := i + 1;
      }
      assert impacts[..i] == impacts;
      if claims == [] {
        claims := [YearStatement(SpecialValue("novalue"), base.year)];
      }
      r := Ok(claims);
    }

    /** `make_protoclaims(data)`. */
    method MakeProtoclaims(data: Dict<PyVal>) returns (r: Res<Dict<Protoclaim>>)
      ensures r == SwbProtoclaims(Config(), data)
    {
      var cat := DictGet(swbCats, Field(data, "surfaceWaterBodyCategory"));
      if cat.Err? {
        return Err(cat.error);
      }
      var catQ := ItemOf(cat.value, "QtoItemPage");
      if catQ.Err? {
        return Err(catQ.error);
      }
      if base.country.None? {
        return Err(TypeFault("'SwbBot' object has no attribute 'country'"));
      }
      if rbd.None? {
        return Err(TypeFault("'SwbBot' object has no attribute 'rbd'"));
      }
      var impacts := MakeSignificantImpactType(data);
      if impacts.Err? {
        return Err(impacts.error);
      }
      var status := EcologicalStatus(base.mappings, data, base.year);
      if status.Err? {
        return Err(status.error);
      }
      r := Ok([("P31", One(Plain(ItemValue(catQ.value)))),
               (SwbProp, One(Plain(PlainValue(Field(data, "euSurfaceWaterBodyCode"))))),
               ("P17", One(Plain(ItemValue(base.country.value)))),
               ("P361", One(Plain(ItemValue(rbd.value)))),
               ("P3643", Many(impacts.value)),
               ("P4002", status.value)]);
    }

    /** `create_new_swb_item(data)`, returning the item it creates. */
    method CreateNewSwbItem(data: Dict<PyVal>) returns (r: Res<Entity>)
      modifies base.wd
      ensures r.Ok? <==> NewSwbItem(Config(), data).Ok?
      ensures r.Ok? ==> r.value == NewSwbItem(Config(), data).value.1 &&
                        base.wd.log == old(base.wd.log) + [NewSwbItem(Config(), data).value.0]
    {
      var labels := MakeLabels(data, base.badNames);
      if labels.Err? {
        return Err(labels.error);
      }
      var descriptions := base.MakeDescriptions(base.descriptions);
      if descriptions.Err? {
        return Err(descriptions.error);
      }
      var item := base.wd.CreateNewItem(labels.value, descriptions.value, IdClaim(data));
      r := Ok(item);
    }

    /** The labels, descriptions and protoclaims of a record. */
    method MakeRecord(data: Dict<PyVal>) returns (r: Res<(Dict<PyVal>, Dict<PyVal>, Dict<Protoclaim>)>)
      ensures r == SwbRecord(Config(), data)
    {
      var labels := MakeLabels(data, base.badNames);
      if labels.Err? {
        return Err(labels.error);
      }
      var descriptions := base.MakeDescriptions(base.descriptions);
      if descriptions.Err? {
        return Err(descriptions.error);
      }
      var protoclaims := MakeProtoclaims(data);
      if protoclaims.Err? {
        return Err(protoclaims.error);
      }
      r := Ok((labels.value, descriptions.value, protoclaims.value));
    }

    /** `process_single_swb(data, item)`. */
    method ProcessSingleSwb(entry: PyVal, item: Option<Entity>) returns (r: Res<()>)
      modifies base.wd, base`previews
      ensures r.Ok? <==> SwbEffect(Config(), entry, item).Ok?
      ensures r.Ok? ==>
                base.wd.log == old(base.wd.log) + SwbEffect(Config(), entry, item).value.actions &&
                base.previews == old(base.previews) + SwbEffect(Config(), entry, item).value.previews
    {
      if !entry.PyDict? {
        return Err(TypeFault("'" + TypeName(entry) + "' object has no attribute 'get'"));
      }
      var data := entry.entries;
      if base.demo {
        var record := MakeRecord(data);
        if record.Err? {
          return Err(record.error);
        }
        var preview := NewPreviewItem(record.value.0, record.value.1, record.value.2, PreviewQid(item), base.ref);
        if preview.Err? {
          return Err(preview.error);
        }
        base.previews := base.previews + [preview.value];
        r := Ok(());
      } else {
        r := WriteSingleSwb(data, item);
      }
    }

    /** The branch of `process_single_swb` that writes: the item is created
        first when there is none, then the record is committed to it. */
    method WriteSingleSwb(data: Dict<PyVal>, item: Option<Entity>) returns (r: Res<()>)
      requires !base.demo
      modifies base.wd
      ensures r.Ok? <==> SwbEffect(Config(), PyDict(data), item).Ok?
      ensures r.Ok? ==>
                base.wd.log == old(base.wd.log) + SwbEffect(Config(), PyDict(data), item).value.actions &&
                base.previews == old(base.previews) + SwbEffect(Config(), PyDict(data), item).value.previews
    {
      ghost var cfg := Config();
      var target: Entity;
      ghost var created: seq<Action> := [];
      if item.None? {
        var made := CreateNewSwbItem(data);
        if made.Err? {
          return Err(made.error);
        }
        target := made.value;
        created := [NewSwbItem(cfg, data).value.0];
      } else {
        target := item.value;
      }
      var record := MakeRecord(data);
      if record.Err? {
        return Err(record.error);
      }
      r := base.CommitRecord(record.value.0, record.value.1, record.value.2, target);
      if r.Ok? {
        assert WriteSwb(cfg, data, target).Ok?;
        AppendAssoc(old(base.wd.log), created, WriteSwb(cfg, data, target).value);
      }
    }

    /** One turn of the loop of `process_all_swb`: look up the record's
        item and process the record when it is known or `new` is set. The
        loop's state goes from `p` to `next`; `log` and `previews` are what
        the calls and previews were before the loop. */
    method ProcessEntry(entries: seq<PyVal>, i: nat, ghost p: Progress,
                        ghost log: seq<Action>, ghost previews: seq<PreviewItem>)
      returns (r: Res<()>, processed: bool, ghost next: Progress)
      requires i < |entries| && !Stop(base.cutoff, p.count)
      requires Drive(entries[..i], base.cutoff, base.createNew, KnownOf(Config()), EffectOf(Config())) == Ok(p)
      requires base.wd.log == log + p.effect.actions && base.previews == previews + p.effect.previews
      modifies base.wd, base`previews
      ensures Config() == old(Config())
      ensures r.Err? ==> Drive(entries, base.cutoff, base.createNew, KnownOf(Config()), EffectOf(Config())).Err?
      ensures r.Ok? ==>
                Drive(entries[..i + 1], base.cutoff, base.createNew, KnownOf(Config()), EffectOf(Config())) == Ok(next) &&
                next.count == (if processed then p.count + 1 else p.count) &&
                base.wd.log == log + next.effect.actions && base.previews == previews + next.effect.previews
    {
      var cfg := Config();
      DriveNext(entries, i, base.cutoff, base.createNew, KnownOf(cfg), EffectOf(cfg), p);
      var item := SwbKnown(cfg, entries[i]);
      assert KnownOf(cfg)(entries[i]) == item;
      if item.Err? {
        return Err(item.error), false, p;
      }
      if item.value.None? && !base.createNew {
        return Ok(()), false, p;
      }
      processed := true;
      r, next := ProcessEligible(entries, i, p, log, previews, item.value);
    }

    /** The rest of a turn for a record that is processed. */
    method ProcessEligible(entries: seq<PyVal>, i: nat, ghost p: Progress,
                           ghost log: seq<Action>, ghost previews: seq<PreviewItem>, item: Option<Entity>)
      returns (r: Res<()>, ghost next: Progress)
      requires i < |entries|
      requires base.wd.log == log + p.effect.actions && base.previews == previews + p.effect.previews
      modifies base.wd, base`previews
      ensures Config() == old(Config())
      ensures r.Ok? <==> EffectOf(Config())(entries[i], item).Ok?
      ensures r.Ok? ==>
                next == Progress(Then(p.effect, EffectOf(Config())(entries[i], item).value), p.count + 1, p.processed + [i]) &&
                base.wd.log == log + next.effect.actions && base.previews == previews + next.effect.previews
    {
      ghost var e := EffectOf(Config())(entries[i], item);
      assert e == SwbEffect(Config(), entries[i], item);
      r := ProcessSingleSwb(entries[i], item);
      next := p;
      if r.Ok? {
        ThenAppends(log, previews, p.effect, e.value);
        next := Progress(Then(p.effect, e.value), p.count + 1, p.processed + [i]);
      }
    }

    /** `process_all_swb(data)`: the records are listified and processed in
        order until the cutoff. */
    method ProcessAllSwb(data: PyVal) returns (r: Res<()>)
      modifies base.wd, base`previews
      ensures r.Ok? <==> SwbRun(Config(), Listify(data)).Ok?
      ensures r.Ok? ==>
                base.wd.log == old(base.wd.log) + SwbRun(Config(), Listify(data)).value.effect.actions &&
                base.previews == old(base.previews) + SwbRun(Config(), Listify(data)).value.effect.previews
    {
      var cfg := Config();
      var entries := Listify(data);
      ghost var known := KnownOf(cfg);
      ghost var single := EffectOf(cfg);
      var count := 0;
      ghost var p := Progress(Effect([], []), 0, []);
      var i := 0;
      assert entries[..0] == [];
      while i < |entries|
        invariant 0 <= i <= |entries|
        invariant Config() == cfg
        invariant Drive(entries[..i], cfg.cutoff, cfg.createNew, known, single) == Ok(p)
        invariant count == p.count
        invariant base.wd.log == old(base.wd.log) + p.effect.actions
        invariant base.previews == old(base.previews) + p.effect.previews
      {
        if Stop(base.cutoff, count) {
          DriveStopped(entries, i, cfg.cutoff, cfg.createNew, known, single);
          return Ok(());
        }
        var done, processed, next := ProcessEntry(entries, i, p, old(base.wd.log), old(base.previews));
        if done.Err? {
          return done;
        }
        p := next;
        if processed {
          count := count + 1;
        }
        i := i + 1;
      }
      assert entries[..i] == entries;
      r := Ok(());
    }
  }
}
