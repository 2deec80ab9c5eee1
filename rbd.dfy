/** WFD/RBD.py: the bot for river basin districts (RBD). The districts of a
    report's country are checked against the mappings, then each becomes
    labels, descriptions and claims on the item holding its EU code, or on a
    new item when new items may be created. */
module Rbd {
  import opened Wrappers
  import opened Text
  import opened Py
  import opened Wikidata
  import opened Validation
  import opened Commit
  import opened Preview
  import opened Driver
  import opened Base

  /** `rbd_q`: the class "river basin district". */
  const RbdQ := "Q132017"
  /** `eu_rbd_p`: the EU code of a river basin district (euRBDCode). */
  const RbdProp := "P2965"
  const AuthorityKey := "primeCompetentAuthority"

  // ---------------------------------------------------------------------
  // load_existing_rbd

  /** `values.get(eu_rbd_p)` when it is truthy: the EU code an item of the
      query holds. */
  function CodeOf(values: Dict<string>): Option<string> {
    match Get(values, RbdProp)
    case Some(code) => if code == [] then None else Some(code)
    case None => None
  }

  /** The items of the query (Q-id to its values) inverted into EU code to
      Q-id; an item without a code, or a code held twice, stops the bot. A
      code is stored only when it is new, so it goes last. */
  function RbdIdItems(itemIds: Dict<Dict<string>>): Res<Dict<string>> {
    if itemIds == [] then Ok([])
    else
      var n := |itemIds| - 1;
      var init :- RbdIdItems(itemIds[..n]);
      var q := itemIds[n].0;
      match CodeOf(itemIds[n].1)
      case None => Err(BotError("Found an RBD without euRBDCode: " + q))
      case Some(code) =>
        if code in Keys(init) then
          Err(BotError("Found an two RBDs with same euRBDCode: " + q + " & " + Get(init, code).value))
        else Ok(init + [(code, q)])
  }

  /** Every item holds a code, and no two items hold the same one. */
  ghost predicate UniqueCodes(itemIds: Dict<Dict<string>>) {
    (forall i :: 0 <= i < |itemIds| ==> CodeOf(itemIds[i].1).Some?) &&
    forall i, j :: 0 <= i < j < |itemIds| ==> CodeOf(itemIds[i].1) != CodeOf(itemIds[j].1)
  }

  /** The inversion pairs each item's code with the item, in the query's
      order. */
  lemma {:induction false} RbdIdItemsPairs(itemIds: Dict<Dict<string>>)
    requires RbdIdItems(itemIds).Ok?
    ensures var r := RbdIdItems(itemIds).value;
            |r| == |itemIds| &&
            forall i :: 0 <= i < |itemIds| ==> CodeOf(itemIds[i].1).Some? && r[i] == (CodeOf(itemIds[i].1).value, itemIds[i].0)
  {
    if itemIds != [] {
      var n := |itemIds| - 1;
      var init := itemIds[..n];
      assert RbdIdItems(init).Ok?;
      RbdIdItemsPairs(init);
      assert forall i :: 0 <= i < n ==> init[i] == itemIds[i];
      var r0 := RbdIdItems(init).value;
      assert RbdIdItems(itemIds).value == r0 + [(CodeOf(itemIds[n].1).value, itemIds[n].0)];
    }
  }

  /** The inversion succeeds when the codes are present and unique. */
  lemma {:induction false} UniqueCodesInvert(itemIds: Dict<Dict<string>>)
    requires UniqueCodes(itemIds)
    ensures RbdIdItems(itemIds).Ok?
  {
    if itemIds != [] {
      var n := |itemIds| - 1;
      var init := itemIds[..n];
      assert forall i :: 0 <= i < n ==> init[i] == itemIds[i];
      assert UniqueCodes(init);
      UniqueCodesInvert(init);
      RbdIdItemsPairs(init);
      var r0 := RbdIdItems(init).value;
      var code := CodeOf(itemIds[n].1).value;
      KeysAt(r0, code);
    }
  }

  /** The inversion succeeds only when the codes are present and unique. */
  lemma {:induction false} InvertedCodesUnique(itemIds: Dict<Dict<string>>)
    requires RbdIdItems(itemIds).Ok?
    ensures UniqueCodes(itemIds)
  {
    if itemIds != [] {
      var n := |itemIds| - 1;
      var init := itemIds[..n];
      assert RbdIdItems(init).Ok?;
      InvertedCodesUnique(init);
      var code := CodeOf(itemIds[n].1).value;
      CodeNotInverted(init, code);
      UniqueCodesSnoc(itemIds);
    }
  }

  /** A code missing from the inversion is held by none of the items. */
  lemma CodeNotInverted(itemIds: Dict<Dict<string>>, code: string)
    requires RbdIdItems(itemIds).Ok? && code !in Keys(RbdIdItems(itemIds).value)
    ensures forall i :: 0 <= i < |itemIds| ==> CodeOf(itemIds[i].1) != Some(code)
  {
    RbdIdItemsPairs(itemIds);
    var r := RbdIdItems(itemIds).value;
    KeysAt(r, code);
    forall i | 0 <= i < |itemIds| ensures CodeOf(itemIds[i].1) != Some(code) {
      assert r[i].0 == CodeOf(itemIds[i].1).value;
    }
  }

  /** Unique codes extend by an item whose code differs from all before it. */
  lemma UniqueCodesSnoc(itemIds: Dict<Dict<string>>)
    requires itemIds != [] && UniqueCodes(itemIds[..|itemIds| - 1])
    requires CodeOf(itemIds[|itemIds| - 1].1).Some?
    requires forall i :: 0 <= i < |itemIds| - 1 ==> CodeOf(itemIds[i].1) != CodeOf(itemIds[|itemIds| - 1].1)
    ensures UniqueCodes(itemIds)
  {
    var n := |itemIds| - 1;
    assert forall i :: 0 <= i < n ==> itemIds[..n][i] == itemIds[i];
  }

  /** The inversion succeeds iff every item holds a code and no two hold
      the same one. */
  lemma RbdIdItemsOk(itemIds: Dict<Dict<string>>)
    ensures RbdIdItems(itemIds).Ok? <==> UniqueCodes(itemIds)
  {
    if RbdIdItems(itemIds).Ok? {
      InvertedCodesUnique(itemIds);
    }
    if UniqueCodes(itemIds) {
      UniqueCodesInvert(itemIds);
    }
  }

  /** Once inverted, each item's code looks up that item. */
  lemma RbdIdItemsLookup(itemIds: Dict<Dict<string>>, i: nat)
    requires i < |itemIds| && RbdIdItems(itemIds).Ok?
    ensures CodeOf(itemIds[i].1).Some?
    ensures Get(RbdIdItems(itemIds).value, CodeOf(itemIds[i].1).value) == Some(itemIds[i].0)
  {
    RbdIdItemsPairs(itemIds);
    InvertedCodesUnique(itemIds);
    var r := RbdIdItems(itemIds).value;
    var code := CodeOf(itemIds[i].1).value;
    assert r[i].0 == code;
    KeysAt(r, code);
    var v := Get(r, code).value;
    var j :| 0 <= j < |r| && r[j] == (code, v);
    assert CodeOf(itemIds[j].1) == CodeOf(itemIds[i].1);
    assert j == i;
  }

  lemma {:induction false} RbdIdItemsPrefixFails(itemIds: Dict<Dict<string>>, k: nat)
    requires k <= |itemIds| && RbdIdItems(itemIds[..k]).Err?
    ensures RbdIdItems(itemIds) == RbdIdItems(itemIds[..k])
    decreases |itemIds| - k
  {
    if k < |itemIds| {
      assert itemIds[..k + 1][..k] == itemIds[..k];
      RbdIdItemsPrefixFails(itemIds, k + 1);
    } else {
      assert itemIds[..k] == itemIds;
    }
  }

  /** The first item without a code is reported by its Q-id. */
  lemma MissingCodeReported(itemIds: Dict<Dict<string>>, j: nat)
    requires j < |itemIds| && RbdIdItems(itemIds[..j]).Ok? && CodeOf(itemIds[j].1).None?
    ensures RbdIdItems(itemIds) == Err(BotError("Found an RBD without euRBDCode: " + itemIds[j].0))
  {
    MissingCodeAt(itemIds, j);
    RbdIdItemsPrefixFails(itemIds, j + 1);
  }

  lemma MissingCodeAt(itemIds: Dict<Dict<string>>, j: nat)
    requires j < |itemIds| && RbdIdItems(itemIds[..j]).Ok? && CodeOf(itemIds[j].1).None?
    ensures RbdIdItems(itemIds[..j + 1]) == Err(BotError("Found an RBD without euRBDCode: " + itemIds[j].0))
  {
    var prefix := itemIds[..j + 1];
    assert prefix[..j] == itemIds[..j] && prefix[j] == itemIds[j];
  }

  /** The first code held twice is reported with both items, the later one
      first. */
  lemma DuplicateCodeReported(itemIds: Dict<Dict<string>>, i: nat, j: nat)
    requires i < j < |itemIds| && RbdIdItems(itemIds[..j]).Ok?
    requires CodeOf(itemIds[j].1).Some? && CodeOf(itemIds[i].1) == CodeOf(itemIds[j].1)
    ensures RbdIdItems(itemIds)
         == Err(BotError("Found an two RBDs with same euRBDCode: " + itemIds[j].0 + " & " + itemIds[i].0))
  {
    DuplicateCodeAt(itemIds, i, j);
    RbdIdItemsPrefixFails(itemIds, j + 1);
  }

  lemma DuplicateCodeAt(itemIds: Dict<Dict<string>>, i: nat, j: nat)
    requires i < j < |itemIds| && RbdIdItems(itemIds[..j]).Ok?
    requires CodeOf(itemIds[j].1).Some? && CodeOf(itemIds[i].1) == CodeOf(itemIds[j].1)
    ensures RbdIdItems(itemIds[..j + 1])
         == Err(BotError("Found an two RBDs with same euRBDCode: " + itemIds[j].0 + " & " + itemIds[i].0))
  {
    var init := itemIds[..j];
    assert init[i] == itemIds[i];
    RbdIdItemsLookup(init, i);
    var prefix := itemIds[..j + 1];
    assert prefix[..j] == init && prefix[j] == itemIds[j];
  }

  /** `load_existing_rbd()` on the result of the query. */
  method LoadExistingRbd(itemIds: Dict<Dict<string>>) returns (r: Res<Dict<string>>)
    ensures r == RbdIdItems(itemIds)
  {
    var rbdIdItems: Dict<string> := [];
    var i := 0;
    while i < |itemIds|
      invariant 0 <= i <= |itemIds|
      invariant RbdIdItems(itemIds[..i]) == Ok(rbdIdItems)
    {
      assert itemIds[..i + 1][..i] == itemIds[..i];
      var q := itemIds[i].0;
      var code := CodeOf(itemIds[i].1);
      if code.None? {
        RbdIdItemsPrefixFails(itemIds, i + 1);
        return Err(BotError("Found an RBD without euRBDCode: " + q));
      } else if code.value in Keys(rbdIdItems) {
        RbdIdItemsPrefixFails(itemIds, i + 1);
        return Err(BotError("Found an two RBDs with same euRBDCode: " + q + " & " + Get(rbdIdItems, code.value).value));
      }
      rbdIdItems := Put(rbdIdItems, code.value, q);
      assert rbdIdItems == RbdIdItems(itemIds[..i + 1]).value;
      i := i + 1;
    }
    assert itemIds[..i] == itemIds;
    r := Ok(rbdIdItems);
  }

  // ---------------------------------------------------------------------
  // __init__

  /** The mappings and the known districts the bot reads when it starts. */
  datatype RbdTables = RbdTables(countries: PyVal, authorities: PyVal, descriptions: PyVal, idItems: Dict<string>)

  /** `mappings['countryCode']`, `mappings['CompetentAuthority']`,
      `mappings['descriptions']['RBD']` and `load_existing_rbd()`. */
  function RbdInit(mappings: Dict<PyVal>, itemIds: Dict<Dict<string>>): (r: Res<RbdTables>)
    ensures r.Ok? <==> "countryCode" in Keys(mappings) && "CompetentAuthority" in Keys(mappings) &&
                       Index(Field(mappings, "descriptions"), PyStr("RBD")).Ok? && UniqueCodes(itemIds)
    ensures r.Ok? ==> RbdIdItems(itemIds).Ok? && r.value.idItems == RbdIdItems(itemIds).value &&
                      r.value.countries == Field(mappings, "countryCode")
  {
    RbdIdItemsOk(itemIds);
    var countries :- Index(PyDict(mappings), PyStr("countryCode"));
    var authorities :- Index(PyDict(mappings), PyStr("CompetentAuthority"));
    var descriptions :- Index(Field(mappings, "descriptions"), PyStr("RBD"));
    var idItems :- RbdIdItems(itemIds);
    Ok(RbdTables(countries, authorities, descriptions, idItems))
  }

  // ---------------------------------------------------------------------
  // check_country

  /** `check_country(country)`: the country must be mapped, to an item, and
      name every required language. */
  function CheckCountry(countries: PyVal, langs: seq<string>, country: PyVal): (r: Res<()>)
    ensures !countries.PyDict? ==> r.Err?
    ensures countries.PyDict? && country.PyStr? ==>
              var entry := Field(countries.entries, country.s);
              (!Truthy(entry) ==> r == Err(BotError("The country code \"" + country.s + "\" was not mapped."))) &&
              (Truthy(entry) && entry.PyDict? && !Truthy(Field(entry.entries, "qId")) ==>
                 r == Err(BotError("The country code \"" + country.s + "\" was not mapped to Wikidata."))) &&
              (Truthy(entry) && entry.PyDict? && Truthy(Field(entry.entries, "qId")) ==>
                 (r.Ok? <==> forall l :: l in langs ==> l in Keys(entry.entries)) &&
                 (r.Err? ==> r == Err(BotErrorListing(
                                 "The following languages should be mapped for country " + country.s + " before continuing: ",
                                 set l | l in langs && l !in Keys(entry.entries)))))
  {
    var entry :- DictGet(countries, country);
    if !Truthy(entry) then Err(BotError("The country code \"" + Str(country) + "\" was not mapped."))
    else
      var qid :- DictGet(entry, PyStr("qId"));
      if !Truthy(qid) then Err(BotError("The country code \"" + Str(country) + "\" was not mapped to Wikidata."))
      else
        var diff := set l | l in langs && l !in Keys(entry.entries);
        if diff != {} then
          Err(BotErrorListing("The following languages should be mapped for country " + Str(country) + " before continuing: ", diff))
        else Ok(())
  }

  /** `self.countries.get(country).get('qId')`. */
  function CountryQ(countries: PyVal, country: PyVal): Res<PyVal> {
    var entry :- DictGet(countries, country);
    DictGet(entry, PyStr("qId"))
  }

  /** A country that passed the check has an item: the country claim of
      every district can be looked up. */
  lemma CheckedCountryHasQid(countries: PyVal, langs: seq<string>, country: PyVal)
    requires CheckCountry(countries, langs, country).Ok?
    ensures CountryQ(countries, country).Ok? && Truthy(CountryQ(countries, country).value)
  {
  }

  // ---------------------------------------------------------------------
  // check_all_competent_authorities

  predicate HasAuthority(entry: PyVal) {
    entry.PyDict? && AuthorityKey in Keys(entry.entries)
  }

  /** `d['primeCompetentAuthority']` of one district. */
  function PrimeAuthority(entry: PyVal): Res<PyVal> {
    Index(entry, PyStr(AuthorityKey))
  }

  /** `d['primeCompetentAuthority']` for each district, in order. */
  function PrimeAuthorities(entries: seq<PyVal>): Res<seq<PyVal>> {
    MapAll(entries, PrimeAuthority)
  }

  lemma IndexAuthority(entry: PyVal)
    ensures Index(entry, PyStr(AuthorityKey)).Ok? <==> HasAuthority(entry)
    ensures HasAuthority(entry) ==> Index(entry, PyStr(AuthorityKey)).value == Field(entry.entries, AuthorityKey)
  {
  }

  /** Every district must name its competent authority; the names are
      collected in order. */
  lemma PrimeAuthoritiesEach(entries: seq<PyVal>)
    ensures PrimeAuthorities(entries).Ok? <==> forall i :: 0 <= i < |entries| ==> HasAuthority(entries[i])
    ensures PrimeAuthorities(entries).Ok? ==>
              var found := PrimeAuthorities(entries).value;
              |found| == |entries| &&
              forall i :: 0 <= i < |entries| ==> found[i] == Field(entries[i].entries, AuthorityKey)
  {
    MapAllEach(entries, PrimeAuthority);
    forall i | 0 <= i < |entries|
      ensures PrimeAuthority(entries[i]).Ok? <==> HasAuthority(entries[i])
      ensures HasAuthority(entries[i]) ==> PrimeAuthority(entries[i]).value == Field(entries[i].entries, AuthorityKey)
    {
      IndexAuthority(entries[i]);
    }
  }

  /** `check_all_competent_authorities(data, country)`. */
  function AuthorityCheck(authorities: PyVal, entries: seq<PyVal>): Res<()> {
    var found :- PrimeAuthorities(entries);
    ValidateMappingValues(authorities, found, "CompetentAuthority")
  }

  /** With a flat authority mapping the districts pass iff each names an
      authority that is a key of the mapping. */
  lemma AuthoritiesMapped(authorities: Dict<PyVal>, entries: seq<PyVal>)
    requires !IsNested(authorities)
    ensures AuthorityCheck(PyDict(authorities), entries).Ok? <==>
              forall i :: 0 <= i < |entries| ==>
                HasAuthority(entries[i]) && Field(entries[i].entries, AuthorityKey).PyStr? &&
                Field(entries[i].entries, AuthorityKey).s in Keys(authorities)
  {
    PrimeAuthoritiesEach(entries);
    if PrimeAuthorities(entries).Ok? {
      var found := PrimeAuthorities(entries).value;
      FlatValuesPass(authorities, found, "CompetentAuthority");
      if AuthorityCheck(PyDict(authorities), entries).Ok? {
        forall i | 0 <= i < |entries|
          ensures Field(entries[i].entries, AuthorityKey).PyStr? &&
                  Field(entries[i].entries, AuthorityKey).s in Keys(authorities)
        {
          assert found[i] in found;
        }
      } else {
        var v :| v in found && !(v.PyStr? && v.s in Keys(authorities));
        var i :| 0 <= i < |found| && found[i] == v;
        assert !(Field(entries[i].entries, AuthorityKey).PyStr? &&
                 Field(entries[i].entries, AuthorityKey).s in Keys(authorities));
      }
    }
  }

  // ---------------------------------------------------------------------
  // make_labels

  /** `make_labels(entry_data, with_alias)`: the English name, when it may
      be used, in a list; with the alias the EU code is appended to that
      list, which then always exists. */
  function RbdLabels(data: Dict<PyVal>, badNames: set<string>, withAlias: bool): (r: Res<Dict<PyVal>>)
    ensures r.Ok? <==> UsableName(data, "rbdName", badNames).Ok?
    ensures r.Ok? && !withAlias ==>
              (r.value == [] <==> UsableName(data, "rbdName", badNames).value.None?) &&
              (r.value != [] ==> r.value == [("en", PyList([Field(data, "rbdName")]))])
  {
    var name :- UsableName(data, "rbdName", badNames);
    var names := if name.Some? then [PyStr(name.value)] else [];
    if withAlias then Ok([("en", PyList(names + [Field(data, "euRBDCode")]))])
    else if name.Some? then Ok([("en", PyList(names))])
    else Ok([])
  }

  /** `labels.get('en') or []`. */
  function EnglishNames(labels: Dict<PyVal>): seq<PyVal> {
    var en := Field(labels, "en");
    if en.PyList? then en.items else []
  }

  /** The labels with the alias are the plain labels with the EU code
      appended to the English names. */
  lemma AliasAppendsCode(data: Dict<PyVal>, badNames: set<string>)
    requires RbdLabels(data, badNames, false).Ok?
    ensures RbdLabels(data, badNames, true)
         == Ok([("en", PyList(EnglishNames(RbdLabels(data, badNames, false).value) + [Field(data, "euRBDCode")]))])
  {
  }

  // ---------------------------------------------------------------------
  // make_descriptions

  /** `make_descriptions(entry_data)`: the national template, or the
      international one for an international district. */
  function RbdDescriptions(templates: PyVal, countryDict: Option<PyVal>, langs: seq<string>, data: Dict<PyVal>)
    : Res<Dict<PyVal>>
  {
    var national :- DictGet(templates, PyStr("national"));
    if Field(data, "internationalRBD") == PyStr("Yes") then
      var international :- DictGet(templates, PyStr("international"));
      Descriptions(international, countryDict, langs)
    else Descriptions(national, countryDict, langs)
  }

  /** The template group is "international" exactly when the district says
      "Yes"; any other value, or none, gives "national". */
  lemma RbdDescriptionsTemplate(templates: Dict<PyVal>, countryDict: Option<PyVal>, langs: seq<string>, data: Dict<PyVal>)
    ensures RbdDescriptions(PyDict(templates), countryDict, langs, data)
         == Descriptions(Field(templates, if Field(data, "internationalRBD") == PyStr("Yes") then "international" else "national"),
                         countryDict, langs)
  {
  }

  // ---------------------------------------------------------------------
  // make_protoclaims

  /** The values of the bot a district is processed with. */
  datatype RbdConfig = RbdConfig(
    mappings: Dict<PyVal>, year: string, langs: seq<string>, badNames: set<string>,
    demo: bool, createNew: bool, cutoff: Option<int>,
    idItems: Dict<string>, countries: PyVal, authorities: PyVal, areaUnit: string,
    countryDict: Option<PyVal>, descriptions: PyVal, ref: Option<Reference>)

  /** `make_protoclaims(entry_data, country_q)`: class (P31), EU code
      (P2965), country (P17), competent authority (P137) and area in km²
      (P2046). The code, the authority and the area must be present. */
  function RbdProtoclaims(authorities: PyVal, areaUnit: string, countryQ: PyVal, data: Dict<PyVal>): (r: Res<Dict<Protoclaim>>)
    ensures "euRBDCode" !in Keys(data) ==> r == Err(KeyFault("euRBDCode"))
    ensures "euRBDCode" in Keys(data) && countryQ.PyStr? && AuthorityKey !in Keys(data) ==> r == Err(KeyFault(AuthorityKey))
  {
    var code :- Index(PyDict(data), PyStr("euRBDCode"));
    var country :- ItemOf(countryQ, "QtoItemPage");
    var caName :- Index(PyDict(data), PyStr(AuthorityKey));
    var caQ :- Index(authorities, caName);
    var authority :- ItemOf(caQ, "QtoItemPage");
    var area :- Index(PyDict(data), PyStr("rbdArea"));
    Ok([("P31", One(Plain(ItemValue(RbdQ)))),
        (RbdProp, One(Plain(PlainValue(code)))),
        ("P17", One(Plain(ItemValue(country)))),
        ("P137", One(Plain(ItemValue(authority)))),
        ("P2046", One(Plain(QuantityValue(area, Some(areaUnit)))))])
  }

  /** The protoclaims have exactly the five properties, in this order: the
      class, the district's code verbatim, the country's item, the item its
      authority is mapped to, and its area in the area unit. */
  lemma RbdProtoclaimsShape(authorities: PyVal, areaUnit: string, countryQ: PyVal, data: Dict<PyVal>)
    requires RbdProtoclaims(authorities, areaUnit, countryQ, data).Ok?
    ensures countryQ.PyStr? && Field(data, AuthorityKey).PyStr? && authorities.PyDict?
    ensures var ca := Field(authorities.entries, Field(data, AuthorityKey).s);
            var pcs := RbdProtoclaims(authorities, areaUnit, countryQ, data).value;
            ca.PyStr? &&
            pcs == [("P31", One(Plain(ItemValue(RbdQ)))),
                    (RbdProp, One(Plain(PlainValue(Field(data, "euRBDCode"))))),
                    ("P17", One(Plain(ItemValue(ItemId(countryQ.s))))),
                    ("P137", One(Plain(ItemValue(ItemId(ca.s))))),
                    ("P2046", One(Plain(QuantityValue(Field(data, "rbdArea"), Some(areaUnit)))))]
  {
    assert Index(PyDict(data), PyStr("euRBDCode")).Ok?;
    assert Index(PyDict(data), PyStr(AuthorityKey)).Ok?;
    assert Index(PyDict(data), PyStr("rbdArea")).Ok?;
    var caName := Field(data, AuthorityKey);
    assert Index(authorities, caName).Ok?;
    assert ItemOf(Index(authorities, caName).value, "QtoItemPage").Ok?;
  }

  // ---------------------------------------------------------------------
  // process_single_rbd

  /** The identifier claim of a new item: the district's EU code. */
  function RbdIdClaim(data: Dict<PyVal>): Claim {
    Claim(RbdProp, PlainValue(Field(data, "euRBDCode")))
  }

  /** Labels (with the code as alias), descriptions and protoclaims of a
      district of `country`. */
  function RbdRecord(cfg: RbdConfig, country: PyVal, data: Dict<PyVal>)
    : Res<(Dict<PyVal>, Dict<PyVal>, Dict<Protoclaim>)>
  {
    var labels :- RbdLabels(data, cfg.badNames, true);
    var descriptions :- RbdDescriptions(cfg.descriptions, cfg.countryDict, cfg.langs, data);
    var countryQ :- CountryQ(cfg.countries, country);
    var protoclaims :- RbdProtoclaims(cfg.authorities, cfg.areaUnit, countryQ, data);
    Ok((labels, descriptions, protoclaims))
  }

  /** `create_new_rbd_item(entry_data, country)`: the creation call, with
      the labels without alias, and the new item. */
  function NewRbdItem(cfg: RbdConfig, data: Dict<PyVal>): Res<(Action, Entity)> {
    var labels :- RbdLabels(data, cfg.badNames, false);
    var descriptions :- RbdDescriptions(cfg.descriptions, cfg.countryDict, cfg.langs, data);
    Ok((CreateItem(labels, descriptions, RbdIdClaim(data)), Created(RbdIdClaim(data))))
  }

  /** Writing a district to `item`. */
  function WriteRbd(cfg: RbdConfig, country: PyVal, data: Dict<PyVal>, item: Entity): Res<seq<Action>> {
    var record :- RbdRecord(cfg, country, data);
    CommitActions(record.0, record.1, record.2, item, cfg.ref)
  }

  /** `process_single_rbd(data, item, country)`: in demo mode a preview,
      otherwise the writes to the item, created first when there is none. */
  function RbdEffect(cfg: RbdConfig, country: PyVal, entry: PyVal, item: Option<Entity>): Res<Effect> {
    if !entry.PyDict? then Err(TypeFault("'" + TypeName(entry) + "' object has no attribute 'get'"))
    else if cfg.demo then
      var record :- RbdRecord(cfg, country, entry.entries);
      var preview :- NewPreviewItem(record.0, record.1, record.2, PreviewQid(item), cfg.ref);
      Ok(Effect([], [preview]))
    else if item.None? then
      var made :- NewRbdItem(cfg, entry.entries);
      var writes :- WriteRbd(cfg, country, entry.entries, made.1);
      Ok(Effect([made.0] + writes, []))
    else
      var writes :- WriteRbd(cfg, country, entry.entries, item.value);
      Ok(Effect(writes, []))
  }

  /** `process_single_rbd` as written: `create_new_rbd_item` returns None,
      so `item.exists()` fails right after the item is created. */
  function RbdEffectAsWritten(cfg: RbdConfig, country: PyVal, entry: PyVal, item: Option<Entity>): Res<Effect> {
    if !cfg.demo && item.None? && entry.PyDict? then
      var made :- NewRbdItem(cfg, entry.entries);
      Err(TypeFault("'NoneType' object has no attribute 'exists'"))
    else RbdEffect(cfg, country, entry, item)
  }

  /** As written, a district without an item is never written: the item is
      created and the bot stops. */
  lemma NewRbdItemLost(cfg: RbdConfig, country: PyVal, data: Dict<PyVal>)
    requires !cfg.demo && NewRbdItem(cfg, data).Ok?
    ensures RbdEffectAsWritten(cfg, country, PyDict(data), None)
         == Err(TypeFault("'NoneType' object has no attribute 'exists'"))
  {
  }

  /** Writing a district creates nothing and targets the given item only. */
  lemma WriteRbdTargets(cfg: RbdConfig, country: PyVal, data: Dict<PyVal>, item: Entity)
    requires WriteRbd(cfg, country, data, item).Ok?
    ensures forall a :: a in WriteRbd(cfg, country, data, item).value ==> !a.Creates() && a.item == item
  {
    var record := RbdRecord(cfg, country, data).value;
    CommitActionsTarget(record.0, record.1, record.2, item, cfg.ref);
  }

  lemma NewRbdEffect(cfg: RbdConfig, country: PyVal, data: Dict<PyVal>)
    requires !cfg.demo && RbdEffect(cfg, country, PyDict(data), None).Ok?
    ensures NewRbdItem(cfg, data).Ok? && NewRbdItem(cfg, data).value.1 == Created(RbdIdClaim(data))
    ensures WriteRbd(cfg, country, data, Created(RbdIdClaim(data))).Ok?
    ensures RbdEffect(cfg, country, PyDict(data), None).value.actions
         == [NewRbdItem(cfg, data).value.0] + WriteRbd(cfg, country, data, Created(RbdIdClaim(data))).value
  {
  }

  /** Once the created item is returned, the creation comes first and every
      later write goes to the created item. */
  lemma NewRbdItemWritten(cfg: RbdConfig, country: PyVal, data: Dict<PyVal>)
    requires !cfg.demo && RbdEffect(cfg, country, PyDict(data), None).Ok?
    ensures NewRbdItem(cfg, data).Ok?
    ensures var actions := RbdEffect(cfg, country, PyDict(data), None).value.actions;
            |actions| >= 1 && actions[0] == NewRbdItem(cfg, data).value.0 &&
            forall i :: 1 <= i < |actions| ==> !actions[i].Creates() && actions[i].item == Created(RbdIdClaim(data))
  {
    NewRbdEffect(cfg, country, data);
    var made := NewRbdItem(cfg, data).value;
    WriteRbdTargets(cfg, country, data, made.1);
    WritesAfterCreation(made.0, WriteRbd(cfg, country, data, made.1).value, made.1);
  }

  /** The creation call carries the labels without the alias, the
      descriptions and the EU code as identifier claim. */
  lemma NewRbdItemCall(cfg: RbdConfig, data: Dict<PyVal>)
    requires NewRbdItem(cfg, data).Ok?
    ensures RbdLabels(data, cfg.badNames, false).Ok?
    ensures RbdDescriptions(cfg.descriptions, cfg.countryDict, cfg.langs, data).Ok?
    ensures NewRbdItem(cfg, data).value.0
         == CreateItem(RbdLabels(data, cfg.badNames, false).value,
                       RbdDescriptions(cfg.descriptions, cfg.countryDict, cfg.langs, data).value,
                       Claim(RbdProp, PlainValue(Field(data, "euRBDCode"))))
  {
  }

  /** Writing a district to an existing item creates nothing and targets
      that item only; demo mode calls nothing and makes one preview. */
  lemma RbdEffectKinds(cfg: RbdConfig, country: PyVal, entry: PyVal, item: Option<Entity>)
    requires RbdEffect(cfg, country, entry, item).Ok?
    ensures cfg.demo ==> RbdEffect(cfg, country, entry, item).value.actions == [] &&
                         |RbdEffect(cfg, country, entry, item).value.previews| == 1
    ensures !cfg.demo ==> RbdEffect(cfg, country, entry, item).value.previews == []
    ensures !cfg.demo && item.Some? ==>
              forall a :: a in RbdEffect(cfg, country, entry, item).value.actions ==> !a.Creates() && a.item == item.value
  {
    if !cfg.demo && item.Some? {
      WriteRbdTargets(cfg, country, entry.entries, item.value);
    }
  }

  // ---------------------------------------------------------------------
  // process_country_rbd

  /** `rbd_code in self.rbd_id_items.keys()`, and the item it names. The
      keys form a list, so a code that is not a string is simply absent. */
  function RbdKnown(idItems: Dict<string>, entry: PyVal): (r: Res<Option<Entity>>)
    ensures entry.PyDict? ==> r.Ok?
    ensures r.Ok? && r.value.Some? <==>
              entry.PyDict? && Field(entry.entries, "euRBDCode").PyStr? &&
              Field(entry.entries, "euRBDCode").s in Keys(idItems)
    ensures r.Ok? && r.value.Some? ==>
              r.value.value == Existing(ItemId(Get(idItems, Field(entry.entries, "euRBDCode").s).value))
  {
    var code :- DictGet(entry, PyStr("euRBDCode"));
    if code.PyStr? && code.s in Keys(idItems) then Ok(Some(Existing(ItemId(Get(idItems, code.s).value))))
    else Ok(None)
  }

  function KnownOf(cfg: RbdConfig): PyVal -> Res<Option<Entity>> {
    entry => RbdKnown(cfg.idItems, entry)
  }

  function EffectOf(cfg: RbdConfig, country: PyVal): (PyVal, Option<Entity>) -> Res<Effect> {
    (entry, item) => RbdEffect(cfg, country, entry, item)
  }

  /** The loop of `process_country_rbd(country, data)`. */
  function RbdRun(cfg: RbdConfig, country: PyVal, entries: seq<PyVal>): Res<Progress> {
    Drive(entries, cfg.cutoff, cfg.createNew, KnownOf(cfg), EffectOf(cfg, country))
  }

  /** `process_country_rbd(country, data)`: the country and the competent
      authorities are checked before any district is processed. */
  function CountryRun(cfg: RbdConfig, country: PyVal, entries: seq<PyVal>): Res<Progress> {
    var checked :- CheckCountry(cfg.countries, cfg.langs, country);
    var authorities :- AuthorityCheck(cfg.authorities, entries);
    RbdRun(cfg, country, entries)
  }

  /** Nothing is processed unless the country is mapped with its item and
      every district names a competent authority; the country claim's
      lookup then cannot fail. */
  lemma CountryRunChecked(cfg: RbdConfig, country: PyVal, entries: seq<PyVal>)
    requires CountryRun(cfg, country, entries).Ok?
    ensures CheckCountry(cfg.countries, cfg.langs, country).Ok?
    ensures CountryQ(cfg.countries, country).Ok? && Truthy(CountryQ(cfg.countries, country).value)
    ensures forall i :: 0 <= i < |entries| ==> HasAuthority(entries[i])
    ensures CountryRun(cfg, country, entries) == RbdRun(cfg, country, entries)
  {
    CheckedCountryHasQid(cfg.countries, cfg.langs, country);
    PrimeAuthoritiesEach(entries);
  }

  /** Without `new` the run writes only to known districts and creates
      none; it never processes more districts than a positive cutoff. */
  lemma RbdRunBounds(cfg: RbdConfig, country: PyVal, entries: seq<PyVal>)
    requires RbdRun(cfg, country, entries).Ok?
    ensures cfg.cutoff.Some? && cfg.cutoff.value > 0 ==> RbdRun(cfg, country, entries).value.count <= cfg.cutoff.value
    ensures RbdRun(cfg, country, entries).value.processed == Selected(Eligibility(entries, KnownOf(cfg), cfg.createNew), cfg.cutoff)
    ensures !cfg.createNew ==> NoCreation(RbdRun(cfg, country, entries).value.effect.actions)
    ensures !cfg.createNew ==>
              forall i :: i in RbdRun(cfg, country, entries).value.processed ==>
                i < |entries| && RbdKnown(cfg.idItems, entries[i]).Ok? && RbdKnown(cfg.idItems, entries[i]).value.Some?
  {
    DriveSelects(entries, cfg.cutoff, cfg.createNew, KnownOf(cfg), EffectOf(cfg, country));
    DriveWithinCutoff(entries, cfg.cutoff, cfg.createNew, KnownOf(cfg), EffectOf(cfg, country));
    if !cfg.createNew {
      forall e, x | EffectOf(cfg, country)(e, Some(x)).Ok?
        ensures NoCreation(EffectOf(cfg, country)(e, Some(x)).value.actions)
      {
        RbdEffectKinds(cfg, country, e, Some(x));
        var actions := EffectOf(cfg, country)(e, Some(x)).value.actions;
        forall i | 0 <= i < |actions| ensures !actions[i].Creates() {
          assert actions[i] in actions;
        }
      }
      DriveNoCreation(entries, cfg.cutoff, KnownOf(cfg), EffectOf(cfg, country));
      DriveOnlyKnown(entries, cfg.cutoff, KnownOf(cfg), EffectOf(cfg, country));
    }
  }

  /** Demo mode calls nothing and previews each processed district once;
      otherwise nothing is previewed. */
  lemma RbdRunModes(cfg: RbdConfig, country: PyVal, entries: seq<PyVal>)
    requires RbdRun(cfg, country, entries).Ok?
    ensures cfg.demo ==> RbdRun(cfg, country, entries).value.effect.actions == [] &&
                         |RbdRun(cfg, country, entries).value.effect.previews| == RbdRun(cfg, country, entries).value.count
    ensures !cfg.demo ==> RbdRun(cfg, country, entries).value.effect.previews == []
  {
    forall e, k | EffectOf(cfg, country)(e, k).Ok?
      ensures cfg.demo ==> EffectOf(cfg, country)(e, k).value.actions == [] &&
                           |EffectOf(cfg, country)(e, k).value.previews| == 1
      ensures !cfg.demo ==> EffectOf(cfg, country)(e, k).value.previews == []
    {
      RbdEffectKinds(cfg, country, e, k);
    }
    if cfg.demo {
      DriveDemo(entries, cfg.cutoff, cfg.createNew, KnownOf(cfg), EffectOf(cfg, country));
    } else {
      DriveNoPreviews(entries, cfg.cutoff, cfg.createNew, KnownOf(cfg), EffectOf(cfg, country));
    }
  }

  // ---------------------------------------------------------------------
  // process_all_rbd

  /** What `process_all_rbd(data)` reads before the districts: the
      descriptions are checked, then the report's country, the dataset of
      the year and that country, and the reference. */
  function RbdPrelude(mappings: Dict<PyVal>, year: string, langs: seq<string>, descriptions: PyVal, data: PyVal)
    : (r: Res<(PyVal, PyVal, Reference)>)
    ensures r.Ok? ==> data.PyDict? && r.value.0 == Field(data.entries, "countryCode")
  {
    var datasets :- DictGet(Field(mappings, "dataset"), PyStr(year));
    var valid :- ValidateMappingOf(descriptions, langs, "descriptions");
    var country :- DictGet(data, PyStr("countryCode"));
    var datasetQ :- Index(datasets, country);
    var ref :- MakeRef(datasetQ, data);
    Ok((country, datasetQ, ref))
  }

  /** The reference cites the dataset mapped for the year and the report's
      country, and the description templates were checked. */
  lemma RbdPreludeValues(mappings: Dict<PyVal>, year: string, langs: seq<string>, descriptions: PyVal, data: PyVal)
    requires RbdPrelude(mappings, year, langs, descriptions, data).Ok?
    ensures ValidateMappingOf(descriptions, langs, "descriptions").Ok?
    ensures var pre := RbdPrelude(mappings, year, langs, descriptions, data).value;
            var datasets := Field(Field(mappings, "dataset").entries, year);
            Field(mappings, "dataset").PyDict? && datasets.PyDict? && pre.0.PyStr? &&
            pre.1 == Field(datasets.entries, pre.0.s) && pre.1.PyStr? &&
            pre.2.sourceTest[0] == Claim("P248", ItemValue(ItemId(pre.1.s)))
  {
    var datasets := DictGet(Field(mappings, "dataset"), PyStr(year)).value;
    var country := DictGet(data, PyStr("countryCode")).value;
    assert Index(datasets, country).Ok?;
  }

  /** `process_all_rbd(data)`: the districts are listified and processed
      with the reference of the report. */
  function RbdAll(cfg: RbdConfig, data: PyVal): Res<Progress> {
    var pre :- RbdPrelude(cfg.mappings, cfg.year, cfg.langs, cfg.descriptions, data);
    CountryRun(cfg.(ref := Some(pre.2)), pre.0, Listify(Field(data.entries, "RBD")))
  }

  // ---------------------------------------------------------------------
  // The bot

  /** `RbdBot`: the base bot, the area unit's item, and the tables read
      when it starts. */
  class RbdBot {
    const base: WfdBot
    const countries: PyVal
    const authorities: PyVal
    const idItems: Dict<string>
    const areaUnit: string

    /** `RbdBot(mappings, year, new, cutoff)`, given what `__init__` reads
        (`RbdInit`) and the item of the unit km². */
    constructor(mappings: Dict<PyVal>, year: string, createNew: bool, cutoff: Option<int>,
                demo: bool, badNames: set<string>, tables: RbdTables, areaUnit: string)
      ensures fresh(base) && fresh(base.wd) && base.wd.log == [] && base.previews == []
      ensures base.mappings == mappings && base.year == year && base.createNew == createNew
      ensures base.cutoff == cutoff && base.demo == demo && base.badNames == badNames && base.langs == Langs
      ensures base.countryDict.None? && base.ref.None? && base.descriptions == tables.descriptions
      ensures countries == tables.countries && authorities == tables.authorities && idItems == tables.idItems
      ensures this.areaUnit == areaUnit
    {
      base := new WfdBot(mappings, year, createNew, cutoff, demo, badNames);
      countries := tables.countries;
      authorities := tables.authorities;
      idItems := tables.idItems;
      this.areaUnit := areaUnit;
      new;
      base.descriptions := tables.descriptions;
    }

    /** The values a district is processed with. */
    function Config(): RbdConfig
      reads base`countryDict, base`descriptions, base`ref
    {
      RbdConfig(base.mappings, base.year, base.langs, base.badNames, base.demo, base.createNew, base.cutoff,
                idItems, countries, authorities, areaUnit, base.countryDict, base.descriptions, base.ref)
    }

    /** `check_all_competent_authorities(data, country)`. */
    method CheckAllCompetentAuthorities(entries: seq<PyVal>) returns (r: Res<()>)
      ensures r == AuthorityCheck(authorities, entries)
    {
      var found: seq<PyVal> := [];
      var i := 0;
      assert entries[..0] == [];
      while i < |entries|
        invariant 0 <= i <= |entries|
        invariant MapAll(entries[..i], PrimeAuthority) == Ok(found)
      {
        var ca := PrimeAuthority(entries[i]);
        MapAllStep(entries, PrimeAuthority, i);
        if ca.Err? {
          return Err(ca.error);
        }
        found := found + [ca.value];
        i := i + 1;
      }
      assert entries[..i] == entries;
      r := ValidateMappingValues(authorities, found, "CompetentAuthority");
    }

    /** `make_descriptions(entry_data)`. */
    method MakeDescriptions(data: Dict<PyVal>) returns (r: Res<Dict<PyVal>>)
      ensures r == RbdDescriptions(base.descriptions, base.countryDict, base.langs, data)
    {
      var template := DictGet(base.descriptions, PyStr("national"));
      if template.Err? {
        return Err(template.error);
      }
      if Field(data, "internationalRBD") == PyStr("Yes") {
        template := DictGet(base.descriptions, PyStr("international"));
        if template.Err? {
          return Err(template.error);
        }
      }
      r := base.MakeDescriptions(template.value);
    }

    /** `create_new_rbd_item(entry_data, country)`, returning the item it
        creates. */
    method CreateNewRbdItem(data: Dict<PyVal>) returns (r: Res<Entity>)
      modifies base.wd
      ensures r.Ok? <==> NewRbdItem(Config(), data).Ok?
      ensures r.Ok? ==> r.value == NewRbdItem(Config(), data).value.1 &&
                        base.wd.log == old(base.wd.log) + [NewRbdItem(Config(), data).value.0]
    {
      var labels := RbdLabels(data, base.badNames, false);
      if labels.Err? {
        return Err(labels.error);
      }
      var descriptions := MakeDescriptions(data);
      if descriptions.Err? {
        return Err(descriptions.error);
      }
      var item := base.wd.CreateNewItem(labels.value, descriptions.value, RbdIdClaim(data));
      r := Ok(item);
    }

    /** The labels, descriptions and protoclaims of a district. */
    method MakeRecord(country: PyVal, data: Dict<PyVal>) returns (r: Res<(Dict<PyVal>, Dict<PyVal>, Dict<Protoclaim>)>)
      ensures r == RbdRecord(Config(), country, data)
    {
      var labels := RbdLabels(data, base.badNames, true);
      if labels.Err? {
        return Err(labels.error);
      }
      var descriptions := MakeDescriptions(data);
      if descriptions.Err? {
        return Err(descriptions.error);
      }
      var countryQ := CountryQ(countries, country);
      if countryQ.Err? {
        return Err(countryQ.error);
      }
      var protoclaims := RbdProtoclaims(authorities, areaUnit, countryQ.value, data);
      if protoclaims.Err? {
        return Err(protoclaims.error);
      }
      r := Ok((labels.value, descriptions.value, protoclaims.value));
    }

    /** `process_single_rbd(data, item, country)`. */
    method ProcessSingleRbd(entry: PyVal, item: Option<Entity>, country: PyVal) returns (r: Res<()>)
      modifies base.wd, base`previews
      ensures r.Ok? <==> RbdEffect(Config(), country, entry, item).Ok?
      ensures r.Ok? ==>
                base.wd.log == old(base.wd.log) + RbdEffect(Config(), country, entry, item).value.actions &&
                base.previews == old(base.previews) + RbdEffect(Config(), country, entry, item).value.previews
    {
      if !entry.PyDict? {
        return Err(TypeFault("'" + TypeName(entry) + "' object has no attribute 'get'"));
      }
      if base.demo {
        r := PreviewSingleRbd(entry.entries, item, country);
      } else {
        r := WriteSingleRbd(entry.entries, item, country);
      }
    }

    /** `process_single_rbd` in demo mode: the district's preview. */
    method PreviewSingleRbd(data: Dict<PyVal>, item: Option<Entity>, country: PyVal) returns (r: Res<()>)
      requires base.demo
      modifies base`previews
      ensures r.Ok? <==> RbdEffect(Config(), country, PyDict(data), item).Ok?
      ensures r.Ok? ==>
                RbdEffect(Config(), country, PyDict(data), item).value.actions == [] &&
                base.previews == old(base.previews) + RbdEffect(Config(), country, PyDict(data), item).value.previews
    {
      var record := MakeRecord(country, data);
      if record.Err? {
        return Err(record.error);
      }
      var preview := NewPreviewItem(record.value.0, record.value.1, record.value.2, PreviewQid(item), base.ref);
      if preview.Err? {
        return Err(preview.error);
      }
      base.previews := base.previews + [preview.value];
      r := Ok(());
    }

    /** `process_single_rbd` writing to Wikidata: the item is created
        first when there is none. */
    method WriteSingleRbd(data: Dict<PyVal>, item: Option<Entity>, country: PyVal) returns (r: Res<()>)
      requires !base.demo
      modifies base.wd
      ensures r.Ok? <==> RbdEffect(Config(), country, PyDict(data), item).Ok?
      ensures r.Ok? ==>
                RbdEffect(Config(), country, PyDict(data), item).value.previews == [] &&
                base.wd.log == old(base.wd.log) + RbdEffect(Config(), country, PyDict(data), item).value.actions
    {
      if item.None? {
        var made := CreateNewRbdItem(data);
        if made.Err? {
          return Err(made.error);
        }
        r := WriteRecordTo(data, made.value, country);
        AppendAssoc(old(base.wd.log), [NewRbdItem(Config(), data).value.0],
                    if r.Ok? then WriteRbd(Config(), country, data, made.value).value else []);
      } else {
        r := WriteRecordTo(data, item.value, country);
      }
    }

    /** Writing a district's record to `target`. */
    method WriteRecordTo(data: Dict<PyVal>, target: Entity, country: PyVal) returns (r: Res<()>)
      modifies base.wd
      ensures r.Ok? <==> WriteRbd(Config(), country, data, target).Ok?
      ensures r.Ok? ==> base.wd.log == old(base.wd.log) + WriteRbd(Config(), country, data, target).value
    {
      var record := MakeRecord(country, data);
      if record.Err? {
        return Err(record.error);
      }
      r := base.CommitRecord(record.value.0, record.value.1, record.value.2, target);
    }

    /** One turn of the loop of `process_country_rbd`: look up the
        district's item and process the district when it is known or `new`
        is set. The loop's state goes from `p` to `next`; `log` and
        `previews` are what the calls and previews were before the loop. */
    method ProcessEntry(country: PyVal, entries: seq<PyVal>, i: nat, ghost p: Progress,
                        ghost log: seq<Action>, ghost previews: seq<PreviewItem>)
      returns (r: Res<()>, processed: bool, ghost next: Progress)
      requires i < |entries| && !Stop(base.cutoff, p.count)
      requires Drive(entries[..i], base.cutoff, base.createNew, KnownOf(Config()), EffectOf(Config(), country)) == Ok(p)
      requires base.wd.log == log + p.effect.actions && base.previews == previews + p.effect.previews
      modifies base.wd, base`previews
      ensures Config() == old(Config())
      ensures r.Err? ==> Drive(entries, base.cutoff, base.createNew, KnownOf(Config()), EffectOf(Config(), country)).Err?
      ensures r.Ok? ==>
                Drive(entries[..i + 1], base.cutoff, base.createNew, KnownOf(Config()), EffectOf(Config(), country)) == Ok(next) &&
                next.count == (if processed then p.count + 1 else p.count) &&
                base.wd.log == log + next.effect.actions && base.previews == previews + next.effect.previews
    {
      var cfg := Config();
      DriveNext(entries, i, base.cutoff, base.createNew, KnownOf(cfg), EffectOf(cfg, country), p);
      var item := RbdKnown(cfg.idItems, entries[i]);
      assert KnownOf(cfg)(entries[i]) == item;
      if item.Err? {
        return Err(item.error), false, p;
      }
      if item.value.None? && !base.createNew {
        return Ok(()), false, p;
      }
      processed := true;
      r, next := ProcessEligible(country, entries, i, p, log, previews, item.value);
    }

    /** The rest of a turn for a district that is processed. */
    method ProcessEligible(country: PyVal, entries: seq<PyVal>, i: nat, ghost p: Progress,
                           ghost log: seq<Action>, ghost previews: seq<PreviewItem>, item: Option<Entity>)
      returns (r: Res<()>, ghost next: Progress)
      requires i < |entries|
      requires base.wd.log == log + p.effect.actions && base.previews == previews + p.effect.previews
      modifies base.wd, base`previews
      ensures Config() == old(Config())
      ensures r.Ok? <==> EffectOf(Config(), country)(entries[i], item).Ok?
      ensures r.Ok? ==>
                next == Progress(Then(p.effect, EffectOf(Config(), country)(entries[i], item).value), p.count + 1, p.processed + [i]) &&
                base.wd.log == log + next.effect.actions && base.previews == previews + next.effect.previews
    {
      ghost var e := EffectOf(Config(), country)(entries[i], item);
      assert e == RbdEffect(Config(), country, entries[i], item);
      r := ProcessSingleRbd(entries[i], item, country);
      next := p;
      if r.Ok? {
        ThenAppends(log, previews, p.effect, e.value);
        next := Progress(Then(p.effect, e.value), p.count + 1, p.processed + [i]);
      }
    }

    /** The loop of `process_country_rbd(country, data)`, until the cutoff. */
    method ProcessDistricts(country: PyVal, entries: seq<PyVal>) returns (r: Res<()>)
      modifies base.wd, base`previews
      ensures Config() == old(Config())
      ensures r.Ok? <==> RbdRun(Config(), country, entries).Ok?
      ensures r.Ok? ==>
                base.wd.log == old(base.wd.log) + RbdRun(Config(), country, entries).value.effect.actions &&
                base.previews == old(base.previews) + RbdRun(Config(), country, entries).value.effect.previews
    {
      var cfg := Config();
      ghost var known := KnownOf(cfg);
      ghost var single := EffectOf(cfg, country);
      var count := 0;
      ghost var p := Progress(Effect([], []), 0, []);
      var i := 0;
      assert entries[..0] == [];
      while i < |entries|
        invariant 0 <= i <= |entries|
        invariant Config() == cfg
        invariant Drive(entries[..i], cfg.cutoff, cfg.createNew, known, single) == Ok(p)
        invariant count == p.count
        invariant base.wd.log == old(base.wd.log) + p.effect.actions
        invariant base.previews == old(base.previews) + p.effect.previews
      {
        if Stop(base.cutoff, count) {
          DriveStopped(entries, i, cfg.cutoff, cfg.createNew, known, single);
          return Ok(());
        }
        var done, processed, next := ProcessEntry(country, entries, i, p, old(base.wd.log), old(base.previews));
        if done.Err? {
          return done;
        }
        p := next;
        if processed {
          count := count + 1;
        }
        i := i + 1;
      }
      assert entries[..i] == entries;
      r := Ok(());
    }

    /** `process_country_rbd(country, data)`. */
    method ProcessCountryRbd(country: PyVal, entries: seq<PyVal>) returns (r: Res<()>)
      modifies base.wd, base`previews
      ensures r.Ok? <==> CountryRun(Config(), country, entries).Ok?
      ensures r.Ok? ==>
                base.wd.log == old(base.wd.log) + CountryRun(Config(), country, entries).value.effect.actions &&
                base.previews == old(base.previews) + CountryRun(Config(), country, entries).value.effect.previews
    {
      var checked := CheckCountry(countries, base.langs, country);
      if checked.Err? {
        return checked;
      }
      r := CheckAllCompetentAuthorities(entries);
      if r.Err? {
        return;
      }
      r := ProcessDistricts(country, entries);
    }

    /** The first part of `process_all_rbd(data)`: the checks and lookups
        before the districts, which set `dataset_q` and `ref`. */
    method ReadReport(data: PyVal) returns (r: Res<PyVal>)
      modifies base`datasetQ, base`ref
      ensures r.Ok? <==> RbdPrelude(base.mappings, base.year, base.langs, base.descriptions, data).Ok?
      ensures r.Ok? ==>
                var pre := RbdPrelude(base.mappings, base.year, base.langs, base.descriptions, data).value;
                r.value == pre.0 && base.datasetQ == pre.1 && base.ref == Some(pre.2)
    {
      var datasets := DictGet(Field(base.mappings, "dataset"), PyStr(base.year));
      if datasets.Err? {
        return Err(datasets.error);
      }
      var valid := ValidateMappingOf(base.descriptions, base.langs, "descriptions");
      if valid.Err? {
        return Err(valid.error);
      }
      var country := DictGet(data, PyStr("countryCode"));
      if country.Err? {
        return Err(country.error);
      }
      var datasetQ := Index(datasets.value, country.value);
      if datasetQ.Err? {
        return Err(datasetQ.error);
      }
      base.datasetQ := datasetQ.value;
      var ref := MakeRef(base.datasetQ, data);
      if ref.Err? {
        return Err(ref.error);
      }
      base.ref := Some(ref.value);
      r := Ok(country.value);
    }

    /** `process_all_rbd(data)`. */
    method ProcessAllRbd(data: PyVal) returns (r: Res<()>)
      modifies base.wd, base`previews, base`datasetQ, base`ref
      ensures r.Ok? <==> RbdAll(old(Config()), data).Ok?
      ensures r.Ok? ==>
                var pre := RbdPrelude(base.mappings, base.year, base.langs, base.descriptions, data).value;
                base.datasetQ == pre.1 && base.ref == Some(pre.2) &&
                base.wd.log == old(base.wd.log) + RbdAll(old(Config()), data).value.effect.actions &&
                base.previews == old(base.previews) + RbdAll(old(Config()), data).value.effect.previews
    {
      ghost var cfg := Config();
      var country := ReadReport(data);
      if country.Err? {
        return Err(country.error);
      }
      assert Config() == cfg.(ref := base.ref);
      r := ProcessCountryRbd(country.value, Listify(Field(data.entries, "RBD")));
    }
  }
}
