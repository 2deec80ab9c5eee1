/** RBD.py: the older bot for river basin districts. It stands alone (it
    does not build on a base bot): the known districts are inverted as in
    WFD/RBD.py, the description templates, the country and the competent
    authorities are checked, and each district of the report becomes labels
    (as `{'language', 'value'}` dicts) and claims on its item, or on a new
    item made with its labels and descriptions when `new` is set. */
module LegacyRbd {
  import opened Wrappers
  import opened Text
  import opened Py
  import opened Wikidata
  import opened Format
  import opened Commit
  import opened Driver
  import Rbd
  import Base

  /** `dataset_q`: the dataset every claim is sourced to. */
  const LegacyDatasetQ := "Q27074294"
  /** `area_unit`: the entity of the square kilometre. */
  const LegacyAreaUnit := "http://www.wikidata.org/entity/Q712226"
  /** `langs`: the languages every description must exist in. */
  const LegacyLangs: seq<string> := ["en", "sv"]

  // ---------------------------------------------------------------------
  // __init__

  /** `mappings['countryCode']`, `mappings['CompetentAuthority']`,
      `mappings['descriptions']` and `load_existing_rbd()`, whose inversion
      is the one of WFD/RBD.py. */
  function LegacyInit(mappings: Dict<PyVal>, itemIds: Dict<Dict<string>>): (r: Res<Rbd.RbdTables>)
    ensures r.Ok? <==> "countryCode" in Keys(mappings) && "CompetentAuthority" in Keys(mappings) &&
                       "descriptions" in Keys(mappings) && Rbd.UniqueCodes(itemIds)
    ensures r.Ok? ==> Rbd.RbdIdItems(itemIds).Ok? &&
                      r.value == Rbd.RbdTables(Field(mappings, "countryCode"), Field(mappings, "CompetentAuthority"),
                                               Field(mappings, "descriptions"), Rbd.RbdIdItems(itemIds).value)
  {
    Rbd.RbdIdItemsOk(itemIds);
    var countries :- Index(PyDict(mappings), PyStr("countryCode"));
    var authorities :- Index(PyDict(mappings), PyStr("CompetentAuthority"));
    var descriptions :- Index(PyDict(mappings), PyStr("descriptions"));
    var idItems :- Rbd.RbdIdItems(itemIds);
    Ok(Rbd.RbdTables(countries, authorities, descriptions, idItems))
  }

  // ---------------------------------------------------------------------
  // check_all_descriptions

  /** `v.keys()`: only a dict has keys. */
  function KeysOf(v: PyVal): (r: Res<set<string>>)
    ensures r.Ok? <==> v.PyDict?
    ensures r.Ok? ==> r.value == Keys(v.entries)
  {
    if v.PyDict? then Ok(Keys(v.entries))
    else Err(TypeFault("'" + TypeName(v) + "' object has no attribute 'keys'"))
  }

  /** `check_all_descriptions()`: the national and the international
      templates must both exist in every language. */
  function CheckAllDescriptions(descriptions: PyVal, langs: seq<string>): (r: Res<()>)
    ensures !descriptions.PyDict? ==> r.Err?
    ensures descriptions.PyDict? ==>
              var national := Field(descriptions.entries, "national");
              var international := Field(descriptions.entries, "international");
              (!(national.PyDict? && international.PyDict?) ==> r.Err? && r.error.TypeFault?) &&
              (national.PyDict? && international.PyDict? ==>
                 (r.Ok? <==> forall l :: l in langs ==> l in Keys(national.entries) && l in Keys(international.entries)) &&
                 (r.Err? ==> r == Err(BotErrorListing("The following languages need a description: ",
                                      set l | l in langs && (l !in Keys(national.entries) || l !in Keys(international.entries))))))
  {
    if !descriptions.PyDict? then Err(DictGet(descriptions, PyStr("national")).error)
    else
      var national := Field(descriptions.entries, "national");
      if !national.PyDict? then Err(KeysOf(national).error)
      else
        var international := Field(descriptions.entries, "international");
        if !international.PyDict? then Err(KeysOf(international).error)
        else
          var missing := set l | l in langs && (l !in Keys(national.entries) || l !in Keys(international.entries));
          if missing != {} then Err(BotErrorListing("The following languages need a description: ", missing))
          else
            assert forall l :: l in langs ==> l !in missing;
            Ok(())
  }

  // ---------------------------------------------------------------------
  // check_all_competent_authorities

  /** Values `set(...)` accepts: the strings and None of a report. */
  predicate Hashable(v: PyVal) {
    v.PyNone? || v.PyStr?
  }

  /** `set(found_ca) - set(keys)`, as names: the authorities not mapped. */
  function Unmapped(found: seq<PyVal>, keys: set<string>): set<string> {
    set v | v in found && v.PyStr? && v.s !in keys :: v.s
  }

  /** The message of the check; the set of names is joined after it. */
  function AuthorityMessage(countryEn: PyVal): string {
    "The following competent authroities should be created before processing " + Str(countryEn) + ": "
  }

  /** Every name found can go into a set. */
  predicate AllHashable(found: seq<PyVal>) {
    forall i :: 0 <= i < |found| ==> Hashable(found[i])
  }

  /** Every name found is a key of the mapping. */
  predicate AllMapped(found: seq<PyVal>, keys: set<string>) {
    forall i :: 0 <= i < |found| ==> found[i].PyStr? && found[i].s in keys
  }

  /** Some district gives None as its authority. */
  predicate SomeNone(found: seq<PyVal>) {
    exists i :: 0 <= i < |found| && found[i].PyNone?
  }

  /** `check_all_competent_authorities(data, country)`: the names of the
      districts' prime authorities, less the keys of the mapping, must be
      empty; otherwise they are reported with the country's English name. */
  function LegacyAuthorityCheck(countries: PyVal, authorities: PyVal, found: seq<PyVal>, country: PyVal): Res<()> {
    if !AllHashable(found) then Err(TypeFault("unhashable type"))
    else
      var keys :- KeysOf(authorities);
      if AllMapped(found, keys) then Ok(())
      else
        var entry :- DictGet(countries, country);
        var countryEn :- DictGet(entry, PyStr("en"));
        if SomeNone(found) then Err(TypeFault("sequence item: expected string, NoneType found"))
        else Err(BotErrorListing(AuthorityMessage(countryEn), Unmapped(found, keys)))
  }

  /** The whole check: every district must name its prime authority. */
  function AuthorityCheck(countries: PyVal, authorities: PyVal, entries: seq<PyVal>, country: PyVal): Res<()> {
    var found :- Rbd.PrimeAuthorities(entries);
    LegacyAuthorityCheck(countries, authorities, found, country)
  }

  /** The names found pass iff each is a string key of the mapping. */
  lemma FoundPass(countries: PyVal, authorities: Dict<PyVal>, found: seq<PyVal>, country: PyVal)
    ensures LegacyAuthorityCheck(countries, PyDict(authorities), found, country).Ok? <==>
              forall i :: 0 <= i < |found| ==> found[i].PyStr? && found[i].s in Keys(authorities)
  {
  }

  /** The districts pass iff each names a prime authority that is a key of
      the mapping. */
  lemma AuthoritiesMapped(countries: PyVal, authorities: Dict<PyVal>, entries: seq<PyVal>, country: PyVal)
    ensures AuthorityCheck(countries, PyDict(authorities), entries, country).Ok? <==>
              forall i :: 0 <= i < |entries| ==>
                Rbd.HasAuthority(entries[i]) && Field(entries[i].entries, Rbd.AuthorityKey).PyStr? &&
                Field(entries[i].entries, Rbd.AuthorityKey).s in Keys(authorities)
  {
    Rbd.PrimeAuthoritiesEach(entries);
    if Rbd.PrimeAuthorities(entries).Ok? {
      FoundPass(countries, authorities, Rbd.PrimeAuthorities(entries).value, country);
    }
  }

  /** Names found that are all strings, one of them unmapped, are reported
      after the country's English name. */
  lemma FoundReported(countries: Dict<PyVal>, authorities: Dict<PyVal>, found: seq<PyVal>, country: string)
    requires forall i :: 0 <= i < |found| ==> found[i].PyStr?
    requires Field(countries, country).PyDict?
    requires exists i :: 0 <= i < |found| && found[i].s !in Keys(authorities)
    ensures LegacyAuthorityCheck(PyDict(countries), PyDict(authorities), found, PyStr(country))
         == Err(BotErrorListing(AuthorityMessage(Field(Field(countries, country).entries, "en")),
                                Unmapped(found, Keys(authorities))))
  {
    var i :| 0 <= i < |found| && found[i].s !in Keys(authorities);
    assert !AllMapped(found, Keys(authorities));
    assert AllHashable(found) && !SomeNone(found);
    assert KeysOf(PyDict(authorities)) == Ok(Keys(authorities));
    assert DictGet(PyDict(countries), PyStr(country)) == Ok(Field(countries, country));
  }

  /** When every district names its authority by a string and the country
      has an entry, the unmapped authorities are reported, each once, after
      the country's English name. */
  lemma UnmappedAuthoritiesReported(countries: Dict<PyVal>, authorities: Dict<PyVal>, entries: seq<PyVal>, country: string)
    requires forall i :: 0 <= i < |entries| ==>
               Rbd.HasAuthority(entries[i]) && Field(entries[i].entries, Rbd.AuthorityKey).PyStr?
    requires Field(countries, country).PyDict?
    requires exists i :: 0 <= i < |entries| && Rbd.HasAuthority(entries[i]) &&
                         Field(entries[i].entries, Rbd.AuthorityKey).s !in Keys(authorities)
    ensures var r := AuthorityCheck(PyDict(countries), PyDict(authorities), entries, PyStr(country));
            r.Err? && r.error.BotErrorListing? &&
            r.error.message == AuthorityMessage(Field(Field(countries, country).entries, "en")) &&
            forall name :: name in r.error.items <==>
              name !in Keys(authorities) &&
              exists i :: 0 <= i < |entries| && Rbd.HasAuthority(entries[i]) &&
                          Field(entries[i].entries, Rbd.AuthorityKey) == PyStr(name)
  {
    Rbd.PrimeAuthoritiesEach(entries);
    var found := Rbd.PrimeAuthorities(entries).value;
    var i :| 0 <= i < |entries| && Rbd.HasAuthority(entries[i]) &&
             Field(entries[i].entries, Rbd.AuthorityKey).s !in Keys(authorities);
    assert found[i].s !in Keys(authorities);
    FoundReported(countries, authorities, found, country);
    UnmappedNames(entries, found, Keys(authorities));
  }

  /** The names not mapped are those of some district's authority. */
  lemma UnmappedNames(entries: seq<PyVal>, found: seq<PyVal>, keys: set<string>)
    requires |found| == |entries|
    requires forall i :: 0 <= i < |entries| ==>
               Rbd.HasAuthority(entries[i]) && found[i] == Field(entries[i].entries, Rbd.AuthorityKey)
    ensures forall name :: name in Unmapped(found, keys) <==>
              name !in keys &&
              exists i :: 0 <= i < |entries| && Rbd.HasAuthority(entries[i]) &&
                          Field(entries[i].entries, Rbd.AuthorityKey) == PyStr(name)
  {
    forall name
      ensures name in Unmapped(found, keys) <==>
                name !in keys &&
                exists i :: 0 <= i < |entries| && Rbd.HasAuthority(entries[i]) &&
                            Field(entries[i].entries, Rbd.AuthorityKey) == PyStr(name)
    {
      if name in Unmapped(found, keys) {
        var j :| 0 <= j < |found| && found[j] == PyStr(name);
        assert Field(entries[j].entries, Rbd.AuthorityKey) == PyStr(name);
      }
      if name !in keys &&
         exists i :: 0 <= i < |entries| && Rbd.HasAuthority(entries[i]) &&
                     Field(entries[i].entries, Rbd.AuthorityKey) == PyStr(name) {
        var j :| 0 <= j < |entries| && Rbd.HasAuthority(entries[j]) &&
                 Field(entries[j].entries, Rbd.AuthorityKey) == PyStr(name);
        assert found[j] in found;
      }
    }
  }

  // ---------------------------------------------------------------------
  // make_labels

  /** `{'language': lang, 'value': value}`. */
  function LabelEntry(lang: string, value: PyVal): PyVal {
    PyDict([("language", PyStr(lang)), ("value", value)])
  }

  /** `make_labels(entry_data, with_alias)`: the English entry holds the
      district's name, or with the alias the list of its name and its EU
      code. */
  function LegacyLabels(data: Dict<PyVal>, withAlias: bool): (r: Dict<PyVal>)
    ensures |r| == 1 && r[0].0 == "en" && r[0].1.PyDict?
    ensures Field(r[0].1.entries, "language") == PyStr("en")
    ensures !withAlias ==> Field(r[0].1.entries, "value") == Field(data, "rbdName")
    ensures withAlias ==> Field(r[0].1.entries, "value") == PyList([Field(data, "rbdName"), Field(data, "euRBDCode")])
  {
    var name := Field(data, "rbdName");
    [("en", LabelEntry("en", if withAlias then PyList([name, Field(data, "euRBDCode")]) else name))]
  }

  /** `commit_labels` reads these labels as written: with the alias it adds
      the name and then the code, without it the name when there is one. */
  lemma LegacyLabelsCommitted(data: Dict<PyVal>, withAlias: bool, item: Entity)
    ensures LabelActions(LegacyLabels(data, withAlias), item, true)
         == Ok(if withAlias
               then [Action.AddLabelOrAlias("en", Field(data, "rbdName"), item),
                     Action.AddLabelOrAlias("en", Field(data, "euRBDCode"), item)]
               else AddEachLabel("en", Listify(Field(data, "rbdName")), item))
  {
    var name := Field(data, "rbdName");
    var value := if withAlias then PyList([name, Field(data, "euRBDCode")]) else name;
    assert LegacyLabels(data, withAlias) == [("en", LabelEntry("en", value))];
    SingleLabelCommitted("en", value, item);
    if withAlias {
      var added := AddEachLabel("en", Listify(value), item);
      assert Listify(value) == [name, Field(data, "euRBDCode")];
      assert |added| == 2;
      assert added[0] == Action.AddLabelOrAlias("en", name, item);
      assert added[1] == Action.AddLabelOrAlias("en", Field(data, "euRBDCode"), item);
      assert added == [Action.AddLabelOrAlias("en", name, item), Action.AddLabelOrAlias("en", Field(data, "euRBDCode"), item)];
    }
  }

  /** One label entry: one call per value of its `'value'`. */
  lemma SingleLabelCommitted(lang: string, value: PyVal, item: Entity)
    ensures LabelActions([(lang, LabelEntry(lang, value))], item, true) == Ok(AddEachLabel(lang, Listify(value), item))
  {
    var labels := [(lang, LabelEntry(lang, value))];
    var added := AddEachLabel(lang, Listify(value), item);
    assert labels[..0] == [];
    assert "value" in Keys(labels[0].1.entries);
    assert LabelEntryValues(labels[0].1, true) == Ok(Listify(value));
    assert [] + added == added;
  }

  // ---------------------------------------------------------------------
  // make_descriptions

  /** `description_type.get(lang) % self.countries.get(country).get(lang)`. */
  function LegacyDescriptionOf(group: PyVal, countries: PyVal, country: PyVal, lang: string): Res<string> {
    var template :- DictGet(group, PyStr(lang));
    var entry :- DictGet(countries, country);
    var name :- DictGet(entry, PyStr(lang));
    if !template.PyStr? then Err(TypeFault("unsupported operand type(s) for %: '" + TypeName(template) + "'"))
    else PercentFormat(template.s, Str(name))
  }

  /** The text of each language's description from one template group. */
  function DescriptionText(group: PyVal, countries: PyVal, country: PyVal): string -> Res<string> {
    lang => LegacyDescriptionOf(group, countries, country, lang)
  }

  /** The descriptions of one template group, language by language. */
  function DescriptionsIn(group: PyVal, countries: PyVal, country: PyVal, langs: seq<string>): Res<Dict<PyVal>> {
    Base.DescriptionsBy(langs, DescriptionText(group, countries, country))
  }

  /** `make_descriptions(entry_data, country)`: the international templates
      for an international district, the national ones otherwise. */
  function LegacyDescriptions(descriptions: PyVal, countries: PyVal, country: PyVal, langs: seq<string>, data: Dict<PyVal>)
    : Res<Dict<PyVal>>
  {
    var national :- DictGet(descriptions, PyStr("national"));
    if Field(data, "internationalRBD") == PyStr("Yes") then
      var international :- DictGet(descriptions, PyStr("international"));
      DescriptionsIn(international, countries, country, langs)
    else DescriptionsIn(national, countries, country, langs)
  }

  /** The template group is "international" exactly when the district says
      "Yes". */
  lemma LegacyDescriptionsTemplate(descriptions: Dict<PyVal>, countries: PyVal, country: PyVal, langs: seq<string>,
                                   data: Dict<PyVal>)
    ensures LegacyDescriptions(PyDict(descriptions), countries, country, langs, data)
         == DescriptionsIn(Field(descriptions, if Field(data, "internationalRBD") == PyStr("Yes") then "international" else "national"),
                           countries, country, langs)
  {
  }

  /** The descriptions hold exactly one entry per language, with the text
      of that language's template. */
  lemma DescriptionsInPerLanguage(group: PyVal, countries: PyVal, country: PyVal, langs: seq<string>)
    requires DescriptionsIn(group, countries, country, langs).Ok?
    ensures Keys(DescriptionsIn(group, countries, country, langs).value) == set lang | lang in langs
    ensures forall lang :: lang in langs ==>
              LegacyDescriptionOf(group, countries, country, lang).Ok? &&
              Get(DescriptionsIn(group, countries, country, langs).value, lang)
                == Some(Base.DescriptionEntry(lang, LegacyDescriptionOf(group, countries, country, lang).value))
  {
    Base.DescriptionsByPerLanguage(langs, DescriptionText(group, countries, country));
  }

  /** A template with one `%s` and no other percent sign gets the country's
      name in that language in its place. */
  lemma DescriptionFillsCountry(group: Dict<PyVal>, countries: Dict<PyVal>, country: string, lang: string,
                                prefix: string, suffix: string)
    requires Field(group, lang) == PyStr(prefix + "%s" + suffix)
    requires PercentFree(prefix) && PercentFree(suffix)
    requires Field(countries, country).PyDict?
    ensures LegacyDescriptionOf(PyDict(group), PyDict(countries), PyStr(country), lang)
         == Ok(prefix + Str(Field(Field(countries, country).entries, lang)) + suffix)
  {
    PercentFormatOneField(prefix, suffix, Str(Field(Field(countries, country).entries, lang)));
  }

  // ---------------------------------------------------------------------
  // process_country_rbd, one district

  /** The tables of the bot and its options. */
  datatype LegacyConfig = LegacyConfig(
    createNew: bool, cutoff: Option<int>, idItems: Dict<string>,
    countries: PyVal, authorities: PyVal, descriptions: PyVal)

  /** `create_new_rbd_item(entry_data, country)`: the creation call, with the
      labels without alias and the descriptions, and the new item. */
  function NewLegacyItem(cfg: LegacyConfig, country: PyVal, data: Dict<PyVal>): Res<(Action, Entity)> {
    var labels := LegacyLabels(data, false);
    var descriptions :- LegacyDescriptions(cfg.descriptions, cfg.countries, country, LegacyLangs, data);
    Ok((MakeNewItem(labels, descriptions), Made(labels, descriptions)))
  }

  /** The labels with the alias and the protoclaims of a district, written
      to `item` with the reference `ref`. */
  function LegacyWrites(cfg: LegacyConfig, ref: Reference, country: PyVal, data: Dict<PyVal>, item: Entity)
    : Res<seq<Action>>
  {
    var labels := LegacyLabels(data, true);
    var countryQ :- Rbd.CountryQ(cfg.countries, country);
    var protoclaims :- Rbd.RbdProtoclaims(cfg.authorities, LegacyAreaUnit, countryQ, data);
    var labelled :- LabelActions(labels, item, true);
    Ok(labelled + ClaimActions(protoclaims, item, Some(ref)))
  }

  /** The body of the loop of `process_country_rbd` for a district that is
      processed: the item is created first when there is none. */
  function LegacyEffect(cfg: LegacyConfig, ref: Reference, country: PyVal, entry: PyVal, item: Option<Entity>)
    : Res<Effect>
  {
    if !entry.PyDict? then Err(TypeFault("'" + TypeName(entry) + "' object has no attribute 'get'"))
    else if item.None? then
      var made :- NewLegacyItem(cfg, country, entry.entries);
      var writes :- LegacyWrites(cfg, ref, country, entry.entries, made.1);
      Ok(Effect([made.0] + writes, []))
    else
      var writes :- LegacyWrites(cfg, ref, country, entry.entries, item.value);
      Ok(Effect(writes, []))
  }

  /** Writing a district adds its labels and claims to `item` only: it
      creates nothing and, unlike the WFD bots, leaves descriptions alone;
      its first calls are the name and the code. */
  lemma LegacyWritesTargets(cfg: LegacyConfig, ref: Reference, country: PyVal, data: Dict<PyVal>, item: Entity)
    requires LegacyWrites(cfg, ref, country, data, item).Ok?
    ensures var writes := LegacyWrites(cfg, ref, country, data, item).value;
            |writes| >= 2 &&
            writes[0] == Action.AddLabelOrAlias("en", Field(data, "rbdName"), item) &&
            writes[1] == Action.AddLabelOrAlias("en", Field(data, "euRBDCode"), item) &&
            forall a :: a in writes ==> (a.AddLabelOrAlias? || a.AddClaim?) && a.item == item
  {
    LegacyLabelsCommitted(data, true, item);
    var countryQ := Rbd.CountryQ(cfg.countries, country).value;
    var protoclaims := Rbd.RbdProtoclaims(cfg.authorities, LegacyAreaUnit, countryQ, data).value;
    var labelled := LabelActions(LegacyLabels(data, true), item, true).value;
    var claims := ClaimActions(protoclaims, item, Some(ref));
    forall a | a in claims ensures a.AddClaim? && a.item == item {
      ClaimActionsAreAdds(protoclaims, item, Some(ref), a);
    }
    assert LegacyWrites(cfg, ref, country, data, item).value == labelled + claims;
  }

  /** A new district's item is created first, and every later call writes
      to it. */
  lemma NewLegacyItemWritten(cfg: LegacyConfig, ref: Reference, country: PyVal, data: Dict<PyVal>)
    requires LegacyEffect(cfg, ref, country, PyDict(data), None).Ok?
    ensures NewLegacyItem(cfg, country, data).Ok?
    ensures var made := NewLegacyItem(cfg, country, data).value;
            var actions := LegacyEffect(cfg, ref, country, PyDict(data), None).value.actions;
            made.0 == MakeNewItem(LegacyLabels(data, false), made.1.descriptions) &&
            |actions| >= 1 && actions[0] == made.0 &&
            forall i :: 1 <= i < |actions| ==> !actions[i].Creates() && actions[i].item == made.1
  {
    var made := NewLegacyItem(cfg, country, data).value;
    var writes := LegacyWrites(cfg, ref, country, data, made.1).value;
    LegacyWritesTargets(cfg, ref, country, data, made.1);
    Base.WritesAfterCreation(made.0, writes, made.1);
  }

  /** Processing a district makes no preview, and creates nothing when its
      item is known. */
  lemma LegacyEffectKinds(cfg: LegacyConfig, ref: Reference, country: PyVal, entry: PyVal, item: Option<Entity>)
    requires LegacyEffect(cfg, ref, country, entry, item).Ok?
    ensures LegacyEffect(cfg, ref, country, entry, item).value.previews == []
    ensures item.Some? ==> NoCreation(LegacyEffect(cfg, ref, country, entry, item).value.actions)
  {
    if item.Some? {
      LegacyWritesTargets(cfg, ref, country, entry.entries, item.value);
      var actions := LegacyEffect(cfg, ref, country, entry, item).value.actions;
      forall i | 0 <= i < |actions| ensures !actions[i].Creates() {
        assert actions[i] in actions;
      }
    }
  }

  // ---------------------------------------------------------------------
  // process_country_rbd

  function KnownOf(cfg: LegacyConfig): PyVal -> Res<Option<Entity>> {
    entry => Rbd.RbdKnown(cfg.idItems, entry)
  }

  function EffectOf(cfg: LegacyConfig, ref: Reference, country: PyVal): (PyVal, Option<Entity>) -> Res<Effect> {
    (entry, item) => LegacyEffect(cfg, ref, country, entry, item)
  }

  /** The loop of `process_country_rbd(country, data, reference)`. */
  function LegacyRun(cfg: LegacyConfig, ref: Reference, country: PyVal, entries: seq<PyVal>): Res<Progress> {
    Drive(entries, cfg.cutoff, cfg.createNew, KnownOf(cfg), EffectOf(cfg, ref, country))
  }

  /** `process_country_rbd(country, data, reference)`: the country and the
      competent authorities are checked before any district. */
  function CountryRun(cfg: LegacyConfig, ref: Reference, country: PyVal, entries: seq<PyVal>): Res<Progress> {
    var checked :- Rbd.CheckCountry(cfg.countries, LegacyLangs, country);
    var authorities :- AuthorityCheck(cfg.countries, cfg.authorities, entries, country);
    LegacyRun(cfg, ref, country, entries)
  }

  /** Nothing is processed unless the country is mapped with its item and
      its languages, and every district names a mapped authority. */
  lemma CountryRunChecked(cfg: LegacyConfig, ref: Reference, country: PyVal, entries: seq<PyVal>)
    requires CountryRun(cfg, ref, country, entries).Ok?
    ensures Rbd.CheckCountry(cfg.countries, LegacyLangs, country).Ok?
    ensures Rbd.CountryQ(cfg.countries, country).Ok? && Truthy(Rbd.CountryQ(cfg.countries, country).value)
    ensures forall i :: 0 <= i < |entries| ==> Rbd.HasAuthority(entries[i])
    ensures CountryRun(cfg, ref, country, entries) == LegacyRun(cfg, ref, country, entries)
  {
    Rbd.CheckedCountryHasQid(cfg.countries, LegacyLangs, country);
    Rbd.PrimeAuthoritiesEach(entries);
  }

  /** Without `new` the run skips unknown districts without counting them
      and creates no item; only processed districts count, never more than
      a positive cutoff; nothing is previewed. */
  lemma LegacyRunBounds(cfg: LegacyConfig, ref: Reference, country: PyVal, entries: seq<PyVal>)
    requires LegacyRun(cfg, ref, country, entries).Ok?
    ensures var p := LegacyRun(cfg, ref, country, entries).value;
            p.processed == Selected(Eligibility(entries, KnownOf(cfg), cfg.createNew), cfg.cutoff) &&
            p.count == |p.processed| && p.effect.previews == [] &&
            (cfg.cutoff.Some? && cfg.cutoff.value > 0 ==> p.count <= cfg.cutoff.value)
    ensures !cfg.createNew ==> NoCreation(LegacyRun(cfg, ref, country, entries).value.effect.actions)
    ensures !cfg.createNew ==>
              forall i :: i in LegacyRun(cfg, ref, country, entries).value.processed ==>
                i < |entries| && Rbd.RbdKnown(cfg.idItems, entries[i]).Ok? && Rbd.RbdKnown(cfg.idItems, entries[i]).value.Some?
  {
    var known := KnownOf(cfg);
    var single := EffectOf(cfg, ref, country);
    DriveSelects(entries, cfg.cutoff, cfg.createNew, known, single);
    DriveWithinCutoff(entries, cfg.cutoff, cfg.createNew, known, single);
    forall e, k | single(e, k).Ok? ensures single(e, k).value.previews == [] {
      LegacyEffectKinds(cfg, ref, country, e, k);
    }
    DriveNoPreviews(entries, cfg.cutoff, cfg.createNew, known, single);
    if !cfg.createNew {
      forall e, x | single(e, Some(x)).Ok? ensures NoCreation(single(e, Some(x)).value.actions) {
        LegacyEffectKinds(cfg, ref, country, e, Some(x));
      }
      DriveNoCreation(entries, cfg.cutoff, known, single);
      DriveOnlyKnown(entries, cfg.cutoff, known, single);
    }
  }

  // ---------------------------------------------------------------------
  // process_all_rbd and make_ref

  /** `make_ref(data)`: the dataset (P248) and the source url (P854) are
      compared with existing sources, the creation date (P577) and the day
      of the run `today` (P813) are not. */
  function LegacyRef(data: PyVal, today: PyVal): (r: Res<Reference>)
    ensures r.Ok? <==> data.PyDict? && "@creationDate" in Keys(data.entries) && "source_url" in Keys(data.entries)
    ensures r.Ok? ==>
              r.value.sourceTest == [Claim("P248", ItemValue(LegacyDatasetQ)),
                                     Claim("P854", PlainValue(Field(data.entries, "source_url")))] &&
              r.value.sourceNotest == [Claim("P577", TimeValue(Field(data.entries, "@creationDate"))),
                                       Claim("P813", TimeValue(today))]
  {
    var creation :- Index(data, PyStr("@creationDate"));
    var url :- Index(data, PyStr("source_url"));
    Ok(Reference([Claim("P248", ItemValue(ItemId(LegacyDatasetQ))), Claim("P854", PlainValue(url))],
                 [Claim("P577", TimeValue(creation)), Claim("P813", TimeValue(today))]))
  }

  /** `process_all_rbd(data)`: the templates are checked and the reference
      made before the report's country and districts are read. */
  function LegacyAll(cfg: LegacyConfig, today: PyVal, data: PyVal): Res<Progress> {
    var checked :- CheckAllDescriptions(cfg.descriptions, LegacyLangs);
    var ref :- LegacyRef(data, today);
    var country :- DictGet(data, PyStr("countryCode"));
    CountryRun(cfg, ref, country, Listify(Field(data.entries, "RBD")))
  }

  /** No district is written unless both template groups exist in English
      and Swedish and the report names its creation date and source. */
  lemma LegacyAllChecked(cfg: LegacyConfig, today: PyVal, data: PyVal)
    requires LegacyAll(cfg, today, data).Ok?
    ensures CheckAllDescriptions(cfg.descriptions, LegacyLangs).Ok?
    ensures LegacyRef(data, today).Ok? && data.PyDict?
    ensures LegacyAll(cfg, today, data)
         == CountryRun(cfg, LegacyRef(data, today).value, Field(data.entries, "countryCode"), Listify(Field(data.entries, "RBD")))
  {
  }

  // ---------------------------------------------------------------------
  // The bot

  /** `RBD`: the Wikidata session, the options of the run and the tables
      read when it starts. */
  class RbdBot {
    const wd: WikidataStuff
    const createNew: bool
    const cutoff: Option<int>
    const countries: PyVal
    const authorities: PyVal
    const descriptions: PyVal
    const idItems: Dict<string>

    /** `RBD(mappings, new, cutoff)`, given what `__init__` reads
        (`LegacyInit`). */
    constructor(createNew: bool, cutoff: Option<int>, tables: Rbd.RbdTables)
      ensures fresh(wd) && wd.log == []
      ensures this.createNew == createNew && this.cutoff == cutoff
      ensures countries == tables.countries && authorities == tables.authorities
      ensures descriptions == tables.descriptions && idItems == tables.idItems
    {
      wd := new WikidataStuff();
      this.createNew := createNew;
      this.cutoff := cutoff;
      countries := tables.countries;
      authorities := tables.authorities;
      descriptions := tables.descriptions;
      idItems := tables.idItems;
    }

    function Config(): LegacyConfig {
      LegacyConfig(createNew, cutoff, idItems, countries, authorities, descriptions)
    }

    /** `check_all_competent_authorities(data, country)`. */
    method CheckAllCompetentAuthorities(entries: seq<PyVal>, country: PyVal) returns (r: Res<()>)
      ensures r == AuthorityCheck(countries, authorities, entries, country)
    {
      var found: seq<PyVal> := [];
      var i := 0;
      assert entries[..0] == [];
      while i < |entries|
        invariant 0 <= i <= |entries|
        invariant MapAll(entries[..i], Rbd.PrimeAuthority) == Ok(found)
      {
        var ca := Rbd.PrimeAuthority(entries[i]);
        MapAllStep(entries, Rbd.PrimeAuthority, i);
        if ca.Err? {
          return Err(ca.error);
        }
        found := found + [ca.value];
        i := i + 1;
      }
      assert entries[..i] == entries;
      r := LegacyAuthorityCheck(countries, authorities, found, country);
    }

    /** The descriptions of one template group, language by language. */
    method DescriptionsFrom(group: PyVal, country: PyVal, langs: seq<string>) returns (r: Res<Dict<PyVal>>)
      ensures r == DescriptionsIn(group, countries, country, langs)
    {
      ghost var texts := DescriptionText(group, countries, country);
      var descs: Dict<PyVal> := [];
      var i := 0;
      assert langs[..0] == [];
      while i < |langs|
        invariant 0 <= i <= |langs|
        invariant Base.DescriptionsBy(langs[..i], texts) == Ok(descs)
      {
        var text := LegacyDescriptionOf(group, countries, country, langs[i]);
        Base.DescriptionsByStep(langs, texts, i);
        if text.Err? {
          return Err(text.error);
        }
        descs := Put(descs, langs[i], Base.DescriptionEntry(langs[i], text.value));
        i := i + 1;
      }
      assert langs[..i] == langs;
      r := Ok(descs);
    }

    /** `make_descriptions(entry_data, country)`. */
    method MakeDescriptions(data: Dict<PyVal>, country: PyVal) returns (r: Res<Dict<PyVal>>)
      ensures r == LegacyDescriptions(descriptions, countries, country, LegacyLangs, data)
    {
      var group := DictGet(descriptions, PyStr("national"));
      if group.Err? {
        return Err(group.error);
      }
      if Field(data, "internationalRBD") == PyStr("Yes") {
        group := DictGet(descriptions, PyStr("international"));
        if group.Err? {
          return Err(group.error);
        }
      }
      r := DescriptionsFrom(group.value, country, LegacyLangs);
    }

    /** `create_new_rbd_item(entry_data, country)`, returning the new item. */
    method CreateNewRbdItem(data: Dict<PyVal>, country: PyVal) returns (r: Res<Entity>)
      modifies wd
      ensures r.Ok? <==> NewLegacyItem(Config(), country, data).Ok?
      ensures r.Ok? ==> r.value == NewLegacyItem(Config(), country, data).value.1 &&
                        wd.log == old(wd.log) + [NewLegacyItem(Config(), country, data).value.0]
    {
      var labels := LegacyLabels(data, false);
      var descriptions := MakeDescriptions(data, country);
      if descriptions.Err? {
        return Err(descriptions.error);
      }
      var item := wd.MakeNewItem(labels, descriptions.value);
      r := Ok(item);
    }

    /** `commit_labels(labels, item)`: nothing for no labels, otherwise one
        `addLabelOrAlias` per value of `listify(data['value'])`. */
    method CommitLabels(labels: Dict<PyVal>, item: Entity) returns (r: Res<()>)
      modifies wd
      ensures labels == [] ==> r.Ok? && wd.log == old(wd.log)
      ensures r.Ok? <==> LabelActions(labels, item, true).Ok?
      ensures r.Ok? ==> wd.log == old(wd.log) + LabelActions(labels, item, true).value
    {
      if labels == [] {
        return Ok(());
      }
      r := CommitLabelsTo(wd, labels, item, true);
    }

    /** `commit_claims(protoclaims, item, ref)`: the reference is given by
        the caller and is not checked. */
    method CommitClaims(protoclaims: Dict<Protoclaim>, item: Entity, ref: Reference)
      modifies wd
      ensures wd.log == old(wd.log) + ClaimActions(protoclaims, item, Some(ref))
    {
      CommitClaimsTo(wd, protoclaims, item, Some(ref));
    }

    /** The labels with the alias and the protoclaims of a district,
        committed to `item`. */
    method WriteDistrict(data: Dict<PyVal>, item: Entity, country: PyVal, ref: Reference) returns (r: Res<()>)
      modifies wd
      ensures r.Ok? <==> LegacyWrites(Config(), ref, country, data, item).Ok?
      ensures r.Ok? ==> wd.log == old(wd.log) + LegacyWrites(Config(), ref, country, data, item).value
    {
      var labels := LegacyLabels(data, true);
      var countryQ := Rbd.CountryQ(countries, country);
      if countryQ.Err? {
        return Err(countryQ.error);
      }
      var protoclaims := Rbd.RbdProtoclaims(authorities, LegacyAreaUnit, countryQ.value, data);
      if protoclaims.Err? {
        return Err(protoclaims.error);
      }
      r := CommitLabels(labels, item);
      if r.Err? {
        return;
      }
      ghost var labelled := wd.log;
      CommitClaims(protoclaims.value, item, ref);
      AppendAssoc(old(wd.log), LabelActions(labels, item, true).value, ClaimActions(protoclaims.value, item, Some(ref)));
    }

    /** The body of the loop for a district that is processed. */
    method ProcessDistrict(entry: PyVal, item: Option<Entity>, country: PyVal, ref: Reference) returns (r: Res<()>)
      modifies wd
      ensures r.Ok? <==> LegacyEffect(Config(), ref, country, entry, item).Ok?
      ensures r.Ok? ==> wd.log == old(wd.log) + LegacyEffect(Config(), ref, country, entry, item).value.actions
    {
      if !entry.PyDict? {
        return Err(TypeFault("'" + TypeName(entry) + "' object has no attribute 'get'"));
      }
      if item.None? {
        var made := CreateNewRbdItem(entry.entries, country);
        if made.Err? {
          return Err(made.error);
        }
        r := WriteDistrict(entry.entries, made.value, country, ref);
        AppendAssoc(old(wd.log), [NewLegacyItem(Config(), country, entry.entries).value.0],
                    if r.Ok? then LegacyWrites(Config(), ref, country, entry.entries, made.value).value else []);
      } else {
        r := WriteDistrict(entry.entries, item.value, country, ref);
      }
    }

    /** One turn of the loop of `process_country_rbd`: look up the
        district's item, skip it when it is unknown and `new` is unset,
        and otherwise process it. The loop's state goes from `p` to
        `next`; `log` is what the calls were before the loop. */
    method ProcessEntry(country: PyVal, entries: seq<PyVal>, i: nat, ref: Reference, ghost p: Progress,
                        ghost log: seq<Action>)
      returns (r: Res<()>, processed: bool, ghost next: Progress)
      requires i < |entries| && !Stop(cutoff, p.count)
      requires Drive(entries[..i], cutoff, createNew, KnownOf(Config()), EffectOf(Config(), ref, country)) == Ok(p)
      requires wd.log == log + p.effect.actions
      modifies wd
      ensures r.Err? ==> Drive(entries, cutoff, createNew, KnownOf(Config()), EffectOf(Config(), ref, country)).Err?
      ensures r.Ok? ==>
                Drive(entries[..i + 1], cutoff, createNew, KnownOf(Config()), EffectOf(Config(), ref, country)) == Ok(next) &&
                next.count == (if processed then p.count + 1 else p.count) &&
                wd.log == log + next.effect.actions
    {
      var cfg := Config();
      DriveNext(entries, i, cutoff, createNew, KnownOf(cfg), EffectOf(cfg, ref, country), p);
      var item := Rbd.RbdKnown(idItems, entries[i]);
      assert KnownOf(cfg)(entries[i]) == item;
      if item.Err? {
        return Err(item.error), false, p;
      }
      if item.value.None? && !createNew {
        return Ok(()), false, p;
      }
      processed := true;
      r, next := ProcessEligible(country, entries, i, ref, p, log, item.value);
    }

    /** The rest of a turn for a district that is processed. */
    method ProcessEligible(country: PyVal, entries: seq<PyVal>, i: nat, ref: Reference, ghost p: Progress,
                           ghost log: seq<Action>, item: Option<Entity>)
      returns (r: Res<()>, ghost next: Progress)
      requires i < |entries|
      requires wd.log == log + p.effect.actions
      modifies wd
      ensures r.Ok? <==> EffectOf(Config(), ref, country)(entries[i], item).Ok?
      ensures r.Ok? ==>
                next == Progress(Then(p.effect, EffectOf(Config(), ref, country)(entries[i], item).value),
                                 p.count + 1, p.processed + [i]) &&
                wd.log == log + next.effect.actions
    {
      ghost var e := EffectOf(Config(), ref, country)(entries[i], item);
      assert e == LegacyEffect(Config(), ref, country, entries[i], item);
      r := ProcessDistrict(entries[i], item, country, ref);
      next := p;
      if r.Ok? {
        ThenAppends(log, [], p.effect, e.value);
        next := Progress(Then(p.effect, e.value), p.count + 1, p.processed + [i]);
      }
    }

    /** The loop of `process_country_rbd(country, data, reference)`, until
        the cutoff. */
    method ProcessDistricts(country: PyVal, entries: seq<PyVal>, ref: Reference) returns (r: Res<()>)
      modifies wd
      ensures r.Ok? <==> LegacyRun(Config(), ref, country, entries).Ok?
      ensures r.Ok? ==> wd.log == old(wd.log) + LegacyRun(Config(), ref, country, entries).value.effect.actions
    {
      var cfg := Config();
      ghost var known := KnownOf(cfg);
      ghost var single := EffectOf(cfg, ref, country);
      var count := 0;
      ghost var p := Progress(Effect([], []), 0, []);
      var i := 0;
      assert entries[..0] == [];
      while i < |entries|
        invariant 0 <= i <= |entries|
        invariant Drive(entries[..i], cfg.cutoff, cfg.createNew, known, single) == Ok(p)
        invariant count == p.count
        invariant wd.log == old(wd.log) + p.effect.actions
      {
        if Stop(cutoff, count) {
          DriveStopped(entries, i, cfg.cutoff, cfg.createNew, known, single);
          return Ok(());
        }
        var done, processed, next := ProcessEntry(country, entries, i, ref, p, old(wd.log));
        if done.Err? {
          return done;
        }
        p := next;
        if processed {
          count := count + 1;
        }
        i := i + 1;
      }
      assert entries[..i] == entries;
      r := Ok(());
    }

    /** `process_country_rbd(country, data, reference)`. */
    method ProcessCountryRbd(country: PyVal, entries: seq<PyVal>, ref: Reference) returns (r: Res<()>)
      modifies wd
      ensures r.Ok? <==> CountryRun(Config(), ref, country, entries).Ok?
      ensures r.Ok? ==> wd.log == old(wd.log) + CountryRun(Config(), ref, country, entries).value.effect.actions
    {
      var checked := Rbd.CheckCountry(countries, LegacyLangs, country);
      if checked.Err? {
        return checked;
      }
      r := CheckAllCompetentAuthorities(entries, country);
      if r.Err? {
        return;
      }
      r := ProcessDistricts(country, entries, ref);
    }

    /** `process_all_rbd(data)`; `today` is the day of the run. */
    method ProcessAllRbd(data: PyVal, today: PyVal) returns (r: Res<()>)
      modifies wd
      ensures r.Ok? <==> LegacyAll(Config(), today, data).Ok?
      ensures r.Ok? ==> wd.log == old(wd.log) + LegacyAll(Config(), today, data).value.effect.actions
    {
      var checked := CheckAllDescriptions(descriptions, LegacyLangs);
      if checked.Err? {
        return checked;
      }
      var ref := LegacyRef(data, today);
      if ref.Err? {
        return Err(ref.error);
      }
      var country := DictGet(data, PyStr("countryCode"));
      if country.Err? {
        return Err(country.error);
      }
      r := ProcessCountryRbd(country.value, Listify(Field(data.entries, "RBD")), ref.value);
    }
  }
}
