/** WFD/WFDBase.py: the state every WFD import bot shares, the values read
    once per report (`set_common_values`), the descriptions built from the
    mapped templates (`make_descriptions`), and the two commit steps. */
module Base {
  import opened Wrappers
  import opened Text
  import opened Py
  import opened Wikidata
  import opened Validation
  import opened Format
  import opened Commit
  import opened Preview

  /** The languages in which descriptions and country names are required. */
  const Langs: seq<string> := ["en", "sv", "fi"]

  // ---------------------------------------------------------------------
  // set_common_values

  /** What `set_common_values` derives from a report: the country's mapping
      entry and item, the dataset item, the mapped language and the
      reference for every claim. */
  datatype Common = Common(countryDict: PyVal, country: string, datasetQ: PyVal, language: PyVal, ref: Reference)

  /** `try: … except KeyError: raise err`. */
  function CatchKey<T>(r: Res<T>, err: Error): Res<T> {
    if r.Err? && r.error.KeyFault? then Err(err) else r
  }

  /** `mappings.get('countryCode')[country]` and the item of its `qId`. */
  function CountryLookup(mappings: Dict<PyVal>, country: PyVal): Res<(PyVal, string)> {
    var countryDict :- Index(Field(mappings, "countryCode"), country);
    var qid :- Index(countryDict, PyStr("qId"));
    var item :- ItemOf(qid, "QtoItemPage");
    Ok((countryDict, item))
  }

  /** `mappings.get('dataset')[year][country]`. */
  function DatasetLookup(mappings: Dict<PyVal>, year: string, country: PyVal): Res<PyVal> {
    var datasets :- Index(Field(mappings, "dataset"), PyStr(year));
    Index(datasets, country)
  }

  /** The text of the `(year, country)` tuple in the dataset error. */
  function YearCountry(year: string, country: PyVal): string {
    "(" + Repr(PyStr(year)) + ", " + Repr(country) + ")"
  }

  /** `set_common_values(data)`: the country entry and its item, checked to
      name every required language, then the dataset item of the report's
      year and country, the mapped language and the reference. A lookup that
      misses a key is reported as an unmapped value of its mapping. */
  function CommonValues(mappings: Dict<PyVal>, year: string, langs: seq<string>, data: PyVal): Res<Common> {
    var country :- DictGet(data, PyStr("countryCode"));
    var found :- CatchKey(CountryLookup(mappings, country), UnmappedValue("countryCode", Str(country)));
    var valid :- ValidateMappingOf(found.0, langs, "countryCode");
    var datasetQ :- CatchKey(DatasetLookup(mappings, year, country), UnmappedValue("dataset", YearCountry(year, country)));
    var language :- DictGet(data, PyStr("@language"));
    var languageQ :- CatchKey(Index(Field(mappings, "languageCode"), language),
                              UnmappedValue("languageCode", Str(language)));
    var ref :- MakeRef(datasetQ, data);
    Ok(Common(found.0, found.1, datasetQ, languageQ, ref))
  }

  /** The report's country code, `data.get('countryCode')`. */
  function CountryCode(data: Dict<PyVal>): PyVal {
    Field(data, "countryCode")
  }

  /** A country code missing from the country mapping is reported first. */
  lemma UnmappedCountry(mappings: Dict<PyVal>, year: string, langs: seq<string>, data: Dict<PyVal>)
    requires Field(mappings, "countryCode").PyDict?
    requires CountryCode(data).PyStr? && CountryCode(data).s !in Keys(Field(mappings, "countryCode").entries)
    ensures CommonValues(mappings, year, langs, PyDict(data)) == Err(UnmappedValue("countryCode", CountryCode(data).s))
  {
    assert CountryLookup(mappings, CountryCode(data)) == Err(KeyFault(CountryCode(data).s));
  }

  /** A mapped country entry without a `qId` is reported as an unmapped
      country too. */
  lemma CountryWithoutItem(mappings: Dict<PyVal>, year: string, langs: seq<string>, data: Dict<PyVal>)
    requires Index(Field(mappings, "countryCode"), CountryCode(data)).Ok?
    requires Index(Field(mappings, "countryCode"), CountryCode(data)).value.PyDict?
    requires "qId" !in Keys(Index(Field(mappings, "countryCode"), CountryCode(data)).value.entries)
    ensures CommonValues(mappings, year, langs, PyDict(data)) == Err(UnmappedValue("countryCode", Str(CountryCode(data))))
  {
    assert CountryLookup(mappings, CountryCode(data)) == Err(KeyFault("qId"));
  }

  /** A mapped country whose year has no dataset for it is reported as an
      unmapped `(year, country)` pair of the dataset mapping. */
  lemma UnmappedDataset(mappings: Dict<PyVal>, year: string, langs: seq<string>, data: Dict<PyVal>)
    requires CountryLookup(mappings, CountryCode(data)).Ok?
    requires ValidateMappingOf(CountryLookup(mappings, CountryCode(data)).value.0, langs, "countryCode").Ok?
    requires Field(mappings, "dataset").PyDict?
    requires year !in Keys(Field(mappings, "dataset").entries)
    ensures CommonValues(mappings, year, langs, PyDict(data))
         == Err(UnmappedValue("dataset", YearCountry(year, CountryCode(data))))
  {
    assert DatasetLookup(mappings, year, CountryCode(data)) == Err(KeyFault(year));
  }

  /** A report accepted by `set_common_values` is a dict. */
  lemma CommonValuesNeedDict(mappings: Dict<PyVal>, year: string, langs: seq<string>, data: PyVal)
    requires !data.PyDict?
    ensures CommonValues(mappings, year, langs, data).Err?
  {
  }

  /** On success the country entry and item come from the country mapping,
      and the entry passed `validate_mapping` for the required languages. */
  lemma CommonCountryFound(mappings: Dict<PyVal>, year: string, langs: seq<string>, data: Dict<PyVal>)
    requires CommonValues(mappings, year, langs, PyDict(data)).Ok?
    ensures var c := CommonValues(mappings, year, langs, PyDict(data)).value;
            CountryLookup(mappings, CountryCode(data)) == Ok((c.countryDict, c.country)) &&
            ValidateMappingOf(c.countryDict, langs, "countryCode").Ok?
  {
    var country := CountryCode(data);
    assert DictGet(PyDict(data), PyStr("countryCode")) == Ok(country);
    var found := CatchKey(CountryLookup(mappings, country), UnmappedValue("countryCode", Str(country)));
    assert found.Ok? && CountryLookup(mappings, country) == found;
    assert ValidateMappingOf(found.value.0, langs, "countryCode").Ok?;
    assert CommonValues(mappings, year, langs, PyDict(data)).value.countryDict == found.value.0;
  }

  /** On success a flat country entry names every required language. */
  lemma CountryNamesLanguages(mappings: Dict<PyVal>, year: string, langs: seq<string>, data: Dict<PyVal>)
    requires CommonValues(mappings, year, langs, PyDict(data)).Ok?
    ensures var c := CommonValues(mappings, year, langs, PyDict(data)).value;
            c.countryDict.PyDict? &&
            (!IsNested(c.countryDict.entries) ==> forall lang :: lang in langs ==> lang in Keys(c.countryDict.entries))
  {
    CommonCountryFound(mappings, year, langs, data);
    var c := CommonValues(mappings, year, langs, PyDict(data)).value;
    assert c.countryDict.PyDict?;
    assert ValidateMapping(c.countryDict.entries, langs, "countryCode").Ok?;
  }

  /** On success the dataset item is the one mapped for the year and country. */
  lemma CommonDatasetFound(mappings: Dict<PyVal>, year: string, langs: seq<string>, data: Dict<PyVal>)
    requires CommonValues(mappings, year, langs, PyDict(data)).Ok?
    ensures var c := CommonValues(mappings, year, langs, PyDict(data)).value;
            DatasetLookup(mappings, year, CountryCode(data)) == Ok(c.datasetQ)
  {
    var country := CountryCode(data);
    assert DictGet(PyDict(data), PyStr("countryCode")) == Ok(country);
    var found := CatchKey(CountryLookup(mappings, country), UnmappedValue("countryCode", Str(country)));
    assert found.Ok? && CountryLookup(mappings, country) == found;
    var dataset := CatchKey(DatasetLookup(mappings, year, country), UnmappedValue("dataset", YearCountry(year, country)));
    assert dataset.Ok? && DatasetLookup(mappings, year, country) == dataset;
  }

  /** On success the language is the mapped `@language`, and the reference
      is `make_ref` for the dataset item. */
  lemma CommonLanguageAndRef(mappings: Dict<PyVal>, year: string, langs: seq<string>, data: Dict<PyVal>)
    requires CommonValues(mappings, year, langs, PyDict(data)).Ok?
    ensures var c := CommonValues(mappings, year, langs, PyDict(data)).value;
            Index(Field(mappings, "languageCode"), Field(data, "@language")) == Ok(c.language) &&
            MakeRef(c.datasetQ, PyDict(data)) == Ok(c.ref)
  {
    var country := CountryCode(data);
    assert DictGet(PyDict(data), PyStr("countryCode")) == Ok(country);
    var found := CatchKey(CountryLookup(mappings, country), UnmappedValue("countryCode", Str(country)));
    assert found.Ok? && CountryLookup(mappings, country) == found;
    var dataset := CatchKey(DatasetLookup(mappings, year, country), UnmappedValue("dataset", YearCountry(year, country)));
    assert dataset.Ok? && DatasetLookup(mappings, year, country) == dataset;
    var language := Field(data, "@language");
    assert DictGet(PyDict(data), PyStr("@language")) == Ok(language);
    var languageQ := CatchKey(Index(Field(mappings, "languageCode"), language), UnmappedValue("languageCode", Str(language)));
    assert languageQ.Ok? && Index(Field(mappings, "languageCode"), language) == languageQ;
  }

  // ---------------------------------------------------------------------
  // make_descriptions

  /** `templates.get(lang).format(country=country_dict.get(lang))`; an unset
      `country_dict` is None here. */
  function DescriptionOf(templates: PyVal, countryDict: Option<PyVal>, lang: string): Res<string> {
    var template :- DictGet(templates, PyStr(lang));
    if !template.PyStr? then Err(TypeFault("'" + TypeName(template) + "' object has no attribute 'format'"))
    else if countryDict.None? then Err(TypeFault("object has no attribute 'country_dict'"))
    else
      var name :- DictGet(countryDict.value, PyStr(lang));
      BraceFormat(template.s, Str(name))
  }

  /** `{'language': lang, 'value': text}`, its keys in the order CPython 2.7
      iterates this two-key dict (by hash): `value` first. */
  function DescriptionEntry(lang: string, text: string): PyVal {
    PyDict([("value", PyStr(text)), ("language", PyStr(lang))])
  }

  /** The preview shows a description entry as Python 2 prints the dict:
      `* '''sv''': {u'value': u'<text>', u'language': u'sv'}`. */
  lemma DescriptionEntryPreviewLine(lang: string, text: string)
    ensures DescriptionLine(lang, DescriptionEntry(lang, text)) ==
              "* '''" + lang + "''': {u'value': u'" + text + "', u'language': u'" + lang + "'}\n"
  {
    var d := [("value", PyStr(text)), ("language", PyStr(lang))];
    var a := "u'value': u'" + text + "'";
    var b := "u'language': u'" + lang + "'";
    var parts := seq(|d|, i requires 0 <= i < |d| => "u'" + d[i].0 + "': " + Repr(d[i].1));
    assert parts[0] == a by { assert "u'" + "value" + "': " + "u'" == "u'value': u'"; }
    assert parts[1] == b by { assert "u'" + "language" + "': " + "u'" == "u'language': u'"; }
    assert parts == [a, b];
    assert Join(", ", parts) == a + ", " + b by { assert parts[1..] == [b]; }
    var shown := Str(PyDict(d));
    assert shown == "{" + a + ", " + b + "}";
    var head := "* " + Bold(lang) + ": ";
    assert head == "* '''" + lang + "''': ";
    LiteralPieces(lang, text);
  }

  /** The description line with its literal pieces regrouped. */
  lemma LiteralPieces(lang: string, text: string)
    ensures ("* '''" + lang + "''': ") + ("{" + ("u'value': u'" + text + "'") + ", " + ("u'language': u'" + lang + "'") + "}") + "\n"
            == "* '''" + lang + "''': {u'value': u'" + text + "', u'language': u'" + lang + "'}\n"
  {
    DescriptionLiterals();
  }

  lemma DescriptionLiterals()
    ensures "''': " + "{" + "u'value': u'" == "''': {u'value': u'"
    ensures "'" + ", " + "u'language': u'" == "', u'language': u'"
    ensures "'" + "}" + "\n" == "'}\n"
  {
  }

  /** A description object built language by language: the entry of each
      language holds `text(lang)`, and the first language whose text fails
      fails the whole. */
  function DescriptionsBy(langs: seq<string>, text: string -> Res<string>): Res<Dict<PyVal>> {
    if langs == [] then Ok([])
    else
      var init :- DescriptionsBy(langs[..|langs| - 1], text);
      var lang := langs[|langs| - 1];
      var t :- text(lang);
      Ok(Put(init, lang, DescriptionEntry(lang, t)))
  }

  lemma {:induction false} DescriptionsByPrefixFails(langs: seq<string>, text: string -> Res<string>, k: nat)
    requires k <= |langs| && DescriptionsBy(langs[..k], text).Err?
    ensures DescriptionsBy(langs, text) == DescriptionsBy(langs[..k], text)
    decreases |langs| - k
  {
    if k < |langs| {
      assert langs[..k + 1][..k] == langs[..k];
      DescriptionsByPrefixFails(langs, text, k + 1);
    } else {
      assert langs[..k] == langs;
    }
  }

  /** One more language: its failure fails the whole, its success puts its
      entry after those of the earlier languages. */
  lemma DescriptionsByStep(langs: seq<string>, text: string -> Res<string>, i: nat)
    requires i < |langs| && DescriptionsBy(langs[..i], text).Ok?
    ensures text(langs[i]).Err? ==> DescriptionsBy(langs, text) == Err(text(langs[i]).error)
    ensures text(langs[i]).Ok? ==>
              DescriptionsBy(langs[..i + 1], text)
                == Ok(Put(DescriptionsBy(langs[..i], text).value, langs[i], DescriptionEntry(langs[i], text(langs[i]).value)))
  {
    assert langs[..i + 1][..i] == langs[..i];
    if text(langs[i]).Err? {
      DescriptionsByPrefixFails(langs, text, i + 1);
    }
  }

  /** The descriptions exist iff every language's text does. */
  lemma {:induction false} DescriptionsByOk(langs: seq<string>, text: string -> Res<string>)
    ensures DescriptionsBy(langs, text).Ok? <==> forall i :: 0 <= i < |langs| ==> text(langs[i]).Ok?
  {
    if langs != [] {
      var init := langs[..|langs| - 1];
      DescriptionsByOk(init, text);
      assert forall i :: 0 <= i < |init| ==> init[i] == langs[i];
    }
  }

  /** The last language of a successful `DescriptionsBy` puts its entry
      after those of the earlier languages. */
  lemma DescriptionsBySnoc(langs: seq<string>, text: string -> Res<string>)
    requires langs != [] && DescriptionsBy(langs, text).Ok?
    ensures var init := langs[..|langs| - 1];
            var lang := langs[|langs| - 1];
            DescriptionsBy(init, text).Ok? && text(lang).Ok? &&
            DescriptionsBy(langs, text).value == Put(DescriptionsBy(init, text).value, lang, DescriptionEntry(lang, text(lang).value))
  {
  }

  /** The descriptions hold one entry for each language and no other. */
  lemma {:induction false} DescriptionsByKeys(langs: seq<string>, text: string -> Res<string>)
    requires DescriptionsBy(langs, text).Ok?
    ensures Keys(DescriptionsBy(langs, text).value) == set lang | lang in langs
  {
    if langs != [] {
      var init := langs[..|langs| - 1];
      var lang := langs[|langs| - 1];
      DescriptionsBySnoc(langs, text);
      DescriptionsByKeys(init, text);
      assert langs == init + [lang];
      LangsSnoc(langs, init, lang);
    }
  }

  lemma LangsSnoc(langs: seq<string>, init: seq<string>, lang: string)
    requires langs == init + [lang]
    ensures (set l | l in langs) == (set l | l in init) + {lang}
  {
  }

  /** The entry of each language holds its text. */
  lemma {:induction false} DescriptionsByEntries(langs: seq<string>, text: string -> Res<string>)
    requires DescriptionsBy(langs, text).Ok?
    ensures forall lang :: lang in langs ==>
              text(lang).Ok? && Get(DescriptionsBy(langs, text).value, lang) == Some(DescriptionEntry(lang, text(lang).value))
  {
    if langs != [] {
      var init := langs[..|langs| - 1];
      var lang := langs[|langs| - 1];
      DescriptionsBySnoc(langs, text);
      DescriptionsByEntries(init, text);
      assert langs == init + [lang];
      PutEntries(DescriptionsBy(init, text).value, langs, init, lang, text);
    }
  }

  /** Putting one more language's entry keeps the entries of the others. */
  lemma PutEntries(d0: Dict<PyVal>, langs: seq<string>, init: seq<string>, lang: string, text: string -> Res<string>)
    requires langs == init + [lang] && text(lang).Ok?
    requires forall l :: l in init ==> text(l).Ok? && Get(d0, l) == Some(DescriptionEntry(l, text(l).value))
    ensures var d := Put(d0, lang, DescriptionEntry(lang, text(lang).value));
            forall l :: l in langs ==> text(l).Ok? && Get(d, l) == Some(DescriptionEntry(l, text(l).value))
  {
  }

  /** The descriptions hold exactly one entry per language, with its text. */
  lemma DescriptionsByPerLanguage(langs: seq<string>, text: string -> Res<string>)
    requires DescriptionsBy(langs, text).Ok?
    ensures Keys(DescriptionsBy(langs, text).value) == set lang | lang in langs
    ensures forall lang :: lang in langs ==>
              text(lang).Ok? && Get(DescriptionsBy(langs, text).value, lang) == Some(DescriptionEntry(lang, text(lang).value))
  {
    DescriptionsByKeys(langs, text);
    DescriptionsByEntries(langs, text);
  }

  /** The text of each language's description. */
  function DescriptionText(templates: PyVal, countryDict: Option<PyVal>): string -> Res<string> {
    lang => DescriptionOf(templates, countryDict, lang)
  }

  /** The description object `make_descriptions(templates)` returns. */
  function Descriptions(templates: PyVal, countryDict: Option<PyVal>, langs: seq<string>): Res<Dict<PyVal>> {
    DescriptionsBy(langs, DescriptionText(templates, countryDict))
  }

  /** The descriptions exist iff every language's template can be filled. */
  lemma DescriptionsOk(templates: PyVal, countryDict: Option<PyVal>, langs: seq<string>)
    ensures Descriptions(templates, countryDict, langs).Ok? <==>
              forall i :: 0 <= i < |langs| ==> DescriptionOf(templates, countryDict, langs[i]).Ok?
  {
    DescriptionsByOk(langs, DescriptionText(templates, countryDict));
  }

  /** The descriptions hold exactly one entry per language, with its text. */
  lemma DescriptionsPerLanguage(templates: PyVal, countryDict: Option<PyVal>, langs: seq<string>)
    requires Descriptions(templates, countryDict, langs).Ok?
    ensures Keys(Descriptions(templates, countryDict, langs).value) == set lang | lang in langs
    ensures forall lang :: lang in langs ==>
              DescriptionOf(templates, countryDict, lang).Ok? &&
              Get(Descriptions(templates, countryDict, langs).value, lang)
                == Some(DescriptionEntry(lang, DescriptionOf(templates, countryDict, lang).value))
  {
    DescriptionsByPerLanguage(langs, DescriptionText(templates, countryDict));
  }

  /** A template with one `{country}` field and no other brace gets the
      country's name in that language in its place. */
  lemma DescriptionFillsCountry(templates: Dict<PyVal>, countryDict: Dict<PyVal>, lang: string,
                                prefix: string, suffix: string)
    requires Field(templates, lang) == PyStr(prefix + CountryField + suffix)
    requires BraceFree(prefix) && BraceFree(suffix)
    ensures DescriptionOf(PyDict(templates), Some(PyDict(countryDict)), lang)
         == Ok(prefix + Str(Field(countryDict, lang)) + suffix)
  {
    BraceFormatOneField(prefix, suffix, Str(Field(countryDict, lang)));
  }

  /** Without a template for the language the description cannot be made. */
  lemma DescriptionNeedsTemplate(templates: Dict<PyVal>, countryDict: Option<PyVal>, langs: seq<string>, lang: string)
    requires lang in langs && lang !in Keys(templates)
    ensures Descriptions(PyDict(templates), countryDict, langs).Err?
  {
    DescriptionsOk(PyDict(templates), countryDict, langs);
    var i :| 0 <= i < |langs| && langs[i] == lang;
    assert DescriptionOf(PyDict(templates), countryDict, langs[i]).Err?;
  }

  // ---------------------------------------------------------------------
  // Shared by the record mappers of both bots

  /** `name = data.get(key)` followed by `if name and name.lower() not in
      bad_names`: the name when it may be used as a label. */
  function UsableName(data: Dict<PyVal>, key: string, badNames: set<string>): (r: Res<Option<string>>)
    ensures r == Ok(None) <==> !Truthy(Field(data, key)) ||
                                (Field(data, key).PyStr? && Lower(Field(data, key).s) in badNames)
    ensures r.Ok? && r.value.Some? <==>
              Field(data, key).PyStr? && Field(data, key).s != [] && Lower(Field(data, key).s) !in badNames
    ensures r.Ok? && r.value.Some? ==> r.value.value == Field(data, key).s
  {
    var name := Field(data, key);
    if !Truthy(name) then Ok(None)
    else if !name.PyStr? then Err(TypeFault("'" + TypeName(name) + "' object has no attribute 'lower'"))
    else if Lower(name.s) in badNames then Ok(None)
    else Ok(Some(name.s))
  }

  /** `WdS.Statement(value)`: no qualifier and no own reference. */
  function Plain(itis: Target): (st: Statement)
    ensures st.itis == itis && st.quals == [] && st.ref.None?
  {
    Statement(itis, [], None)
  }

  /** The item a preview names: an existing one, or none. */
  function PreviewQid(item: Option<Entity>): Option<string> {
    if item.Some? && item.value.Existing? then Some(item.value.qid) else None
  }

  /** The calls that write a record to `item`: its labels, its descriptions
      and its claims with the reference. */
  function CommitActions(labels: Dict<PyVal>, descriptions: Dict<PyVal>, protoclaims: Dict<Protoclaim>,
                         item: Entity, ref: Option<Reference>): Res<seq<Action>> {
    var labelActions :- LabelActions(labels, item, false);
    if ref.None? then Err(NotImplemented("self.ref must be set by the class inheriting WfdBot"))
    else Ok(labelActions + [Action.CommitDescriptions(descriptions, item)] + ClaimActions(protoclaims, item, ref))
  }

  /** Writing a record never creates an item, and every call targets `item`. */
  lemma CommitActionsTarget(labels: Dict<PyVal>, descriptions: Dict<PyVal>, protoclaims: Dict<Protoclaim>,
                            item: Entity, ref: Option<Reference>)
    requires CommitActions(labels, descriptions, protoclaims, item, ref).Ok?
    ensures NoCreation(CommitActions(labels, descriptions, protoclaims, item, ref).value)
    ensures forall a :: a in CommitActions(labels, descriptions, protoclaims, item, ref).value ==> !a.Creates() && a.item == item
  {
    var la := LabelActions(labels, item, false).value;
    var ca := ClaimActions(protoclaims, item, ref);
    var all := CommitActions(labels, descriptions, protoclaims, item, ref).value;
    assert all == la + [Action.CommitDescriptions(descriptions, item)] + ca;
    forall a | a in all ensures !a.Creates() && a.item == item {
      if a in la {
        LabelActionsExact(labels, item, false, a);
      } else if a in ca {
        ClaimActionsAreAdds(protoclaims, item, ref, a);
      }
    }
    forall i | 0 <= i < |all| ensures !all[i].Creates() {
      assert all[i] in all;
    }
  }

  /** A creation followed by writes to one item: every call after the
      first writes to that item. */
  lemma WritesAfterCreation(create: Action, writes: seq<Action>, item: Entity)
    requires forall a :: a in writes ==> !a.Creates() && a.item == item
    ensures var actions := [create] + writes;
            actions[0] == create &&
            forall i :: 1 <= i < |actions| ==> !actions[i].Creates() && actions[i].item == item
  {
    var actions := [create] + writes;
    forall i | 1 <= i < |actions| ensures !actions[i].Creates() && actions[i].item == item {
      assert actions[i] == writes[i - 1];
      assert actions[i] in writes;
    }
  }

  // ---------------------------------------------------------------------
  // The bot

  /** `WfdBot`: the Wikidata session, the options of the run, and the values
      set once per report. Options that belong to the command line (demo
      mode, names not to use as labels) are given to the constructor. */
  class WfdBot {
    const wd: WikidataStuff
    const mappings: Dict<PyVal>
    const year: string
    const createNew: bool
    const cutoff: Option<int>
    const langs: seq<string>
    const demo: bool
    const badNames: set<string>

    /** `self.country_dict`; None until `set_common_values` sets it. */
    var countryDict: Option<PyVal>
    /** `self.country`: the country's item. */
    var country: Option<string>
    var datasetQ: PyVal
    var ref: Option<Reference>
    var language: PyVal
    var descriptions: PyVal
    /** `self.preview_data`. */
    var previews: seq<PreviewItem>

    constructor(mappings: Dict<PyVal>, year: string, createNew: bool, cutoff: Option<int>,
                demo: bool, badNames: set<string>)
      ensures fresh(wd) && wd.log == []
      ensures this.mappings == mappings && this.year == year && this.createNew == createNew
      ensures this.cutoff == cutoff && this.demo == demo && this.badNames == badNames
      ensures langs == Langs
      ensures countryDict.None? && country.None? && datasetQ == PyNone && ref.None?
      ensures language == PyNone && descriptions == PyNone && previews == []
    {
      wd := new WikidataStuff();
      this.mappings := mappings;
      this.year := year;
      this.createNew := createNew;
      this.cutoff := cutoff;
      this.demo := demo;
      this.badNames := badNames;
      langs := Langs;
      countryDict := None;
      country := None;
      datasetQ := PyNone;
      ref := None;
      language := PyNone;
      descriptions := PyNone;
      previews := [];
    }

    /** `set_common_values(data)`. */
    method SetCommonValues(data: PyVal) returns (r: Res<()>)
      modifies this
      ensures r.Ok? <==> CommonValues(mappings, year, langs, data).Ok?
      ensures r.Err? ==> Err(r.error) == CommonValues(mappings, year, langs, data)
      ensures r.Ok? ==>
                countryDict.Some? && country.Some? && ref.Some? &&
                CommonValues(mappings, year, langs, data)
                  == Ok(Common(countryDict.value, country.value, datasetQ, language, ref.value))
      ensures descriptions == old(descriptions) && previews == old(previews)
    {
      var c := CommonValues(mappings, year, langs, data);
      if c.Err? {
        return Err(c.error);
      }
      var v := c.value;
      countryDict, country, datasetQ, language, ref := Some(v.countryDict), Some(v.country), v.datasetQ, v.language, Some(v.ref);
      r := Ok(());
    }

    /** `make_descriptions(templates)`: one entry per required language. */
    method MakeDescriptions(templates: PyVal) returns (r: Res<Dict<PyVal>>)
      ensures r == Descriptions(templates, countryDict, langs)
    {
      ghost var text := DescriptionText(templates, countryDict);
      var descs: Dict<PyVal> := [];
      var i := 0;
      assert langs[..0] == [];
      while i < |langs|
        invariant 0 <= i <= |langs|
        invariant DescriptionsBy(langs[..i], text) == Ok(descs)
      {
        var got := DescriptionOf(templates, countryDict, langs[i]);
        DescriptionsByStep(langs, text, i);
        if got.Err? {
          return Err(got.error);
        }
        descs := Put(descs, langs[i], DescriptionEntry(langs[i], got.value));
        i := i + 1;
      }
      assert langs[..i] == langs;
      r := Ok(descs);
    }

    /** `process_single_*` writing a record: `commit_labels`,
        `commit_descriptions` and `commit_claims` on `item`. */
    method CommitRecord(labels: Dict<PyVal>, descriptions: Dict<PyVal>, protoclaims: Dict<Protoclaim>, item: Entity)
      returns (r: Res<()>)
      modifies wd
      ensures r.Ok? <==> CommitActions(labels, descriptions, protoclaims, item, ref).Ok?
      ensures r.Ok? ==> wd.log == old(wd.log) + CommitActions(labels, descriptions, protoclaims, item, ref).value
    {
      var done := CommitLabels(labels, item);
      if done.Err? {
        return done;
      }
      ghost var labelled := LabelActions(labels, item, false).value + [Action.CommitDescriptions(descriptions, item)];
      wd.CommitDescriptions(descriptions, item);
      AppendAssoc(old(wd.log), LabelActions(labels, item, false).value, [Action.CommitDescriptions(descriptions, item)]);
      r := CommitClaims(protoclaims, item);
      AppendAssoc(old(wd.log), labelled, ClaimActions(protoclaims, item, ref));
    }

    /** `commit_labels(labels, item)` for the label entries the WFD bots
        build (lists of names, or one name). */
    method CommitLabels(labels: Dict<PyVal>, item: Entity) returns (r: Res<()>)
      modifies wd
      ensures r.Ok? <==> LabelActions(labels, item, false).Ok?
      ensures r.Ok? ==> wd.log == old(wd.log) + LabelActions(labels, item, false).value
    {
      r := CommitLabelsTo(wd, labels, item, false);
    }

    /** `commit_claims(protoclaims, item)`: without a reference nothing is
        added and `NotImplementedError` is raised. */
    method CommitClaims(protoclaims: Dict<Protoclaim>, item: Entity) returns (r: Res<()>)
      modifies wd
      ensures r.Err? <==> ref.None?
      ensures r.Err? ==> r.error.NotImplemented? && wd.log == old(wd.log)
      ensures r.Ok? ==> wd.log == old(wd.log) + ClaimActions(protoclaims, item, ref)
    {
      if ref.None? {
        return Err(NotImplemented("self.ref must be set by the class inheriting WfdBot"));
      }
      CommitClaimsTo(wd, protoclaims, item, ref);
      r := Ok(());
    }
  }

}
