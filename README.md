# WFD import bots, modelled in Dafny

This project models the bots that import Water Framework Directive (WFD) reports into Wikidata. Each bot reads one report of a country and the bot's mapping tables. It turns every record of the report into labels, descriptions and claims. It writes them to the record's Wikidata item, or creates an item when new items may be created. The modules are:

- `Base` (WFD/WFDBase.py): the shared bot state, the values read once per report, and the descriptions filled from templates.
- `Commit`: the Wikidata session as a log of calls, and the `commit_labels`, `commit_claims` and `make_ref` steps.
- `Validation`: `validate_mapping`.
- `Rbd` (WFD/RBD.py): the river basin district bot.
- `Swb` (WFD/swb_import.py): the surface water body bot.
- `Preview` (WFD/PreviewItem.py): the wikitext preview written in demo mode.
- `LegacyBase` (WFDBase.py) and `LegacyRbd` (RBD.py): the older base bot and the older RBD bot.
- `Driver`: the batch loop all three bots share.
- `Py`, `Text`, `Format`, `Wikidata` and `Wrappers`: the Python values, string operations, template filling and library values the bots use.

The model records each call to the Wikidata library (`addLabelOrAlias`, `addNewClaim`, `commit_descriptions`, `create_new_item`, `make_new_item`) as an action appended to the session's log. An item that does not exist yet is named by how it was made: by its id claim, or by its labels and descriptions in the legacy bot. Each bot is a class whose methods change the log, the preview list and the per-report fields. Every method is proved against a function that states the whole run, and the properties are proved about those functions.

The SWB bot and the newer RBD bot use `demo`, `bad_names`, `preview_data`, `create_new_item` and `commit_descriptions`. WFD/WFDBase.py does not define them. The model takes `demo` and the bad names as constructor arguments of the base bot. It treats `create_new_item` and `commit_descriptions` as calls into the Wikidata library.

Python dicts are modelled as lists of pairs in iteration order. A dict read from a mapping file, a report or a query result is a parameter whose order stands for Python's iteration order of that dict; for a plain dict, such as one parsed from JSON or the query result `iteritems` walks (WFD/RBD.py:73), that is CPython 2.7's hash order, and it is this order that decides which group `validate_mapping` reports first and which known item is reported as bad first. A dict the bots build is extended at the end by `Py.Put`, in the order of assignment; CPython 2.7 iterates such a dict in the order of its keys' hashes instead (see "Left out"). The order matters in three places: the nested form of `validate_mapping` reports the first group that lacks a key, the inversion of the known items reports the first bad item, and the Wikidata calls follow the order in which the loops visit the dicts. Raised exceptions are modelled as the `Err` case of a result. The bots never catch them, so a run stops at the first one. The error kinds name the Python exceptions: `KeyFault` is a KeyError, `TypeFault` a TypeError or an AttributeError, `ValueFault` a ValueError, and `ForeignFault` an error raised inside a library call that was handed None.

The strings the WFD bots handle are Python 2 `unicode` strings: WFD/WFDBase.py, WFD/RBD.py, WFD/swb_import.py, WFD/PreviewItem.py and the legacy WFDBase.py import `unicode_literals`, and JSON and XML parsing give unicode. So `repr` writes strings with a `u` prefix, as in `{u'value': u'…', u'language': u'sv'}`. The legacy RBD.py does not import `unicode_literals`, so its own literals (`'en'`, `'national'`, `'language'`, `'value'` and its error texts) are byte strings. The model writes them as plain strings: they are only compared with, and used as keys beside, unicode text that equals them, and the legacy bot prints no preview, so none of the calls or messages the model records depends on the difference.

The repository's tests and its code disagree on the message of `validate_mapping`, and the model follows the code. The tests (tests/test_wfdbot.py:37-43 and 69-78) expect the missing keys without brackets (`c`, and `second, c` for a nested mapping). The code writes them in brackets: `[c]` and `(second, [c])` (WFD/WFDBase.py:254 and 259). For a nested mapping, the code raises at the first group that lacks a key and does not look at the other groups.

## Model

| member | source | states |
|---|---|---|
| Base.UnmappedCountry | WFD/WFDBase.py:74-79 | a country code missing from the country mapping raises UnmappedValueError for `countryCode` with that code |
| Base.CountryWithoutItem | WFD/WFDBase.py:75-79 | a mapped country entry without `qId` raises the same UnmappedValueError |
| Base.UnmappedDataset | WFD/WFDBase.py:82-86 | a year without datasets raises UnmappedValueError for `dataset` with the `(year, country)` pair |
| Base.CommonValuesNeedDict | WFD/WFDBase.py:74 | a report that is not a dict is rejected |
| Base.CommonCountryFound | WFD/WFDBase.py:74-80 | on success the country entry and item are the mapped ones, and the entry passed validation for the required languages |
| Base.CountryNamesLanguages | WFD/WFDBase.py:80 | on success a flat country entry names every required language |
| Base.CommonDatasetFound | WFD/WFDBase.py:82-84 | on success the dataset item is the one mapped for the year and the country |
| Base.CommonLanguageAndRef | WFD/WFDBase.py:89-95 | on success the language is the mapped `@language` and the reference is `make_ref` of the dataset item |
| Base.CommonValues | WFD/WFDBase.py:68-95 | `set_common_values`: the country entry and item, the dataset item, the language and the reference, or the first lookup's error (no contract of its own: Base.CommonCountryFound, Base.CommonDatasetFound and Base.CommonLanguageAndRef state it) |
| Base.DescriptionsByOk | WFD/WFDBase.py:191-196 | the language loop succeeds iff every language's text does |
| Base.DescriptionsByKeys | WFD/WFDBase.py:191-196 | the description object has exactly one key per language |
| Base.DescriptionsByEntries | WFD/WFDBase.py:191-196 | each language maps to `{'value': text, 'language': lang}` with its own text |
| Base.DescriptionsByPerLanguage | WFD/WFDBase.py:191-196 | the description object has exactly one key per language, each mapped to `{'language': lang, 'value': text}` |
| Base.DescriptionsOk | WFD/WFDBase.py:180-196 | the descriptions exist iff each language's template can be read and filled |
| Base.DescriptionsPerLanguage | WFD/WFDBase.py:180-196 | the descriptions hold exactly one entry per required language, holding that language's filled template |
| Base.Descriptions | WFD/WFDBase.py:180-196 | the description object of `make_descriptions`, language by language (no contract of its own: Base.DescriptionsOk and Base.DescriptionsPerLanguage state it) |
| Base.DescriptionEntryPreviewLine | WFD/PreviewItem.py:221-223 | in the preview a description entry shows as `* '''lang''': {u'value': u'text', u'language': u'lang'}` |
| Base.DescriptionFillsCountry | WFD/WFDBase.py:193-194 | a template with one `{country}` field and no other brace gets the country's name in that language in its place |
| Base.DescriptionNeedsTemplate | WFD/WFDBase.py:193 | a language without a template makes the descriptions fail |
| Base.UsableName | WFD/swb_import.py:145-147 | a name is used iff it is a non-empty string whose lower case is not a bad name; a falsy or bad name gives no label |
| Base.Plain | WFD/swb_import.py:174 | `WdS.Statement(value)` has the value, no qualifier and no own reference |
| Base.CommitActionsTarget | WFD/swb_import.py:129-132 | writing a record (labels, descriptions, claims) creates no item and every call targets the given item |
| Base.WritesAfterCreation | WFD/swb_import.py:116-132 | after a creation every following call writes to the created item and creates nothing |
| Base.WfdBot.constructor | WFD/WFDBase.py:38-65 | a new bot holds the given mappings, year, options and bad names, the required languages, an empty Wikidata log, no previews, and no country, dataset, reference, language or descriptions |
| Base.WfdBot.SetCommonValues | WFD/WFDBase.py:68-95 | the method succeeds iff the shared values can be derived, raises exactly their error otherwise, and on success sets exactly them |
| Base.WfdBot.MakeDescriptions | WFD/WFDBase.py:180-196 | the loop over the languages computes the descriptions |
| Base.WfdBot.CommitRecord | WFD/swb_import.py:129-132 | the log grows by exactly the label, description and claim calls of the record |
| Base.WfdBot.CommitLabels | WFD/WFDBase.py:97-110 | the log grows by exactly the label calls, read the way the WFD bots build labels (see Findings) |
| Base.WfdBot.CommitClaims | WFD/WFDBase.py:112-139 | without a reference the method raises NotImplementedError and calls nothing; otherwise the log grows by exactly the claim calls |
| Commit.WikidataStuff.constructor | WFD/WFDBase.py:51 | a new Wikidata session has made no call |
| Commit.WikidataStuff.AddLabelOrAlias | WFD/WFDBase.py:109-110 | the call is appended to the log and nothing else changes |
| Commit.WikidataStuff.AddNewClaim | WFD/WFDBase.py:132-133 | the call is appended to the log and nothing else changes |
| Commit.WikidataStuff.CommitDescriptions | WFD/swb_import.py:131 | the call is appended to the log and nothing else changes |
| Commit.WikidataStuff.CreateNewItem | WFD/swb_import.py:162 | the creation call is appended to the log and the created item is the one named by its id claim |
| Commit.WikidataStuff.MakeNewItem | RBD.py:182 | the creation call is appended to the log and the item is the one made from those labels and descriptions |
| Commit.LabelValues | WFD/WFDBase.py:107 | a list-valued label gives its names, a string one its single name, and a dict one is read through its `value` key as written |
| Commit.ListLabelRejected | WFD/WFDBase.py:107 | a list of names stored for a language makes the `data['value']` reading fail, while the corrected reading adds one label or alias per name |
| Commit.AddEachLabel | WFD/WFDBase.py:108-110 | one label-or-alias call per value, in order, for that language and item |
| Commit.LabelActionsExact | WFD/WFDBase.py:104-110 | the label calls are exactly one per value of every language, all on the item |
| Commit.LabelActions | WFD/WFDBase.py:97-110 | the label calls of `commit_labels`, language by language (no contract of its own: Commit.LabelActionsExact states it) |
| Commit.AddLabels | WFD/WFDBase.py:108-110 | the inner loop appends exactly those calls |
| Commit.CommitLabelsTo | WFD/WFDBase.py:97-110 | the loop over the languages appends exactly the label calls, and fails iff reading some language's values fails |
| Commit.ListClaims | WFD/WFDBase.py:127-133 | a list value is deduplicated and its None statements dropped: the claims are distinct and are exactly the non-None statements |
| Commit.Kept | WFD/WFDBase.py:131 | the kept statements are exactly the non-None ones, and distinct input stays distinct |
| Commit.AddEachClaim | WFD/WFDBase.py:132-133 | one add-claim call per statement, in order, with the property, item and reference |
| Commit.ClaimActionsAreAdds | WFD/WFDBase.py:125-139 | every claim call adds a claim to the item with the bot's reference |
| Commit.ClaimActionsExact | WFD/WFDBase.py:125-139 | a statement is added under a property iff it is not None and the protoclaims propose it for that property |
| Commit.ClaimActions | WFD/WFDBase.py:112-139 | the claim calls of `commit_claims`, property by property (no contract of its own: Commit.ClaimActionsExact states it) |
| Commit.PropClaimActionsExact | WFD/WFDBase.py:126-139 | for one property, exactly its non-None statements are added |
| Commit.ClaimActionsDistinct | WFD/WFDBase.py:125-133 | with distinct properties no claim is added twice |
| Commit.PropClaimActionsDistinct | WFD/WFDBase.py:127-128 | one property never adds the same claim twice |
| Commit.AddListClaims | WFD/WFDBase.py:127-136 | the loop over a list value appends exactly the calls for its distinct non-None statements |
| Commit.CommitClaimsTo | WFD/WFDBase.py:125-139 | the loop over the properties appends exactly the claim calls |
| Commit.CommitPropClaims | WFD/WFDBase.py:126-139 | one property appends nothing when falsy, otherwise its claim calls |
| Commit.MakeRef | WFD/WFDBase.py:141-177 | without a dataset item NotImplementedError; otherwise a reference exists iff the report has the creation date, retrieval date and source url, and then it tests P248 and P854 and does not test P577 and P813 |
| Rbd.RbdIdItemsPairs | WFD/RBD.py:71-83 | a successful inversion pairs every item's EU code with its Q-id, one pair per item, in the query's order |
| Rbd.RbdIdItemsOk | WFD/RBD.py:71-83 | the inversion succeeds if and only if every item has a code and no two items share one |
| Rbd.UniqueCodesInvert | WFD/RBD.py:71-83 | present and unique codes always invert |
| Rbd.InvertedCodesUnique | WFD/RBD.py:71-83 | a successful inversion implies present and unique codes |
| Rbd.RbdIdItems | WFD/RBD.py:66-83 | the query's items inverted into EU code to Q-id, stopping at the first item without a code or with a repeated one (no contract of its own: Rbd.RbdIdItemsOk and Rbd.RbdIdItemsPairs state it) |
| Rbd.RbdIdItemsLookup | WFD/RBD.py:82 | after inversion, each item's code looks up exactly that item |
| Rbd.MissingCodeReported | WFD/RBD.py:75-77 | the first item without a code fails the whole load with "Found an RBD without euRBDCode: <qid>" |
| Rbd.DuplicateCodeReported | WFD/RBD.py:78-81 | the first repeated code fails the whole load with the later and the earlier Q-id |
| Rbd.LoadExistingRbd | WFD/RBD.py:66-83 | the loop over the query results computes the inversion, with its errors |
| Rbd.RbdInit | WFD/RBD.py:61-64 | the constructor's tables exist iff `countryCode`, `CompetentAuthority` and `descriptions.RBD` are present and the codes are unique; the id table is then the inversion |
| Rbd.CheckCountry | WFD/RBD.py:102-120 | an unmapped country, a country without `qId`, and missing languages give their three messages; otherwise the check passes iff every language is a key of the country entry |
| Rbd.CheckedCountryHasQid | WFD/RBD.py:111-114 | a country that passed the check has a truthy `qId` for the P17 claim |
| Rbd.PrimeAuthoritiesEach | WFD/RBD.py:95-97 | the authorities are collected iff every district is a dict naming one, and then they are each district's value in order |
| Rbd.AuthoritiesMapped | WFD/RBD.py:89-100 | with a flat authority mapping the check passes iff every district names an authority that is a key of the mapping |
| Rbd.RbdLabels | WFD/RBD.py:204-208 | without the alias, the labels are `{'en': [name]}` exactly when the name is usable, and empty otherwise |
| Rbd.AliasAppendsCode | WFD/RBD.py:210-213 | with the alias, the English list is the plain list (or `[]`) with the EU code appended |
| Rbd.RbdDescriptionsTemplate | WFD/RBD.py:215-225 | the descriptions come from the `international` templates iff `internationalRBD` is "Yes", otherwise from the `national` ones |
| Rbd.RbdDescriptions | WFD/RBD.py:215-225 | the national or the international descriptions of a district (no contract of its own: Rbd.RbdDescriptionsTemplate states it) |
| Rbd.RbdProtoclaims | WFD/RBD.py:247-266 | a district without `euRBDCode` fails with KeyError on it; one without `primeCompetentAuthority` fails with KeyError on that |
| Rbd.RbdProtoclaimsShape | WFD/RBD.py:247-266 | the protoclaims are exactly P31 river basin district, the EU code, P17 country, P137 the mapped authority and P2046 the area in the area unit, in this order |
| Rbd.NewRbdItemLost | WFD/RBD.py:155-157 | as written, a district without an item stops with AttributeError on None right after the creation call (see Findings) |
| Rbd.NewRbdItemWritten | WFD/RBD.py:155-157 | with the created item returned, the creation comes first and every later call writes to the created item |
| Rbd.NewRbdEffect | WFD/RBD.py:155-172 | writing a new district is the creation followed by the writes to the created item |
| Rbd.NewRbdItemCall | WFD/RBD.py:174-186 | the creation call carries the labels without alias, the district's descriptions and the EU-code claim |
| Rbd.WriteRbdTargets | WFD/RBD.py:170-172 | writing a district creates nothing and targets only the given item |
| Rbd.RbdEffectKinds | WFD/RBD.py:155-172 | demo mode makes one preview and no call; live mode makes no preview, and with a known item writes only to it |
| Rbd.RbdEffect | WFD/RBD.py:146-172 | one district's effect: a preview in demo mode, otherwise the creation of an item when there is none and the label, description and claim calls (no contract of its own: Rbd.RbdEffectKinds and Rbd.NewRbdEffect state it) |
| Rbd.RbdKnown | WFD/RBD.py:137-140 | an entry has a known item iff its `euRBDCode` is a string among the loaded codes, and the item is the Q-id loaded for it |
| Rbd.CountryRunChecked | WFD/RBD.py:128-130 | a country run that succeeds has passed the country check and the authority check before any district is processed |
| Rbd.RbdRunBounds | WFD/RBD.py:133-144 | the run processes exactly the selected districts, at most a positive cutoff of them; without `new` it creates nothing and processes only known districts |
| Rbd.RbdRunModes | WFD/RBD.py:133-144 | in demo mode the run makes one preview per processed district and no call; in live mode no preview |
| Rbd.RbdRun | WFD/RBD.py:133-144 | the loop of `process_country_rbd` as the shared driver loop over the districts (no contract of its own: Rbd.RbdRunBounds and Rbd.RbdRunModes state it) |
| Rbd.RbdPrelude | WFD/RBD.py:270-284 | a successful prelude reads the country code of the report |
| Rbd.RbdPreludeValues | WFD/RBD.py:272-284 | after the prelude the descriptions passed validation and the reference's P248 cites the dataset of the year and country |
| Rbd.RbdAll | WFD/RBD.py:270-288 | `process_all_rbd`: the prelude, then the country run over the listified districts with the report's reference (no contract of its own: Rbd.RbdBot.ProcessAllRbd is proved against it) |
| Rbd.RbdBot.constructor | WFD/RBD.py:50-64 | the bot starts with an empty log and no previews, holding the given options and the tables read at start |
| Rbd.RbdBot.CheckAllCompetentAuthorities | WFD/RBD.py:89-100 | the loop collecting authorities, then validation, computes the authority check |
| Rbd.RbdBot.MakeDescriptions | WFD/RBD.py:215-225 | the method computes the district's descriptions |
| Rbd.RbdBot.CreateNewRbdItem | WFD/RBD.py:174-186 | the creation appends exactly the creation call to the log and returns the created item |
| Rbd.RbdBot.MakeRecord | WFD/RBD.py:159-163 | the labels with alias, the descriptions and the protoclaims of a district |
| Rbd.RbdBot.ProcessSingleRbd | WFD/RBD.py:146-172 | the log and previews grow by exactly the district's effect, and the call fails iff the effect does |
| Rbd.RbdBot.PreviewSingleRbd | WFD/RBD.py:166-168 | in demo mode one preview is appended and nothing is called |
| Rbd.RbdBot.WriteSingleRbd | WFD/RBD.py:155-172 | in live mode the log grows by exactly the district's calls |
| Rbd.RbdBot.WriteRecordTo | WFD/RBD.py:170-172 | the log grows by exactly the writes of the district to the item |
| Rbd.RbdBot.ProcessEntry | WFD/RBD.py:134-144 | one loop turn moves the loop state by one step of the run function and keeps log and previews in step with it |
| Rbd.RbdBot.ProcessEligible | WFD/RBD.py:142-144 | a processed district adds its effect, its index and one to the count |
| Rbd.RbdBot.ProcessDistricts | WFD/RBD.py:133-144 | the loop's log and previews are exactly those of the run function |
| Rbd.RbdBot.ProcessCountryRbd | WFD/RBD.py:122-144 | the checks and the loop together make exactly the country run's calls and previews |
| Rbd.RbdBot.ReadReport | WFD/RBD.py:272-284 | the dataset item and the reference are set exactly as the prelude computes them |
| Rbd.RbdBot.ProcessAllRbd | WFD/RBD.py:270-288 | the whole report run sets the dataset and reference and makes exactly the calls and previews of the listified districts' run |
| Swb.MakeLabels | WFD/swb_import.py:134-148 | the labels are `{'en': [name]}` exactly when the name is a non-empty string whose lower case is not a bad name, and empty otherwise (the list is the corrected form, see Findings) |
| Swb.BareLabelBreaksPreview | WFD/swb_import.py:144-148 | the bare-string label as written makes the labels preview fail, while the listed label previews as the italicised name; both commit the same label call |
| Swb.ImpactStatement | WFD/swb_import.py:216-226 | each impact statement carries exactly the P585 qualifier of the report year and no own reference |
| Swb.ImpactStatementLookup | WFD/swb_import.py:217-226 | the impact's text before " - " is looked up; a Q-id gives an item statement, any other value a special (novalue/somevalue) statement |
| Swb.ImpactStatementsEach | WFD/swb_import.py:216-226 | the impacts give statements iff each does, one per impact, in order |
| Swb.SignificantImpactTypeShape | WFD/swb_import.py:214-232 | one statement per listed impact, or the single dated "novalue" statement when there is none; all dated by P585 |
| Swb.EcologicalStatus | WFD/swb_import.py:249-267 | a mapped status gives a dated item statement, "Unknown" a dated somevalue, "Not applicable" no claim, and any other value UnexpectedValueError |
| Swb.SwbProtoclaimsShape | WFD/swb_import.py:170-192 | the protoclaims are P31, the EU code, P17, P361, P3643 and P4002, in this order, with the code verbatim, the bot's country and district, and the impact and status claims |
| Swb.SwbProtoclaims | WFD/swb_import.py:164-192 | the protoclaims of a record, or the error of its first failing lookup (no contract of its own: Swb.SwbProtoclaimsShape states their shape) |
| Swb.SignificantImpactType | WFD/swb_import.py:194-232 | the statements of the listed impacts, or the single dated `novalue` statement when none is listed (no contract of its own: Swb.SignificantImpactTypeShape states it) |
| Swb.MakeLabelsAsWritten | WFD/swb_import.py:134-148 | the labels as written: `{'en': name}` holding the bare name when it is usable, no label otherwise (no contract of its own: Swb.BareLabelBreaksPreview states what it breaks) |
| Swb.NewSwbItemLost | WFD/swb_import.py:116-118 | as written, a record without an item stops with AttributeError on None right after the creation call (see Findings) |
| Swb.NewSwbItemWritten | WFD/swb_import.py:116-132 | with the created item returned, the creation comes first and every later call writes to the created item |
| Swb.NewSwbItemCall | WFD/swb_import.py:150-162 | the creation call carries the record's labels, the descriptions and the EU-code claim |
| Swb.WriteSwbTargets | WFD/swb_import.py:129-132 | writing a record creates nothing and targets only the given item |
| Swb.SwbEffectKinds | WFD/swb_import.py:116-132 | demo mode makes one preview and no call; live mode makes no preview, and with a known item writes only to it |
| Swb.SwbEffect | WFD/swb_import.py:108-132 | one record's effect: a preview in demo mode, otherwise the creation of an item when there is none and the label, description and claim calls (no contract of its own: Swb.SwbEffectKinds and Swb.NewSwbItemWritten state it) |
| Swb.SwbRunBounds | WFD/swb_import.py:93-105 | the run processes exactly the selected records, at most a positive cutoff of them; without `new` it creates nothing and processes only known records |
| Swb.SwbRunModes | WFD/swb_import.py:93-105 | in demo mode one preview per processed record and no call; in live mode no preview |
| Swb.SwbRun | WFD/swb_import.py:85-105 | the loop of `process_all_swb` as the shared driver loop over the records, with the known items and the record effect (no contract of its own: Swb.SwbRunBounds and Swb.SwbRunModes state it) |
| Swb.UnknownDistrict | WFD/swb_import.py:75-80 | a district code with no known item hands None to `QtoItemPage` (the KeyError handler cannot catch it) |
| Swb.SwbValuesFound | WFD/swb_import.py:74-83 | on success the district item is the one known for `euRBDCode`, and the SWB descriptions passed validation |
| Swb.CollectedOk | WFD/swb_import.py:305-307 | collecting succeeds iff every record is a dict |
| Swb.CollectedAll | WFD/swb_import.py:303-307 | the categories are each record's category, and the impacts are exactly those listed by some record |
| Swb.ImpactKeys | WFD/swb_import.py:308 | the keys exist iff every impact is a string, and each is that impact's text before " - " |
| Swb.ValidateRecordsFlat | WFD/swb_import.py:292-315 | with flat mappings the records pass iff every category and every impact key is a mapped key |
| Swb.SingleRecordRejected | WFD/swb_import.py:305 | as written, a single record (a dict, not a list) is iterated by its keys and rejected, while the listified form validates it as one record (see Findings) |
| Swb.ListOfRecordsSame | WFD/swb_import.py:305 | for a list of records the listified validation agrees with the code as written |
| Swb.ValidateIndata | WFD/swb_import.py:292-315 | `validate_indata` with the records listified: a report that is not a dict fails; otherwise every category and impact key is validated against its mapping (no contract of its own: Swb.ValidateRecordsFlat and Swb.ListOfRecordsSame state it) |
| Swb.ValidateIndataAsWritten | WFD/swb_import.py:292-315 | `validate_indata` as written, iterating `SurfaceWaterBody` as it is (no contract of its own: Swb.SingleRecordRejected states where it differs) |
| Swb.SwbBot.constructor | WFD/swb_import.py:37-57 | the bot starts with an empty log and no previews, with the options, the known items and the category and impact mappings |
| Swb.SwbBot.SetCommonValues | WFD/swb_import.py:68-83 | the method succeeds iff the shared and the SWB values can be derived, and then sets exactly those values |
| Swb.SwbBot.MakeSignificantImpactType | WFD/swb_import.py:194-232 | the loop computes the impact statements |
| Swb.SwbBot.MakeProtoclaims | WFD/swb_import.py:164-192 | the method computes the record's protoclaims |
| Swb.SwbBot.CreateNewSwbItem | WFD/swb_import.py:150-162 | the creation appends exactly the creation call to the log and returns the created item |
| Swb.SwbBot.MakeRecord | WFD/swb_import.py:120-123 | the labels, descriptions and protoclaims of a record |
| Swb.SwbBot.ProcessSingleSwb | WFD/swb_import.py:108-132 | the log and previews grow by exactly the record's effect, and the call fails iff the effect does |
| Swb.SwbBot.WriteSingleSwb | WFD/swb_import.py:116-132 | in live mode the log grows by exactly the record's calls |
| Swb.SwbBot.ProcessEntry | WFD/swb_import.py:95-105 | one loop turn moves the loop state by one step of the run function and keeps log and previews in step with it |
| Swb.SwbBot.ProcessEligible | WFD/swb_import.py:103-105 | a processed record adds its effect, its index and one to the count |
| Swb.SwbBot.ProcessAllSwb | WFD/swb_import.py:85-105 | the loop over the listified records makes exactly the run's calls and previews |
| Preview.PropNumber | WFD/PreviewItem.py:39-40 | the sort key `int(prop[1:])` reads the text after the first character as `int` does, failing with ValueError exactly when `int` would; for `P` followed by digits it is the number those digits spell |
| Preview.PropNumberOfId | WFD/PreviewItem.py:39-40 | the property id `P<n>` sorts under the number `n` |
| Preview.CheckProps | WFD/PreviewItem.py:39-40 | sorting the protoclaims succeeds iff every property has a number |
| Preview.NewPreviewItem | WFD/PreviewItem.py:19-42 | a preview exists iff every property has a number; its labels and descriptions are a permutation of the given ones sorted by language, its protoclaims a permutation sorted by property number, and it keeps the item and the reference |
| Preview.Bold | WFD/PreviewItem.py:238-240 | the text framed by three quotes on each side |
| Preview.Italics | WFD/PreviewItem.py:243-245 | the text framed by two quotes on each side |
| Preview.WikidataTemplate | WFD/PreviewItem.py:248-283 | a Q or P id gives `{{Q\|id}}` or `{{P\|id}}`; otherwise only the special `somevalue` and `novalue` render, as `{{Q'\|some value}}` and `{{Q'\|no value}}`; anything else raises ValueError |
| Preview.TemplateInjective | WFD/PreviewItem.py:264-283 | two ids with the same template are the same id |
| Text.Strip | WFD/PreviewItem.py:189 | `str.strip` returns the part of the text left after removing only spaces from both ends, and that part neither starts nor ends with a space |
| Text.StripTrimmed | WFD/PreviewItem.py:189 | a text that neither starts nor ends with a space is its own strip |
| Text.SpacedStrip | WFD/PreviewItem.py:189 | spaces added around a trimmed text are exactly what `strip` takes away |
| Preview.FormatItis | WFD/PreviewItem.py:166-193 | an item is rendered as its template, a special value as its special template, any other value as its text |
| Preview.FormatQual | WFD/PreviewItem.py:130-133 | a qualifier renders iff its property is a Q or P id and its value renders, as `{{P\|prop}}: value` |
| Preview.FormatClaim | WFD/PreviewItem.py:152-163 | a reference claim renders iff its property is a Q or P id and its value renders, as `{{P\|prop}}: value` |
| Preview.ClaimLine | WFD/PreviewItem.py:142 | a claim's line renders iff the claim does, as `:*{{P\|prop}}: value` and a newline |
| Preview.ReferencePart | WFD/PreviewItem.py:139-147 | a part without claims renders nothing; otherwise it renders iff every claim's line does, as the line `:''heading'':` followed by the claims' lines |
| Preview.ReferenceText | WFD/PreviewItem.py:137-149 | a reference renders iff every tested and every untested claim's line does, as the tested part followed by the untested part; a reference without claims renders as the empty text |
| Preview.ReferenceOneTestedClaim | WFD/PreviewItem.py:137-149 | a reference with one tested claim and no untested one renders as `:''tested'':` and `:*{{P\|prop}}: value` on two lines |
| Preview.FormatClaimLines | WFD/PreviewItem.py:141-142 | the loop over one part's claims appends one `:*<claim>` line per claim and stops at the first claim that cannot be written, as `Py.ConcatAll` over `Preview.ClaimLine` states |
| Preview.FormatReference | WFD/PreviewItem.py:137-149 | the method's text and errors are those of `Preview.ReferenceText` |
| Preview.Strings | WFD/PreviewItem.py:211 | `' \| '.join` succeeds iff every value is a string, and then it joins exactly those strings |
| Preview.LabelLine | WFD/PreviewItem.py:207-211 | a language's line renders iff its names are a list whose aliases after the first are strings |
| Preview.LabelsTextAppend | WFD/PreviewItem.py:205-212 | the labels text of two label lists is the text of the first followed by the text of the second |
| Preview.LabelsTextSkipsEmpty | WFD/PreviewItem.py:207 | a language with no names adds no line |
| Preview.PyStrs | WFD/PreviewItem.py:208-209 | each string becomes a Python string in the same place |
| Preview.LabelsTextOneLanguage | WFD/PreviewItem.py:206-211 | one language renders as `* '''lang''': ''name'' \| alias…` on its own line |
| Preview.LabelsText | WFD/PreviewItem.py:196-212 | `format_labels`: one line per language with a truthy value (no contract of its own: Preview.LabelsTextAppend, Preview.LabelsTextSkipsEmpty and Preview.LabelsTextOneLanguage state it) |
| Preview.FormatLabels | WFD/PreviewItem.py:196-212 | the loop over the languages computes the labels text |
| Preview.DescriptionsText | WFD/PreviewItem.py:214-224 | `format_descriptions`: one line per language (no contract of its own: Preview.DescriptionsTextLines states it) |
| Preview.DescriptionsTextLines | WFD/PreviewItem.py:214-224 | the descriptions text is exactly one bold-language line per description, in order |
| Preview.FormatDescriptions | WFD/PreviewItem.py:214-224 | the loop over the descriptions computes that text |
| Preview.FormatItem | WFD/PreviewItem.py:226-235 | no item renders as the dash marking a new item; a Q id renders as its template |
| Preview.BulletedQuals | WFD/PreviewItem.py:93-95 | several qualifiers give one `* `-bulleted line each |
| Preview.QualsText | WFD/PreviewItem.py:91-107 | no qualifiers give the empty cell, one qualifier its own text, several a bulleted list |
| Preview.StatementRow | WFD/PreviewItem.py:91-110 | a row holds the property's template, and the empty reference cell when the statement has no reference |
| Preview.StatementRows | WFD/PreviewItem.py:90-110 | one row per listified statement |
| Preview.PropRows | WFD/PreviewItem.py:86-110 | one row per statement of the property, none for a falsy value |
| Preview.TableRows | WFD/PreviewItem.py:85-110 | one row per statement over all properties |
| Preview.FillDefault | WFD/PreviewItem.py:117-119 | with a default reference every empty reference cell becomes the italic default reference and every other row is unchanged |
| Preview.Table | WFD/PreviewItem.py:112-127 | the table starts with its head and ends with `\|}`; a references column is added iff some row has its own reference, and then empty cells are filled when there is a default reference |
| Preview.ClaimsTable | WFD/PreviewItem.py:67-127 | a rendered claims table starts with the table head and ends with `\|}` |
| Preview.FormatStatementRows | WFD/PreviewItem.py:90-110 | the loop over the statements computes their rows |
| Preview.FormatPropRows | WFD/PreviewItem.py:86-110 | the method computes one property's rows |
| Preview.FormatTableRows | WFD/PreviewItem.py:85-110 | the loop over the properties computes all rows |
| Preview.FillDefaultReferences | WFD/PreviewItem.py:117-119 | the loop over the rows fills the default reference |
| Preview.RenderRows | WFD/PreviewItem.py:121-125 | the loop appends each row's text to the head |
| Preview.FormatProtoclaims | WFD/PreviewItem.py:67-127 | the method computes the claims table |
| Preview.DefaultReferenceSection | WFD/PreviewItem.py:57-61 | no reference gives no section; a reference gives the bold default-reference section with its text |
| Preview.PreviewPage | WFD/PreviewItem.py:44-65 | the page renders iff its head, default reference and claims table do, and is their concatenation with the claims section last |
| Preview.MakePreviewPage | WFD/PreviewItem.py:44-65 | the method computes the page |
| LegacyBase.WfdBot.constructor | WFDBase.py:18-39 | a new bot holds the given mappings, year and options, an empty Wikidata log, and no dataset item or reference |
| LegacyBase.WfdBot.CommitLabels | WFDBase.py:41-49 | no labels means no call; otherwise the log grows by exactly the label calls, each entry read through `data['value']` |
| LegacyBase.WfdBot.CommitClaims | WFDBase.py:51-78 | without a reference NotImplementedError and no call; otherwise the log grows by exactly the claim calls |
| LegacyBase.WfdBot.MakeRef | WFDBase.py:80-116 | without a dataset item NotImplementedError; otherwise the reference of WFD/WFDBase.py's `make_ref` |
| LegacyRbd.LegacyInit | RBD.py:42-58 | the bot can be built iff the three mapping tables exist and no RBD code is held by two items; the tables are those mappings and the inverted code index |
| LegacyRbd.KeysOf | RBD.py:82-84 | `.keys()` succeeds exactly on a dict and gives its keys |
| LegacyRbd.CheckAllDescriptions | RBD.py:79-90 | the check passes iff every language has a national and an international description, and otherwise lists exactly the languages missing one |
| LegacyRbd.FoundPass | RBD.py:98-103 | the authority check passes iff every found authority is a string mapped to an item |
| LegacyRbd.AuthoritiesMapped | RBD.py:92-107 | the check over the districts passes iff every district names a mapped prime competent authority |
| LegacyRbd.FoundReported | RBD.py:102-107 | with an unmapped authority the error names the country in English and lists exactly the unmapped authorities |
| LegacyRbd.UnmappedAuthoritiesReported | RBD.py:92-107 | over the districts, the error lists a name iff some district names it and it is not mapped |
| LegacyRbd.UnmappedNames | RBD.py:98-102 | the set difference holds exactly the unmapped authorities named by some district |
| LegacyRbd.LegacyLabels | RBD.py:188-211 | one English entry `{'language': 'en', 'value': …}` holding the name, or the name and the EU code when an alias is asked for |
| LegacyRbd.LegacyLabelsCommitted | RBD.py:155-158 | with the alias the name and then the code are added as English label or alias; without it the name alone |
| LegacyRbd.SingleLabelCommitted | RBD.py:272-280 | a single `{'language', 'value'}` entry commits exactly one call per listified value |
| LegacyRbd.LegacyDescriptionsTemplate | RBD.py:221-223 | international districts use the international templates, every other district the national ones |
| LegacyRbd.DescriptionsInPerLanguage | RBD.py:225-229 | the descriptions hold exactly one `{'language', 'value'}` entry per language, holding that language's filled template |
| LegacyRbd.DescriptionFillsCountry | RBD.py:227 | a template with one `%s` and no other `%` gets the country's name in that language in its place |
| LegacyRbd.LegacyDescriptions | RBD.py:213-229 | the national or the international descriptions of a district (no contract of its own: LegacyRbd.LegacyDescriptionsTemplate and LegacyRbd.DescriptionsInPerLanguage state it) |
| LegacyRbd.LegacyWritesTargets | RBD.py:155-159 | writing a district first adds its name and code, then only labels and claims, all on the district's item |
| LegacyRbd.NewLegacyItemWritten | RBD.py:145-186 | a district without an item is first created from its labels without alias and its descriptions, and every later call writes to that new item |
| LegacyRbd.LegacyEffectKinds | RBD.py:141-162 | the bot makes no previews, and a district that has an item creates nothing |
| LegacyRbd.LegacyEffect | RBD.py:145-162 | one district's effect: the creation of an item when there is none, then the label and claim calls (no contract of its own: LegacyRbd.LegacyEffectKinds and LegacyRbd.NewLegacyItemWritten state it) |
| LegacyRbd.CountryRunChecked | RBD.py:128-137 | a country run that succeeds had a mapped country with a Wikidata item and the languages, and mapped authorities for every district |
| LegacyRbd.LegacyRunBounds | RBD.py:140-162 | the districts handled are the selected eligible ones, at most the cutoff; without `new` only known districts are handled and nothing is created |
| LegacyRbd.LegacyRun | RBD.py:140-162 | the loop of `process_country_rbd` as the shared driver loop over the districts (no contract of its own: LegacyRbd.LegacyRunBounds states it) |
| LegacyRbd.LegacyRef | RBD.py:327-354 | the reference exists iff the report has the creation date and the source url; it tests the fixed dataset item and the url and does not test the publication and today's date |
| LegacyRbd.LegacyAllChecked | RBD.py:308-325 | a successful run checked the descriptions, built the reference and ran the country of the report over its listified RBDs |
| LegacyRbd.LegacyAll | RBD.py:308-325 | `process_all_rbd`: the template check, the reference, then the country run (no contract of its own: LegacyRbd.LegacyAllChecked states it) |
| LegacyRbd.RbdBot.constructor | RBD.py:42-58 | a new bot holds the options and the given tables, with an empty Wikidata log |
| LegacyRbd.RbdBot.CheckAllCompetentAuthorities | RBD.py:92-107 | the loop over the districts computes the authority check |
| LegacyRbd.RbdBot.DescriptionsFrom | RBD.py:225-229 | the loop over the languages computes the descriptions from one template group |
| LegacyRbd.RbdBot.MakeDescriptions | RBD.py:213-229 | the method computes the descriptions of the district's template group |
| LegacyRbd.RbdBot.CreateNewRbdItem | RBD.py:164-186 | the creation call is logged and its new item returned, or the description error raised with no call |
| LegacyRbd.RbdBot.CommitLabels | RBD.py:272-280 | no labels means no call; otherwise the log grows by exactly the label calls |
| LegacyRbd.RbdBot.CommitClaims | RBD.py:282-306 | the log grows by exactly the claim calls with the given reference |
| LegacyRbd.RbdBot.WriteDistrict | RBD.py:155-159 | the log grows by exactly the district's label and claim calls |
| LegacyRbd.RbdBot.ProcessDistrict | RBD.py:145-159 | the log grows by exactly the district's effect, creation included |
| LegacyRbd.RbdBot.ProcessEntry | RBD.py:141-162 | one loop step follows the run function on one more district and counts it iff handled |
| LegacyRbd.RbdBot.ProcessEligible | RBD.py:146-162 | a handled district appends its effect and its index and raises the count by one |
| LegacyRbd.RbdBot.ProcessDistricts | RBD.py:140-162 | the loop succeeds iff the run does, and the log grows by exactly its calls |
| LegacyRbd.RbdBot.ProcessCountryRbd | RBD.py:128-162 | the country checks and the loop succeed iff the country run does, with exactly its calls |
| LegacyRbd.RbdBot.ProcessAllRbd | RBD.py:308-325 | the whole report succeeds iff the run function does, with exactly its calls |
| Py.MapAllEach | WFD/swb_import.py:215-225 | a loop that maps every element succeeds iff every element maps, and then gives each element's result in its place |
| Py.ConcatAll | WFD/PreviewItem.py:141-142 | a loop appending one piece of text per element succeeds iff every element's piece does, and its text is then the pieces in the order of the elements |
| Py.ConcatAllStep | WFD/PreviewItem.py:141-142 | one more element fails the loop with its own error, or appends its piece to the text so far |
| Py.ConcatAllSingle | WFD/PreviewItem.py:141-142 | over one element the loop gives that element's piece or error |
| Py.Get | WFD/WFDBase.py:246 | a lookup in a dict finds a value iff the key is present, and the pair is in the dict |
| Py.Put | WFD/WFDBase.py:195-196 | assigning a key sets it, leaves every other key as it was, and appends it when it was new |
| Py.Listify | WFD/swb_import.py:93 | `listify` gives no element for None, the list's elements for a list, and the value alone for anything else |
| Py.Index | WFD/WFDBase.py:75 | `d[k]` gives the value of a present key and raises KeyError for a missing one |
| Py.DictGet | WFD/swb_import.py:98 | `d.get(k)` gives the value of a present key and None for a missing one; on a non-dict it raises |
| Text.Lower | WFD/swb_import.py:146 | `lower()` maps each character in place and keeps the length |
| Text.BeforeFirst | WFD/swb_import.py:217 | `s.split(sep)[0]` is the longest prefix without the separator, followed in `s` by the separator unless it is all of `s` |
| Text.LexLeTotal | WFD/PreviewItem.py:32-35 | string order is total |
| Text.LexLeTransitive | WFD/PreviewItem.py:32-35 | string order is transitive |
| Text.LexLeAntisymmetric | WFD/PreviewItem.py:32-35 | string order is antisymmetric |
| Text.SortBy | WFD/PreviewItem.py:32-35 | sorting by a string key gives a permutation of the input that is sorted by the key |
| Text.InsertBySorted | WFD/PreviewItem.py:32-35 | inserting into a sorted sequence adds exactly that element and keeps it sorted |
| Text.Sorted | WFD/WFDBase.py:254 | `sorted` of strings gives a sorted permutation |
| Text.SortByInt | WFD/PreviewItem.py:39-40 | sorting by an integer key gives a permutation of the input that is sorted by the key |
| Text.InsertByIntSorted | WFD/PreviewItem.py:39-40 | inserting into a sorted sequence adds exactly that element and keeps it sorted |
| Text.DistinctMultiplicity | WFD/WFDBase.py:128 | a sequence has no repeats iff no element occurs twice in its multiset |
| Text.DistinctPermutation | WFD/WFDBase.py:128 | a permutation of a sequence without repeats has none |
| Text.Dedup | WFD/WFDBase.py:128 | `set(pc_value)` keeps exactly the elements of the list, each once |
| Text.ParseInt | WFD/PreviewItem.py:40 | `int(s)` ignores spaces around the text and succeeds iff what is left is a run of digits, with or without a sign; the value is the number the digits spell, negated after `-` |
| Text.DigitsValueSnoc | WFD/PreviewItem.py:40 | one more digit multiplies the value by ten and adds the digit |
| Text.DecimalText | WFD/PreviewItem.py:40 | `str(n)` is a run of digits without a leading zero |
| Text.DecimalTextValue | WFD/PreviewItem.py:40 | the digits of `str(n)` spell `n` |
| Text.ParseDecimalText | WFD/PreviewItem.py:40 | `int(str(n)) == n`, whatever spaces surround the text |
| Text.ParseNegatedDigits | WFD/PreviewItem.py:40 | `int('-' + digits) == -value(digits)` for any non-empty run of decimal digits, whatever spaces surround the text |
| Format.BraceFormat | WFD/WFDBase.py:193-194 | a template without braces is returned as it is |
| Format.BraceFormatOneField | WFD/WFDBase.py:193-194 | a template with one `{country}` field and no other brace gets the value in the field's place |
| Format.PercentScan | RBD.py:227 | without a `%` the text is kept when the value was used, and fails with "not all arguments converted" when it was not |
| Format.PercentFormat | RBD.py:227 | a template without any `%` cannot take the value |
| Format.PercentFormatOneField | RBD.py:227 | a template with one `%s` and no other `%` gets the value in its place |
| Format.PercentScanOneField | RBD.py:227 | the scan of such a template produces the same text |
| Validation.Without | WFD/WFDBase.py:252 | the set difference keeps exactly the expected keys that are not present |
| Validation.MissingKeys | WFD/WFDBase.py:252-254 | the sorted difference holds exactly the missing keys, sorted and each once |
| Validation.ValidateMapping | WFD/WFDBase.py:235-260 | a flat mapping passes iff every expected key is present, and otherwise raises UnmappedValueError with the sorted missing keys in brackets |
| Validation.ValidateMappingOf | WFD/WFDBase.py:246 | a mapping that is not a dict raises AttributeError on `items()` (a `TypeFault`) |
| Validation.AllStrings | WFD/WFDBase.py:244 | the expected values are usable as keys iff all are strings, and then they are those strings |
| Validation.ValidateMappingValues | WFD/swb_import.py:310-317 | expected values that are all strings are validated as keys; any other expected value is reported missing and the join of the report raises TypeError (a `TypeFault`) |
| Validation.NestedReportsFirstGroup | WFD/WFDBase.py:250-255 | a nested mapping fails iff some group lacks an expected key, and then it reports the first such group with its sorted missing keys |
| Validation.ValidateGroups | WFD/WFDBase.py:250-255 | the nested check group by group (no contract of its own: Validation.NestedReportsFirstGroup and Validation.CompleteGroupsPass state it) |
| Validation.SupersetPasses | WFD/WFDBase.py:244-260 | a mapping holding every expected key, in each group when nested, passes |
| Validation.CompleteGroupsPass | WFD/WFDBase.py:250-255 | groups that all hold every expected key pass |
| Validation.FlatValuesPass | WFD/swb_import.py:310-317 | a flat mapping passes for expected values iff each is a string key of the mapping |
| Validation.FlatMessageExample | WFD/WFDBase.py:257-260 | the flat message lists the missing key in brackets, `[c]` for keys a, b, d and expected a, b, c |
| Driver.EligibleIndices | WFD/swb_import.py:95-105 | the eligible positions, in increasing order |
| Driver.Selected | WFD/swb_import.py:94-105 | the entries handled are eligible and in order; no cutoff (None or 0) handles all of them, a positive cutoff at most that many and all if fewer, a negative cutoff none |
| Driver.SelectedSnoc | WFD/swb_import.py:95-105 | one more entry is selected iff the run has not stopped and the entry is eligible |
| Driver.Eligibility | WFD/swb_import.py:98-103 | an entry is eligible iff it has an item or new items may be created |
| Driver.DriveSelects | WFD/swb_import.py:94-105 | a successful run handles exactly the selected entries and counts each |
| Driver.DriveWithinCutoff | WFD/swb_import.py:96-97 | a positive cutoff bounds the count; a negative one stops the run before any entry |
| Driver.DriveOnlyKnown | WFD/swb_import.py:99-104 | without `new`, every handled entry had an item |
| Driver.DriveStopped | WFD/swb_import.py:96-97 | once the cutoff is reached the rest of the entries change nothing |
| Driver.DriveNext | WFD/swb_import.py:95-105 | one loop step: a failed lookup or handling fails the run, an ineligible entry is skipped, an eligible one appends its effect and is counted |
| Driver.Drive | WFD/swb_import.py:93-105 | the loop shared by the bots: stop at the cutoff, look up the entry's item, skip an entry without one unless `new`, handle the rest (no contract of its own: Driver.DriveSelects, Driver.DriveWithinCutoff, Driver.DriveOnlyKnown and Driver.DriveNext state it) |
| Driver.ThenAppends | WFD/swb_import.py:104 | the calls and previews of two steps are those of the first followed by those of the second |
| Driver.DriveNoCreation | WFD/swb_import.py:99-104 | without `new`, when handling a known entry creates nothing, the whole run creates nothing |
| Driver.DriveDemo | WFD/swb_import.py:116-128 | when each entry only makes one preview, the run calls nothing and makes one preview per handled entry |
| Driver.DriveNoPreviews | WFD/RBD.py:133-144 | when no entry makes a preview, the run makes none |
| Driver.KnownItem | WFD/swb_import.py:98-101 | a code has an existing item iff it is a key of the item table, and the item is the table's; a missing code has none |
| Wikidata.YearStatement | WFD/swb_import.py:222-224 | the statement has the year as its point-in-time qualifier and no own reference |
| Wikidata.ItemId | WFD/RBD.py:140 | the item id of a value is the value itself when it starts with Q, and the value behind a Q otherwise |

## Left out

- Reading the report and the mappings (`load_data`, `load_xml_url_data`, `load_mapping_files`, JSON and XML parsing) is left out as I/O. The report and the mappings are parameters.
- The SPARQL queries for the known items (`wdqsLookup.make_claim_wdqs_search`) are left out as network calls. Their result is a parameter of `Rbd.LoadExistingRbd`, `Rbd.RbdInit` and `LegacyRbd.LegacyInit`, and the SWB bot's item table is a constructor argument.
- `get_unit_q` is a network call. The area unit is a parameter.
- Quantities (`pywikibot.WbQuantity`) keep their amount and unit only. Number parsing and the error bound are not modelled.
- Today's date (`helpers.today_as_WbTime`) is a parameter. Dates are not converted to `WbTime`; the report's strings are kept.
- The text of error messages that list a set (`', '.join(diff)`) follows Python's set order, which is not modelled. The error holds the set.
- The state of a bot after an exception is not specified: the bots never catch one, and the run ends.
- `Rbd.RbdBot.constructor` and `LegacyRbd.RbdBot.constructor` take the mapping tables already loaded: `Rbd.RbdInit` and `LegacyRbd.LegacyInit` state how they are built from the mappings.
- The `APIError` that `make_new_item` can raise, and any other failure of a Wikidata call, are not modelled: every call succeeds.
- `main`, argument parsing (`handle_args`), `output_previews` and writing the preview file are left out as I/O.
- `item.exists()` and the item reload in `commit_claims` only load data from Wikidata, and are left out.
- `repr` of a value is modelled without Python's escaping of quotes and special characters.
- Text.Lower: folds ASCII letters only, not the whole of Unicode as Python's `str.lower` does.
- Py.Put: appends a new key at the end, so a dict the bots build iterates in the order of assignment. CPython 2.7 iterates it in the order of the keys' hashes, which is not modelled; the order of the label calls, the description entries, the protoclaims before sorting and the lines of an unsorted preview may differ from the model's. `Base.DescriptionEntry` alone is written in the hash order of its two keys (`value`, then `language`).
- Text.Dedup: keeps the first occurrence of each element, in list order. `set(pc_value)` iterates in hash order, so the order of the claim calls for one property may differ; which claims are added is the same.
- Py.Listify: follows `listify(None) == []`. The `wikidataStuff` helper is not part of this model. A version that returns None for None would make the loops over `data.get('RBD')` (WFD/RBD.py:288, RBD.py:325), over a record's `swSignificantImpactType` (WFD/swb_import.py:215 and 307) and over the records (WFD/swb_import.py:93) raise TypeError where the model iterates over nothing.
- Wikidata.ItemId: follows `QtoItemPage` adding a missing "Q" to an id; the `wikidataStuff` library is not part of this model, and the page object is represented by its id.
- Wikidata.ItemOf: a value that is not a string is taken to fail inside `QtoItemPage`, as a `ForeignFault`; what the library raises for it is not modelled.
- Format.BraceFormat: models `{name}` fields and `{{`/`}}` escapes only. A field with a conversion or a format spec (`{country!r}`, `{country:>10}`) is rejected, where Python fills it. A field naming another key (`{x}`) or a positional field (`{}`) is reported as a ValueFault, where Python raises KeyError or IndexError.
- Format.PercentFormat: reads `%s` and `%%` only. Python 2's `%` also fills `%r`, `%c` and width, flag and precision forms (`%5s`, `%-10s`, `%.3s`), and raises TypeError ("format requires a mapping") for `%(name)s` with a string argument; the model rejects all of them with a ValueFault. `%d` and the other numeric forms raise TypeError for a unicode argument, where the model also reports a ValueFault. `LegacyRbd.LegacyDescriptionOf` passes the country's name as its text (its `repr` when it is not a string), so a name that is a dict (which `%` would take as a mapping, returning a template without directives unchanged) or a tuple (several arguments) is formatted as one string in the model.
- Swb.ImpactStatement: a mapped impact value that is not a Q-id becomes a special statement whatever the value is. The `Statement` constructor of the `wikidataStuff` library, which is not part of this model, may reject values other than `novalue` and `somevalue`, and that check is not modelled.
- Preview.PropNumber: a sign followed by spaces, non-ASCII digits and non-ASCII spaces, which Python 2's `int` may accept, are read as failures. Every property id the bots build is `P` followed by ASCII digits.
- Text.Strip: removes ASCII spaces only, not every Unicode space as Python 2's `unicode.strip` does.
- Preview.FormatItis: `str(itis)` (WFD/PreviewItem.py:193) is taken to give the text of a string; in Python 2 it raises UnicodeEncodeError for text outside ASCII, which is not modelled.
- Swb.Collected: a record whose category is a list or a dict cannot be added to `swb_cats` (WFD/swb_import.py:306), and Python raises TypeError (`unhashable type`) at that record; the model collects it and raises the TypeError later, when the collected categories are validated. The kind of error is the same, its moment and its text differ. The same holds for a listed impact that is a list or a dict (WFD/swb_import.py:307).
- The texts of interpreter errors (TypeError, AttributeError) follow Python 2's wording but are approximate: the item index that `join` names (`sequence item 1: …`) and the class name in `'RbdBot' object has no attribute 'country_dict'` are left out.
- Items are not compared with the labels and claims they already hold; the library's `addNewClaim` and `addLabelOrAlias` decide that, and the model records only the calls.

## Findings

| source | as written | input that shows it | evidently intended | confidence | as-written member | corrected member |
|---|---|---|---|---|---|---|
| WFD/RBD.py:174-186 | `create_new_rbd_item` has no `return`, so `process_single_rbd` calls `item.exists()` on None | any district without an item, run with `new` and without demo | return the created item and write the district to it | not executed | Rbd.NewRbdItemLost | Rbd.NewRbdItemWritten |
| WFD/swb_import.py:150-162 | `create_new_swb_item` has no `return`, so `process_single_swb` calls `item.exists()` on None | any record without an item, run with `new` and without demo | return the created item and write the record to it | not executed | Swb.NewSwbItemLost | Swb.NewSwbItemWritten |
| WFD/WFDBase.py:107 | `commit_labels` reads `data['value']`, while the WFD bots store a list of names (RBD) or a name (SWB) for each language | labels `{'en': ['Name', 'CODE']}` | take the listified entry itself | not executed | Commit.ListLabelRejected | Base.WfdBot.CommitLabels |
| WFD/swb_import.py:147 | `make_labels` stores the bare name, which `format_labels` indexes as a list | a record named `Lake` in demo mode: `format_labels` adds the string `ake` to a list and raises TypeError | store `[name]`, as the RBD bot does | not executed | Swb.BareLabelBreaksPreview | Swb.MakeLabels |
| WFD/swb_import.py:305 | `validate_indata` iterates `SurfaceWaterBody` without `listify`, so a report with a single record iterates that record's keys | a report whose `SurfaceWaterBody` is one dict | `listify` it, as `process_all_swb` does | not executed | Swb.SingleRecordRejected | Swb.ValidateIndata |
