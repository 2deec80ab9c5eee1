/** Writing to Wikidata: the session object every bot holds (`self.wd`),
    `commit_labels` and `commit_claims` (identical in WFD/WFDBase.py and in
    the legacy WFDBase.py and RBD.py), and the dataset reference `make_ref`. */
module Commit {
  import opened Wrappers
  import opened Text
  import opened Py
  import opened Wikidata

  /** The Wikidata session: the calls made so far, in order. */
  class WikidataStuff {
    var log: seq<Action>

    constructor()
      ensures log == []
    {
      log := [];
    }

    /** `addLabelOrAlias(lang, value, item, caseSensitive=False)`. */
    method AddLabelOrAlias(lang: string, value: PyVal, item: Entity)
      modifies this
      ensures log == old(log) + [Action.AddLabelOrAlias(lang, value, item)]
    {
      log := log + [Action.AddLabelOrAlias(lang, value, item)];
    }

    /** `addNewClaim(prop, statement, item, ref)`. */
    method AddNewClaim(prop: string, statement: Statement, item: Entity, ref: Option<Reference>)
      modifies this
      ensures log == old(log) + [AddClaim(prop, statement, item, ref)]
    {
      log := log + [AddClaim(prop, statement, item, ref)];
    }

    /** `commit_descriptions(descriptions, item)`. */
    method CommitDescriptions(descriptions: Dict<PyVal>, item: Entity)
      modifies this
      ensures log == old(log) + [Action.CommitDescriptions(descriptions, item)]
    {
      log := log + [Action.CommitDescriptions(descriptions, item)];
    }

    /** `create_new_item(labels, descriptions, id_claim, summary)`: the new
        item is known by its identifier claim. */
    method CreateNewItem(labels: Dict<PyVal>, descriptions: Dict<PyVal>, idClaim: Claim) returns (e: Entity)
      modifies this
      ensures e == Created(idClaim)
      ensures log == old(log) + [CreateItem(labels, descriptions, idClaim)]
    {
      log := log + [CreateItem(labels, descriptions, idClaim)];
      e := Created(idClaim);
    }

    /** `make_new_item({'labels': labels, 'descriptions': descriptions},
        summary)` of the legacy bot: the new item carries no claim yet. */
    method MakeNewItem(labels: Dict<PyVal>, descriptions: Dict<PyVal>) returns (e: Entity)
      modifies this
      ensures e == Made(labels, descriptions)
      ensures log == old(log) + [Action.MakeNewItem(labels, descriptions)]
    {
      log := log + [Action.MakeNewItem(labels, descriptions)];
      e := Made(labels, descriptions);
    }
  }

  // ---------------------------------------------------------------------
  // commit_labels

  /** `helpers.listify(data['value'])`, as `commit_labels` reads one label entry. */
  function LabelValuesAsWritten(data: PyVal): Res<seq<PyVal>> {
    var v :- Index(data, PyStr("value"));
    Ok(Listify(v))
  }

  /** The values of one label entry in each of the shapes the bots build:
      a `{'language', 'value'}` dict (the legacy RBD bot), a list of names
      (WFD/RBD.py) or a single name (WFD/swb_import.py). */
  function LabelValues(data: PyVal): (r: Res<seq<PyVal>>)
    ensures data.PyDict? ==> r == LabelValuesAsWritten(data)
    ensures data.PyList? ==> r == Ok(data.items)
    ensures data.PyStr? ==> r == Ok([data])
  {
    if data.PyDict? then LabelValuesAsWritten(data) else Ok(Listify(data))
  }

  function LabelEntryValues(data: PyVal, asWritten: bool): Res<seq<PyVal>> {
    if asWritten then LabelValuesAsWritten(data) else LabelValues(data)
  }

  /** One `addLabelOrAlias` per value, in order. */
  function AddEachLabel(lang: string, values: seq<PyVal>, item: Entity): (r: seq<Action>)
    ensures |r| == |values|
    ensures forall j :: 0 <= j < |r| ==> r[j] == Action.AddLabelOrAlias(lang, values[j], item)
  {
    seq(|values|, j requires 0 <= j < |values| => Action.AddLabelOrAlias(lang, values[j], item))
  }

  /** The calls `commit_labels(labels, item)` makes, language by language;
      `asWritten` selects the `data['value']` reading of the source. */
  function LabelActions(labels: Dict<PyVal>, item: Entity, asWritten: bool): Res<seq<Action>> {
    if labels == [] then Ok([])
    else
      var init :- LabelActions(labels[..|labels| - 1], item, asWritten);
      var last := labels[|labels| - 1];
      var values :- LabelEntryValues(last.1, asWritten);
      Ok(init + AddEachLabel(last.0, values, item))
  }

  /** Read through `data['value']`, the list of names the RBD bot stores
      for a language cannot be committed: indexing a list by a string
      raises; the corrected reading adds one label or alias per name. */
  lemma ListLabelRejected(lang: string, names: seq<PyVal>, item: Entity)
    ensures LabelActions([(lang, PyList(names))], item, true).Err?
    ensures LabelActions([(lang, PyList(names))], item, false) == Ok(AddEachLabel(lang, names, item))
  {
    var labels := [(lang, PyList(names))];
    assert labels[..0] == [];
    assert LabelEntryValues(PyList(names), false) == Ok(names);
    assert [] + AddEachLabel(lang, names, item) == AddEachLabel(lang, names, item);
  }

  /** A failure on a prefix of the labels is a failure of the whole. */
  lemma {:induction false} LabelActionsPrefixFails(labels: Dict<PyVal>, k: nat, item: Entity, asWritten: bool)
    requires k <= |labels|
    requires LabelActions(labels[..k], item, asWritten).Err?
    ensures LabelActions(labels, item, asWritten).Err?
    decreases |labels| - k
  {
    if k < |labels| {
      assert labels[..k + 1][..k] == labels[..k];
      LabelActionsPrefixFails(labels, k + 1, item, asWritten);
    } else {
      assert labels[..k] == labels;
    }
  }

  /** `commit_labels` calls `addLabelOrAlias` exactly for the values of each
      language's entry, and for nothing else. */
  lemma {:induction false} LabelActionsExact(labels: Dict<PyVal>, item: Entity, asWritten: bool, a: Action)
    requires LabelActions(labels, item, asWritten).Ok?
    ensures a in LabelActions(labels, item, asWritten).value <==>
              a.AddLabelOrAlias? && a.item == item &&
              exists i :: 0 <= i < |labels| && labels[i].0 == a.lang &&
                LabelEntryValues(labels[i].1, asWritten).Ok? &&
                a.value in LabelEntryValues(labels[i].1, asWritten).value
    decreases |labels|
  {
    if labels != [] {
      var init := labels[..|labels| - 1];
      var last := labels[|labels| - 1];
      LabelActionsExact(init, item, asWritten, a);
      var values := LabelEntryValues(last.1, asWritten).value;
      var adds := AddEachLabel(last.0, values, item);
      assert LabelActions(labels, item, asWritten).value == LabelActions(init, item, asWritten).value + adds;
      if a in adds {
        var j :| 0 <= j < |adds| && adds[j] == a;
        assert labels[|labels| - 1] == last;
      }
      if a.AddLabelOrAlias? && a.item == item && a.lang == last.0 && a.value in values {
        var j :| 0 <= j < |values| && values[j] == a.value;
        assert adds[j] == a;
      }
      if a.AddLabelOrAlias? &&
         exists i :: 0 <= i < |labels| && labels[i].0 == a.lang &&
                     LabelEntryValues(labels[i].1, asWritten).Ok? &&
                     a.value in LabelEntryValues(labels[i].1, asWritten).value {
        var i :| 0 <= i < |labels| && labels[i].0 == a.lang &&
           LabelEntryValues(labels[i].1, asWritten).Ok? &&
           a.value in LabelEntryValues(labels[i].1, asWritten).value;
        if i < |labels| - 1 { assert init[i] == labels[i]; }
      }
    }
  }

  /** The inner loop of `commit_labels`: one call per value of a language. */
  method AddLabels(wd: WikidataStuff, lang: string, values: seq<PyVal>, item: Entity)
    modifies wd
    ensures wd.log == old(wd.log) + AddEachLabel(lang, values, item)
  {
    var j := 0;
    while j < |values|
      invariant 0 <= j <= |values|
      invariant wd.log == old(wd.log) + AddEachLabel(lang, values[..j], item)
    {
      wd.AddLabelOrAlias(lang, values[j], item);
      assert AddEachLabel(lang, values[..j + 1], item)
          == AddEachLabel(lang, values[..j], item) + [Action.AddLabelOrAlias(lang, values[j], item)];
      j := j + 1;
    }
    assert values[..j] == values;
  }

  /** The next language of `LabelActions`: an entry whose values cannot be
      read fails the whole, any other adds its values. */
  lemma LabelActionsStep(labels: Dict<PyVal>, i: nat, item: Entity, asWritten: bool)
    requires i < |labels| && LabelActions(labels[..i], item, asWritten).Ok?
    ensures LabelEntryValues(labels[i].1, asWritten).Err? ==> LabelActions(labels, item, asWritten).Err?
    ensures LabelEntryValues(labels[i].1, asWritten).Ok? ==>
              (LabelActions(labels[..i + 1], item, asWritten)
                 == Ok(LabelActions(labels[..i], item, asWritten).value
                       + AddEachLabel(labels[i].0, LabelEntryValues(labels[i].1, asWritten).value, item)))
  {
    assert labels[..i + 1][..i] == labels[..i];
    if LabelEntryValues(labels[i].1, asWritten).Err? {
      LabelActionsPrefixFails(labels, i + 1, item, asWritten);
    }
  }

  /** The loop of `commit_labels`: it stops at the first entry whose values
      cannot be read, and otherwise records exactly `LabelActions`. */
  method CommitLabelsTo(wd: WikidataStuff, labels: Dict<PyVal>, item: Entity, asWritten: bool)
    returns (r: Res<()>)
    modifies wd
    ensures r.Ok? <==> LabelActions(labels, item, asWritten).Ok?
    ensures r.Ok? ==> wd.log == old(wd.log) + LabelActions(labels, item, asWritten).value
  {
    var i := 0;
    ghost var done: seq<Action> := [];
    assert labels[..0] == [];
    while i < |labels|
      invariant 0 <= i <= |labels|
      invariant LabelActions(labels[..i], item, asWritten) == Ok(done)
      invariant wd.log == old(wd.log) + done
    {
      var got := LabelEntryValues(labels[i].1, asWritten);
      LabelActionsStep(labels, i, item, asWritten);
      if got.Err? {
        return Err(got.error);
      }
      AddLabels(wd, labels[i].0, got.value, item);
      AppendAssoc(old(wd.log), done, AddEachLabel(labels[i].0, got.value, item));
      done := done + AddEachLabel(labels[i].0, got.value, item);
      i := i + 1;
    }
    assert labels[..i] == labels;
    r := Ok(());
  }

  // ---------------------------------------------------------------------
  // commit_claims

  /** The statements of a list-valued protoclaim after `set(pc_value)`,
      without the `isNone()` ones. */
  function ListClaims(statements: seq<Statement>): (r: seq<Statement>)
    ensures Distinct(r)
    ensures forall s :: s in r <==> s in statements && !s.IsNone()
  {
    Kept(Dedup(statements))
  }

  function Kept(statements: seq<Statement>): (r: seq<Statement>)
    ensures forall s :: s in r <==> s in statements && !s.IsNone()
    ensures Distinct(statements) ==> Distinct(r)
  {
    if statements == [] then []
    else if statements[0].IsNone() then Kept(statements[1..])
    else [statements[0]] + Kept(statements[1..])
  }

  function AddEachClaim(prop: string, statements: seq<Statement>, item: Entity, ref: Option<Reference>): (r: seq<Action>)
    ensures |r| == |statements|
    ensures forall j :: 0 <= j < |r| ==> r[j] == AddClaim(prop, statements[j], item, ref)
  {
    seq(|statements|, j requires 0 <= j < |statements| => AddClaim(prop, statements[j], item, ref))
  }

  /** The claims added for one property: none for a falsy value, the
      deduplicated non-None statements of a list, or the single statement
      unless it is `isNone()`. */
  function PropClaimActions(prop: string, pc: Protoclaim, item: Entity, ref: Option<Reference>): seq<Action> {
    if !ProtoclaimTruthy(pc) then []
    else match pc
      case Many(sts) => AddEachClaim(prop, ListClaims(sts), item, ref)
      case One(st) => if st.IsNone() then [] else [AddClaim(prop, st, item, ref)]
      case NoClaim => []
  }

  /** The calls `commit_claims(protoclaims, item)` makes, property by property. */
  function ClaimActions(protoclaims: Dict<Protoclaim>, item: Entity, ref: Option<Reference>): seq<Action> {
    if protoclaims == [] then []
    else
      var last := protoclaims[|protoclaims| - 1];
      ClaimActions(protoclaims[..|protoclaims| - 1], item, ref) + PropClaimActions(last.0, last.1, item, ref)
  }

  /** Some protoclaim of property `prop` holds statement `s`. */
  ghost predicate Proposes(protoclaims: Dict<Protoclaim>, prop: string, s: Statement) {
    exists i :: 0 <= i < |protoclaims| && protoclaims[i].0 == prop && s in StatementsOf(protoclaims[i].1)
  }

  lemma ProposesSnoc(protoclaims: Dict<Protoclaim>, prop: string, s: Statement)
    requires protoclaims != []
    ensures Proposes(protoclaims, prop, s) <==>
              Proposes(protoclaims[..|protoclaims| - 1], prop, s) ||
              (protoclaims[|protoclaims| - 1].0 == prop && s in StatementsOf(protoclaims[|protoclaims| - 1].1))
  {
    var init := protoclaims[..|protoclaims| - 1];
    if Proposes(protoclaims, prop, s) {
      var i :| 0 <= i < |protoclaims| && protoclaims[i].0 == prop && s in StatementsOf(protoclaims[i].1);
      if i < |init| { assert init[i] == protoclaims[i]; }
    }
    if Proposes(init, prop, s) {
      var i :| 0 <= i < |init| && init[i].0 == prop && s in StatementsOf(init[i].1);
      assert protoclaims[i] == init[i];
    }
  }

  /** `commit_claims` only adds claims, to `item`, with the reference. */
  lemma {:induction false} ClaimActionsAreAdds(protoclaims: Dict<Protoclaim>, item: Entity, ref: Option<Reference>, a: Action)
    requires a in ClaimActions(protoclaims, item, ref)
    ensures a.AddClaim? && a.item == item && a.ref == ref
    decreases |protoclaims|
  {
    var init := protoclaims[..|protoclaims| - 1];
    var last := protoclaims[|protoclaims| - 1];
    if a in ClaimActions(init, item, ref) {
      ClaimActionsAreAdds(init, item, ref, a);
    } else {
      PropClaimActionsExact(last.0, last.1, item, ref, a);
    }
  }

  /** Exactly the non-None statements of the protoclaims are added, each
      under its own property. */
  lemma {:induction false} ClaimActionsExact(protoclaims: Dict<Protoclaim>, item: Entity, ref: Option<Reference>,
                                             prop: string, s: Statement)
    ensures AddClaim(prop, s, item, ref) in ClaimActions(protoclaims, item, ref) <==>
              !s.IsNone() && Proposes(protoclaims, prop, s)
    decreases |protoclaims|
  {
    if protoclaims != [] {
      var init := protoclaims[..|protoclaims| - 1];
      var last := protoclaims[|protoclaims| - 1];
      ClaimActionsExact(init, item, ref, prop, s);
      PropClaimActionsExact(last.0, last.1, item, ref, AddClaim(prop, s, item, ref));
      ProposesSnoc(protoclaims, prop, s);
    }
  }

  lemma PropClaimActionsExact(prop: string, pc: Protoclaim, item: Entity, ref: Option<Reference>, a: Action)
    ensures a in PropClaimActions(prop, pc, item, ref) <==>
              a.AddClaim? && a == AddClaim(prop, a.statement, item, ref) && !a.statement.IsNone() &&
              a.statement in StatementsOf(pc)
  {
    if pc.Many? && a.AddClaim? && a.statement in ListClaims(pc.statements) {
      var xs := ListClaims(pc.statements);
      var j :| 0 <= j < |xs| && xs[j] == a.statement;
      if a == AddClaim(prop, a.statement, item, ref) {
        assert AddEachClaim(prop, xs, item, ref)[j] == a;
      }
    }
  }

  /** With distinct property keys, no claim is added twice. */
  lemma {:induction false} ClaimActionsDistinct(protoclaims: Dict<Protoclaim>, item: Entity, ref: Option<Reference>)
    requires forall i, j :: 0 <= i < j < |protoclaims| ==> protoclaims[i].0 != protoclaims[j].0
    ensures Distinct(ClaimActions(protoclaims, item, ref))
    decreases |protoclaims|
  {
    if protoclaims != [] {
      var init := protoclaims[..|protoclaims| - 1];
      var last := protoclaims[|protoclaims| - 1];
      ClaimActionsDistinct(init, item, ref);
      var xs := ClaimActions(init, item, ref);
      var ys := PropClaimActions(last.0, last.1, item, ref);
      PropClaimActionsDistinct(last.0, last.1, item, ref);
      forall a | a in xs ensures a !in ys {
        ClaimActionsAreAdds(init, item, ref, a);
        ClaimActionsExact(init, item, ref, a.prop, a.statement);
        PropClaimActionsExact(last.0, last.1, item, ref, a);
        var i :| 0 <= i < |init| && init[i].0 == a.prop && a.statement in StatementsOf(init[i].1);
        assert protoclaims[i] == init[i];
      }
      DistinctConcat(xs, ys);
    }
  }

  lemma PropClaimActionsDistinct(prop: string, pc: Protoclaim, item: Entity, ref: Option<Reference>)
    ensures Distinct(PropClaimActions(prop, pc, item, ref))
  {
    if pc.Many? {
      var xs := ListClaims(pc.statements);
      var r := AddEachClaim(prop, xs, item, ref);
      forall i, j | 0 <= i < j < |r| ensures r[i] != r[j] {
        assert r[i].statement == xs[i] && r[j].statement == xs[j];
      }
    }
  }

  lemma DistinctConcat<T>(xs: seq<T>, ys: seq<T>)
    requires Distinct(xs) && Distinct(ys)
    requires forall a :: a in xs ==> a !in ys
    ensures Distinct(xs + ys)
  {
    var zs := xs + ys;
    forall i, j | 0 <= i < j < |zs| ensures zs[i] != zs[j] {
      if i < |xs| && j >= |xs| {
        assert zs[i] in xs && zs[j] == ys[j - |xs|];
      }
    }
  }

  /** The inner loop of `commit_claims` over `set(pc_value)`. */
  method AddListClaims(wd: WikidataStuff, prop: string, statements: seq<Statement>, item: Entity, ref: Option<Reference>)
    modifies wd
    ensures wd.log == old(wd.log) + AddEachClaim(prop, ListClaims(statements), item, ref)
  {
    var values := Dedup(statements);
    var j := 0;
    while j < |values|
      invariant 0 <= j <= |values|
      invariant wd.log == old(wd.log) + AddEachClaim(prop, Kept(values[..j]), item, ref)
    {
      KeptSnoc(values[..j], values[j]);
      assert values[..j + 1] == values[..j] + [values[j]];
      if !values[j].IsNone() {
        ghost var done := AddEachClaim(prop, Kept(values[..j]), item, ref);
        wd.AddNewClaim(prop, values[j], item, ref);
        AddEachClaimSnoc(prop, Kept(values[..j]), values[j], item, ref);
        AppendAssoc(old(wd.log), done, [AddClaim(prop, values[j], item, ref)]);
      }
      j := j + 1;
    }
    assert values[..j] == values;
  }

  /** The loops of `commit_claims` once the reference check has passed. */
  method CommitClaimsTo(wd: WikidataStuff, protoclaims: Dict<Protoclaim>, item: Entity, ref: Option<Reference>)
    modifies wd
    ensures wd.log == old(wd.log) + ClaimActions(protoclaims, item, ref)
  {
    var i := 0;
    while i < |protoclaims|
      invariant 0 <= i <= |protoclaims|
      invariant wd.log == old(wd.log) + ClaimActions(protoclaims[..i], item, ref)
    {
      ghost var done := ClaimActions(protoclaims[..i], item, ref);
      ghost var adds := PropClaimActions(protoclaims[i].0, protoclaims[i].1, item, ref);
      ClaimActionsSnoc(protoclaims, i, item, ref);
      CommitPropClaims(wd, protoclaims[i].0, protoclaims[i].1, item, ref);
      AppendAssoc(old(wd.log), done, adds);
      i := i + 1;
    }
    assert protoclaims[..i] == protoclaims;
  }

  /** One iteration of the outer loop of `commit_claims`. */
  method CommitPropClaims(wd: WikidataStuff, prop: string, pc: Protoclaim, item: Entity, ref: Option<Reference>)
    modifies wd
    ensures wd.log == old(wd.log) + PropClaimActions(prop, pc, item, ref)
  {
    if ProtoclaimTruthy(pc) {
      if pc.Many? {
        AddListClaims(wd, prop, pc.statements, item, ref);
      } else if pc.One? && !pc.statement.IsNone() {
        wd.AddNewClaim(prop, pc.statement, item, ref);
      }
    }
  }

  lemma ClaimActionsSnoc(protoclaims: Dict<Protoclaim>, i: nat, item: Entity, ref: Option<Reference>)
    requires i < |protoclaims|
    ensures ClaimActions(protoclaims[..i + 1], item, ref)
         == ClaimActions(protoclaims[..i], item, ref) + PropClaimActions(protoclaims[i].0, protoclaims[i].1, item, ref)
  {
    assert protoclaims[..i + 1][..i] == protoclaims[..i];
  }

  lemma AddEachClaimSnoc(prop: string, statements: seq<Statement>, s: Statement, item: Entity, ref: Option<Reference>)
    ensures AddEachClaim(prop, statements + [s], item, ref)
         == AddEachClaim(prop, statements, item, ref) + [AddClaim(prop, s, item, ref)]
  {
  }

  lemma {:induction false} KeptSnoc(xs: seq<Statement>, x: Statement)
    ensures Kept(xs + [x]) == Kept(xs) + (if x.IsNone() then [] else [x])
    decreases |xs|
  {
    if xs == [] {
      assert xs + [x] == [x];
    } else {
      assert (xs + [x])[1..] == xs[1..] + [x];
      KeptSnoc(xs[1..], x);
    }
  }

  // ---------------------------------------------------------------------
  // make_ref

  /** `make_ref(data)`: the dataset reference attached to every claim. It
      needs `dataset_q` to be set; the tested part states the dataset (P248)
      and the source url (P854), the untested part the creation date (P577)
      and the retrieval date (P813) of the report. */
  function MakeRef(datasetQ: PyVal, data: PyVal): (r: Res<Reference>)
    ensures !Truthy(datasetQ) ==> r.Err? && r.error.NotImplemented?
    ensures r.Ok? <==>
              Truthy(datasetQ) && datasetQ.PyStr? && data.PyDict? &&
              "@creationDate" in Keys(data.entries) && "retrieval_date" in Keys(data.entries) &&
              "source_url" in Keys(data.entries)
    ensures r.Ok? ==>
              r.value.sourceTest == [Claim("P248", ItemValue(ItemId(datasetQ.s))),
                                     Claim("P854", PlainValue(Field(data.entries, "source_url")))] &&
              r.value.sourceNotest == [Claim("P577", TimeValue(Field(data.entries, "@creationDate"))),
                                       Claim("P813", TimeValue(Field(data.entries, "retrieval_date")))]
  {
    if !Truthy(datasetQ) then Err(NotImplemented("self.dataset_q must be set by the class inheriting WfdBot"))
    else
      var creation :- Index(data, PyStr("@creationDate"));
      var retrieval :- Index(data, PyStr("retrieval_date"));
      var dataset :- ItemOf(datasetQ, "QtoItemPage");
      var url :- Index(data, PyStr("source_url"));
      Ok(Reference([Claim("P248", ItemValue(dataset)), Claim("P854", PlainValue(url))],
                   [Claim("P577", TimeValue(creation)), Claim("P813", TimeValue(retrieval))]))
  }
}
