/** What the bots hand to the Wikidata library: statements with qualifiers,
    references, protoclaims, and the calls they make, recorded as actions. */
module Wikidata {
  import opened Wrappers
  import opened Text
  import opened Py

  /** The value of a statement, qualifier or reference claim. */
  datatype Target =
    | ItemValue(qid: string)                        // a pywikibot.ItemPage
    | PlainValue(v: PyVal)                          // a plain Python value (string, or None)
    | QuantityValue(amount: PyVal, unit: Option<string>)  // a pywikibot.WbQuantity
    | TimeValue(iso: PyVal)                         // a pywikibot.WbTime made from an ISO date
    | SpecialValue(snak: string)                    // `special=True`: "novalue" / "somevalue"

  datatype Qualifier = Qualifier(prop: string, itis: Target)

  /** A pywikibot.Claim built by `make_simple_claim(prop, value)`. */
  datatype Claim = Claim(prop: string, target: Target)

  /** `WdS.Reference`: claims compared with existing sources, and claims
      attached without comparison. */
  datatype Reference = Reference(sourceTest: seq<Claim>, sourceNotest: seq<Claim>)

  /** `WdS.Statement`: a value, its qualifiers and an optional own reference. */
  datatype Statement = Statement(itis: Target, quals: seq<Qualifier>, ref: Option<Reference>) {
    /** `Statement.isNone()`: the statement wraps Python's None. */
    predicate IsNone() { itis == PlainValue(PyNone) }
  }

  /** The value of one protoclaim: one statement, a list of them, or None. */
  datatype Protoclaim = One(statement: Statement) | Many(statements: seq<Statement>) | NoClaim

  /** `bool(pc_value)`: None and the empty list are falsy. */
  predicate ProtoclaimTruthy(pc: Protoclaim) {
    match pc
    case One(_) => true
    case Many(sts) => sts != []
    case NoClaim => false
  }

  /** The statements of a protoclaim, as `helpers.listify` gives them. */
  function StatementsOf(pc: Protoclaim): seq<Statement> {
    match pc
    case One(st) => [st]
    case Many(sts) => sts
    case NoClaim => []
  }

  /** A statement dated by a P585 (point in time) qualifier of the report year. */
  function YearStatement(itis: Target, year: string): (st: Statement)
    ensures st.quals == [Qualifier("P585", PlainValue(PyStr(year)))] && st.ref.None?
  {
    Statement(itis, [Qualifier("P585", PlainValue(PyStr(year)))], None)
  }

  /** `QtoItemPage(q)` for a Q-id given with or without its "Q": the id
      is `q` itself when it has the "Q", and `q` behind a "Q" otherwise. */
  function ItemId(q: string): (id: string)
    ensures StartsWith(id, "Q")
    ensures StartsWith(q, "Q") ==> id == q
    ensures !StartsWith(q, "Q") ==> id == "Q" + q
  {
    if StartsWith(q, "Q") then q else "Q" + q
  }

  /** `QtoItemPage(v)` for a value read from a mapping: None reaches the library. */
  function ItemOf(v: PyVal, call: string): Res<string> {
    match v
    case PyStr(q) => Ok(ItemId(q))
    case _ => Err(ForeignFault(call))
  }

  /** An item the bot writes to: an existing one, the one it created with
      the identifier claim `idClaim`, or the one the legacy bot created with
      these labels and descriptions. */
  datatype Entity =
    | Existing(qid: string)
    | Created(idClaim: Claim)
    | Made(labels: Dict<PyVal>, descriptions: Dict<PyVal>)

  /** One call into the Wikidata library. */
  datatype Action =
    | CreateItem(labels: Dict<PyVal>, descriptions: Dict<PyVal>, idClaim: Claim)
    | AddLabelOrAlias(lang: string, value: PyVal, item: Entity)
    | CommitDescriptions(descriptions: Dict<PyVal>, item: Entity)
    | AddClaim(prop: string, statement: Statement, item: Entity, ref: Option<Reference>)
    | MakeNewItem(labels: Dict<PyVal>, descriptions: Dict<PyVal>)
      // the legacy `make_new_item({'labels': .., 'descriptions': ..}, summary)`
  {
    /** The call creates an item. */
    predicate Creates() { CreateItem? || MakeNewItem? }
  }

  /** No action of `log` creates an item. */
  predicate NoCreation(log: seq<Action>) {
    forall i :: 0 <= i < |log| ==> !log[i].Creates()
  }
}
