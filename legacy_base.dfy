/** WFDBase.py: the older base bot. It holds the Wikidata session, the run's
    options and the dataset and reference an inheriting bot must set, and
    writes labels and claims; unlike WFD/WFDBase.py it reads every label
    entry as a `{'language', 'value'}` dict. */
module LegacyBase {
  import opened Wrappers
  import opened Py
  import opened Wikidata
  import opened Commit

  class WfdBot {
    const wd: WikidataStuff
    const mappings: Dict<PyVal>
    const year: string
    const createNew: bool
    const cutoff: Option<int>

    /** `self.dataset_q`: None until an inheriting bot sets it. */
    var datasetQ: PyVal
    /** `self.ref`: None until an inheriting bot sets it. */
    var ref: Option<Reference>

    /** `WfdBot(mappings, year, new, cutoff, edit_summary)`. */
    constructor(mappings: Dict<PyVal>, year: string, createNew: bool, cutoff: Option<int>)
      ensures fresh(wd) && wd.log == []
      ensures this.mappings == mappings && this.year == year
      ensures this.createNew == createNew && this.cutoff == cutoff
      ensures datasetQ == PyNone && ref.None?
    {
      wd := new WikidataStuff();
      this.mappings := mappings;
      this.year := year;
      this.createNew := createNew;
      this.cutoff := cutoff;
      datasetQ := PyNone;
      ref := None;
    }

    /** `commit_labels(labels, item)`: nothing for no labels, otherwise one
        `addLabelOrAlias` per value of `listify(data['value'])`. */
    method CommitLabels(labels: Dict<PyVal>, item: Entity) returns (r: Res<()>)
      modifies wd
      ensures labels == [] ==> r.Ok? && wd.log == old(wd.log)
      ensures r.Ok? <==> LabelActions(labels, item, true).Ok?
      ensures r.Ok? ==> wd.log == old(wd.log) + LabelActions(labels, item, true).value
    {
      if labels == [] {
        return Ok(());
      }
      r := CommitLabelsTo(wd, labels, item, true);
    }

    /** `commit_claims(protoclaims, item)`: without a reference nothing is
        added and `NotImplementedError` is raised. */
    method CommitClaims(protoclaims: Dict<Protoclaim>, item: Entity) returns (r: Res<()>)
      modifies wd
      ensures r.Err? <==> ref.None?
      ensures r.Err? ==> r.error.NotImplemented? && wd.log == old(wd.log)
      ensures r.Ok? ==> wd.log == old(wd.log) + ClaimActions(protoclaims, item, ref)
    {
      if ref.None? {
        return Err(NotImplemented("self.ref must be set by the class inheriting WfdBot"));
      }
      CommitClaimsTo(wd, protoclaims, item, ref);
      r := Ok(());
    }

    /** `make_ref(data)`: the reference to the dataset `dataset_q`, which
        must have been set. */
    method MakeRef(data: PyVal) returns (r: Res<Reference>)
      ensures !Truthy(datasetQ) ==> r.Err? && r.error.NotImplemented?
      ensures r == Commit.MakeRef(datasetQ, data)
    {
      r := Commit.MakeRef(datasetQ, data);
    }
  }
}
