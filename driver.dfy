/** The batch loop shared by `process_all_swb` (WFD/swb_import.py) and the
    two `process_country_rbd` (WFD/RBD.py, RBD.py): entries are visited in
    order; an entry is processed when its code names a known item or new
    items may be created; only processed entries are counted, and the loop
    stops as soon as the count reaches a truthy cutoff. */
module Driver {
  import opened Wrappers
  import opened Text
  import opened Py
  import opened Wikidata
  import opened Preview

  /** What processing entries does: calls into Wikidata (outside demo mode)
      and previews (in demo mode). */
  datatype Effect = Effect(actions: seq<Action>, previews: seq<PreviewItem>)

  function Then(a: Effect, b: Effect): Effect {
    Effect(a.actions + b.actions, a.previews + b.previews)
  }

  /** The state of the loop: what it did, its counter, and the positions of
      the entries it processed. */
  datatype Progress = Progress(effect: Effect, count: nat, processed: seq<nat>)

  /** `if self.cutoff and count >= self.cutoff: break`. */
  predicate Stop(cutoff: Option<int>, count: nat) {
    cutoff.Some? && cutoff.value != 0 && count >= cutoff.value
  }

  // ---------------------------------------------------------------------
  // Which entries are processed, stated without the loop

  /** The positions holding `true`, in increasing order. */
  function EligibleIndices(eligible: seq<bool>): (r: seq<nat>)
    ensures forall i: nat :: i in r <==> i < |eligible| && eligible[i]
    ensures forall j, k :: 0 <= j < k < |r| ==> r[j] < r[k]
  {
    if eligible == [] then []
    else
      var n := |eligible| - 1;
      var init := EligibleIndices(eligible[..n]);
      assert forall i: nat :: i < n ==> eligible[..n][i] == eligible[i];
      assert forall j :: 0 <= j < |init| ==> init[j] < n by {
        forall j | 0 <= j < |init| ensures init[j] < n {
          var x: nat := init[j];
          assert x in init;
          assert x < |eligible[..n]|;
        }
      }
      init + (if eligible[n] then [n] else [])
  }

  /** The entries the loop processes: every eligible one when the cutoff is
      None or 0, none when it is negative, and otherwise the first `cutoff`
      eligible ones. */
  function Selected(eligible: seq<bool>, cutoff: Option<int>): (r: seq<nat>)
    ensures cutoff.Some? && cutoff.value < 0 ==> r == []
    ensures cutoff.Some? && cutoff.value > 0 ==> |r| <= cutoff.value
    ensures forall i :: i in r ==> i < |eligible| && eligible[i]
    ensures forall j, k :: 0 <= j < k < |r| ==> r[j] < r[k]
    ensures cutoff.None? || cutoff.value == 0 ==>
              forall i: nat :: i < |eligible| && eligible[i] ==> i in r
    ensures cutoff.Some? && cutoff.value > 0 ==>
              r <= EligibleIndices(eligible) && (|r| < cutoff.value ==> r == EligibleIndices(eligible))
  {
    var all := EligibleIndices(eligible);
    if cutoff.None? || cutoff.value == 0 then all
    else if cutoff.value < 0 then []
    else if |all| <= cutoff.value then all
    else
      assert forall i :: i in all[..cutoff.value] ==> i in all;
      all[..cutoff.value]
  }

  lemma EligibleIndicesSnoc(eligible: seq<bool>, b: bool)
    ensures EligibleIndices(eligible + [b]) == EligibleIndices(eligible) + (if b then [|eligible|] else [])
  {
    assert (eligible + [b])[..|eligible|] == eligible;
  }

  /** One more entry: nothing changes once the loop has stopped, otherwise
      the entry is added exactly when it is eligible. */
  lemma SelectedSnoc(eligible: seq<bool>, b: bool, cutoff: Option<int>)
    ensures Stop(cutoff, |Selected(eligible, cutoff)|) ==>
              Selected(eligible + [b], cutoff) == Selected(eligible, cutoff)
    ensures !Stop(cutoff, |Selected(eligible, cutoff)|) ==>
              Selected(eligible + [b], cutoff) == Selected(eligible, cutoff) + (if b then [|eligible|] else [])
  {
    EligibleIndicesSnoc(eligible, b);
    var all := EligibleIndices(eligible);
    var all' := EligibleIndices(eligible + [b]);
    if cutoff.Some? && cutoff.value > 0 && |all| >= cutoff.value {
      assert all'[..cutoff.value] == all[..cutoff.value];
    }
  }

  // ---------------------------------------------------------------------
  // The loop as a function

  /** Whether an entry is processed: its lookup succeeded and gave an item,
      or new items may be created. */
  predicate Eligible(known: Res<Option<Entity>>, createNew: bool) {
    known.Ok? && (known.value.Some? || createNew)
  }

  function Eligibility(entries: seq<PyVal>, known: PyVal -> Res<Option<Entity>>, createNew: bool): (r: seq<bool>)
    ensures |r| == |entries| && forall i :: 0 <= i < |entries| ==> r[i] == Eligible(known(entries[i]), createNew)
  {
    seq(|entries|, i requires 0 <= i < |entries| => Eligible(known(entries[i]), createNew))
  }

  /** The loop over `entries`: `known` looks up the item of an entry and
      `single` processes one entry with the item found (None: create one). */
  function Drive(entries: seq<PyVal>, cutoff: Option<int>, createNew: bool,
                 known: PyVal -> Res<Option<Entity>>,
                 single: (PyVal, Option<Entity>) -> Res<Effect>): Res<Progress>
  {
    if entries == [] then Ok(Progress(Effect([], []), 0, []))
    else
      var n := |entries| - 1;
      var p :- Drive(entries[..n], cutoff, createNew, known, single);
      if Stop(cutoff, p.count) then Ok(p)
      else
        var item :- known(entries[n]);
        if item.None? && !createNew then Ok(p)
        else
          var e :- single(entries[n], item);
          Ok(Progress(Then(p.effect, e), p.count + 1, p.processed + [n]))
  }

  /** The loop processes exactly the `Selected` entries, and its counter is
      their number. */
  lemma {:induction false} DriveSelects(entries: seq<PyVal>, cutoff: Option<int>, createNew: bool,
                                        known: PyVal -> Res<Option<Entity>>,
                                        single: (PyVal, Option<Entity>) -> Res<Effect>)
    requires Drive(entries, cutoff, createNew, known, single).Ok?
    ensures Drive(entries, cutoff, createNew, known, single).value.processed
         == Selected(Eligibility(entries, known, createNew), cutoff)
    ensures Drive(entries, cutoff, createNew, known, single).value.count
         == |Drive(entries, cutoff, createNew, known, single).value.processed|
  {
    if entries != [] {
      var n := |entries| - 1;
      var init := entries[..n];
      DriveLast(entries, cutoff, createNew, known, single);
      DriveSelects(init, cutoff, createNew, known, single);
      var el := Eligibility(entries, known, createNew);
      assert el == Eligibility(init, known, createNew) + [el[n]];
      SelectedSnoc(Eligibility(init, known, createNew), el[n], cutoff);
    }
  }

  /** The last entry is added to what the loop processed before it exactly
      when the loop has not stopped and the entry is eligible. */
  lemma DriveLast(entries: seq<PyVal>, cutoff: Option<int>, createNew: bool,
                  known: PyVal -> Res<Option<Entity>>,
                  single: (PyVal, Option<Entity>) -> Res<Effect>)
    requires entries != [] && Drive(entries, cutoff, createNew, known, single).Ok?
    ensures Drive(entries[..|entries| - 1], cutoff, createNew, known, single).Ok?
    ensures var p := Drive(entries[..|entries| - 1], cutoff, createNew, known, single).value;
            var q := Drive(entries, cutoff, createNew, known, single).value;
            if Stop(cutoff, p.count) || !Eligible(known(entries[|entries| - 1]), createNew)
            then q.count == p.count && q.processed == p.processed
            else q.count == p.count + 1 && q.processed == p.processed + [|entries| - 1]
  {
  }

  /** The loop never processes more entries than a positive cutoff, and none
      at all for a negative one. */
  lemma DriveWithinCutoff(entries: seq<PyVal>, cutoff: Option<int>, createNew: bool,
                          known: PyVal -> Res<Option<Entity>>,
                          single: (PyVal, Option<Entity>) -> Res<Effect>)
    requires Drive(entries, cutoff, createNew, known, single).Ok?
    ensures cutoff.Some? && cutoff.value > 0 ==> Drive(entries, cutoff, createNew, known, single).value.count <= cutoff.value
    ensures cutoff.Some? && cutoff.value < 0 ==> Drive(entries, cutoff, createNew, known, single).value.processed == []
  {
    DriveSelects(entries, cutoff, createNew, known, single);
  }

  /** Without `new`, only entries whose item is known are processed. */
  lemma DriveOnlyKnown(entries: seq<PyVal>, cutoff: Option<int>,
                       known: PyVal -> Res<Option<Entity>>,
                       single: (PyVal, Option<Entity>) -> Res<Effect>)
    requires Drive(entries, cutoff, false, known, single).Ok?
    ensures forall i :: i in Drive(entries, cutoff, false, known, single).value.processed ==>
              i < |entries| && known(entries[i]).Ok? && known(entries[i]).value.Some?
  {
    DriveSelects(entries, cutoff, false, known, single);
  }

  lemma {:induction false} DrivePrefixFails(entries: seq<PyVal>, k: nat, cutoff: Option<int>, createNew: bool,
                                            known: PyVal -> Res<Option<Entity>>,
                                            single: (PyVal, Option<Entity>) -> Res<Effect>)
    requires k <= |entries| && Drive(entries[..k], cutoff, createNew, known, single).Err?
    ensures Drive(entries, cutoff, createNew, known, single) == Drive(entries[..k], cutoff, createNew, known, single)
    decreases |entries| - k
  {
    if k < |entries| {
      assert entries[..k + 1][..k] == entries[..k];
      DrivePrefixFails(entries, k + 1, cutoff, createNew, known, single);
    } else {
      assert entries[..k] == entries;
    }
  }

  /** Once the counter has reached the cutoff, later entries change nothing:
      the loop may break. */
  lemma {:induction false} DriveStopped(entries: seq<PyVal>, k: nat, cutoff: Option<int>, createNew: bool,
                                        known: PyVal -> Res<Option<Entity>>,
                                        single: (PyVal, Option<Entity>) -> Res<Effect>)
    requires k <= |entries| && Drive(entries[..k], cutoff, createNew, known, single).Ok?
    requires Stop(cutoff, Drive(entries[..k], cutoff, createNew, known, single).value.count)
    ensures Drive(entries, cutoff, createNew, known, single) == Drive(entries[..k], cutoff, createNew, known, single)
    decreases |entries| - k
  {
    if k < |entries| {
      assert entries[..k + 1][..k] == entries[..k];
      DriveStopped(entries, k + 1, cutoff, createNew, known, single);
    } else {
      assert entries[..k] == entries;
    }
  }

  lemma DriveSnoc(entries: seq<PyVal>, k: nat, cutoff: Option<int>, createNew: bool,
                  known: PyVal -> Res<Option<Entity>>,
                  single: (PyVal, Option<Entity>) -> Res<Effect>)
    requires k < |entries|
    ensures Drive(entries[..k + 1], cutoff, createNew, known, single)
         == (var p :- Drive(entries[..k], cutoff, createNew, known, single);
             if Stop(cutoff, p.count) then Ok(p)
             else
               var item :- known(entries[k]);
               if item.None? && !createNew then Ok(p)
               else
                 var e :- single(entries[k], item);
                 Ok(Progress(Then(p.effect, e), p.count + 1, p.processed + [k])))
  {
    assert entries[..k + 1][..k] == entries[..k];
  }

  /** One turn of the loop after the first `k` entries, case by case: a
      failed lookup or a failed entry ends the loop with that error, a
      skipped entry changes nothing, a processed one adds its effect. */
  lemma DriveNext(entries: seq<PyVal>, k: nat, cutoff: Option<int>, createNew: bool,
                  known: PyVal -> Res<Option<Entity>>,
                  single: (PyVal, Option<Entity>) -> Res<Effect>, p: Progress)
    requires k < |entries| && Drive(entries[..k], cutoff, createNew, known, single) == Ok(p)
    requires !Stop(cutoff, p.count)
    ensures known(entries[k]).Err? ==> Drive(entries, cutoff, createNew, known, single).Err?
    ensures known(entries[k]).Ok? && known(entries[k]).value.None? && !createNew ==>
              Drive(entries[..k + 1], cutoff, createNew, known, single) == Ok(p)
    ensures known(entries[k]).Ok? && (known(entries[k]).value.Some? || createNew) ==>
              var e := single(entries[k], known(entries[k]).value);
              (e.Err? ==> Drive(entries, cutoff, createNew, known, single).Err?) &&
              (e.Ok? ==> Drive(entries[..k + 1], cutoff, createNew, known, single)
                         == Ok(Progress(Then(p.effect, e.value), p.count + 1, p.processed + [k])))
  {
    DriveSnoc(entries, k, cutoff, createNew, known, single);
    if Drive(entries[..k + 1], cutoff, createNew, known, single).Err? {
      DrivePrefixFails(entries, k + 1, cutoff, createNew, known, single);
    }
  }

  /** Calls and previews made so far, before and after one more effect. */
  lemma ThenAppends(log: seq<Action>, previews: seq<PreviewItem>, a: Effect, b: Effect)
    ensures log + Then(a, b).actions == (log + a.actions) + b.actions
    ensures previews + Then(a, b).previews == (previews + a.previews) + b.previews
  {
  }

  /** Without `new` the loop only hands known items to `single`, so it
      creates no item when processing a known item creates none. */
  lemma {:induction false} DriveNoCreation(entries: seq<PyVal>, cutoff: Option<int>,
                                           known: PyVal -> Res<Option<Entity>>,
                                           single: (PyVal, Option<Entity>) -> Res<Effect>)
    requires forall e, x :: single(e, Some(x)).Ok? ==> NoCreation(single(e, Some(x)).value.actions)
    requires Drive(entries, cutoff, false, known, single).Ok?
    ensures NoCreation(Drive(entries, cutoff, false, known, single).value.effect.actions)
  {
    if entries != [] {
      var n := |entries| - 1;
      DriveNoCreation(entries[..n], cutoff, known, single);
      var p := Drive(entries[..n], cutoff, false, known, single).value;
      if !Stop(cutoff, p.count) {
        var item := known(entries[n]).value;
        if item.Some? {
          var e := single(entries[n], item).value;
          NoCreationConcat(p.effect.actions, e.actions);
        }
      }
    }
  }

  lemma NoCreationConcat(a: seq<Action>, b: seq<Action>)
    requires NoCreation(a) && NoCreation(b)
    ensures NoCreation(a + b)
  {
    forall i | 0 <= i < |a + b| ensures !(a + b)[i].Creates() {
      if i >= |a| { assert (a + b)[i] == b[i - |a|]; }
    }
  }

  /** In demo mode, where processing an entry makes one preview and no call,
      the loop makes no call and exactly one preview per processed entry. */
  lemma {:induction false} DriveDemo(entries: seq<PyVal>, cutoff: Option<int>, createNew: bool,
                                     known: PyVal -> Res<Option<Entity>>,
                                     single: (PyVal, Option<Entity>) -> Res<Effect>)
    requires forall e, k :: single(e, k).Ok? ==> single(e, k).value.actions == [] && |single(e, k).value.previews| == 1
    requires Drive(entries, cutoff, createNew, known, single).Ok?
    ensures Drive(entries, cutoff, createNew, known, single).value.effect.actions == []
    ensures |Drive(entries, cutoff, createNew, known, single).value.effect.previews|
         == Drive(entries, cutoff, createNew, known, single).value.count
  {
    if entries != [] {
      var n := |entries| - 1;
      DriveDemo(entries[..n], cutoff, createNew, known, single);
    }
  }

  /** Outside demo mode, where processing an entry makes no preview, the
      loop makes none. */
  lemma {:induction false} DriveNoPreviews(entries: seq<PyVal>, cutoff: Option<int>, createNew: bool,
                                           known: PyVal -> Res<Option<Entity>>,
                                           single: (PyVal, Option<Entity>) -> Res<Effect>)
    requires forall e, k :: single(e, k).Ok? ==> single(e, k).value.previews == []
    requires Drive(entries, cutoff, createNew, known, single).Ok?
    ensures Drive(entries, cutoff, createNew, known, single).value.effect.previews == []
  {
    if entries != [] {
      var n := |entries| - 1;
      DriveNoPreviews(entries[..n], cutoff, createNew, known, single);
    }
  }

  // ---------------------------------------------------------------------
  // Looking up known items

  /** `code in items` followed by `QtoItemPage(items[code])`. */
  function KnownItem(items: Dict<string>, code: PyVal): (r: Res<Option<Entity>>)
    ensures code.PyStr? ==> r.Ok? && (r.value.Some? <==> code.s in Keys(items))
    ensures code.PyStr? && code.s in Keys(items) ==> r.value == Some(Existing(ItemId(Get(items, code.s).value)))
    ensures code.PyNone? ==> r == Ok(None)
  {
    match code
    case PyStr(k) => Ok(match Get(items, k) case Some(q) => Some(Existing(ItemId(q))) case None => None)
    case PyNone => Ok(None)
    case _ => Err(TypeFault("unhashable type: '" + TypeName(code) + "'"))
  }
}
