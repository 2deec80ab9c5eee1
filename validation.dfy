/** `WfdBot.validate_mapping`: checks that a set of expected keys is present
    in a flat mapping, or in every group of a nested one, and otherwise raises
    an `UnmappedValueError` naming the mapping and the sorted missing keys. */
module Validation {
  import opened Wrappers
  import opened Text
  import opened Py

  function Without(xs: seq<string>, present: set<string>): (r: seq<string>)
    ensures forall k :: k in r <==> k in xs && k !in present
  {
    if xs == [] then []
    else if xs[0] in present then Without(xs[1..], present)
    else [xs[0]] + Without(xs[1..], present)
  }

  /** `sorted(set(expected) - present)`. */
  function MissingKeys(expected: seq<string>, present: set<string>): (r: seq<string>)
    ensures Distinct(r)
    ensures SortedBy(r, Identity)
    ensures forall k :: k in r <==> k in expected && k !in present
  {
    var missing := Dedup(Without(expected, present));
    var r := Sorted(missing);
    DistinctPermutation(missing, r);
    assert forall k :: k in r <==> k in multiset(missing);
    r
  }

  /** `'[{}]'.format(', '.join(keys))`. */
  function Bracketed(keys: seq<string>): string {
    "[" + Join(", ", keys) + "]"
  }

  /** `'({}, [{}])'.format(group, ', '.join(keys))`. */
  function GroupReport(group: string, keys: seq<string>): string {
    "(" + group + ", " + Bracketed(keys) + ")"
  }

  /** `validate_mapping` reads `found` as a mapping of groups iff some value is a dict. */
  predicate IsNested(found: Dict<PyVal>) {
    exists i :: 0 <= i < |found| && found[i].1.PyDict?
  }

  /** The group `entry` is a dict that lacks one of the expected keys. */
  ghost predicate GroupLacks(entry: (string, PyVal), expected: seq<string>) {
    entry.1.PyDict? && exists k :: k in expected && k !in Keys(entry.1.entries)
  }

  /** The nested form: the groups are checked in order and the first one
      lacking a key is reported; a group that is not a dict fails on `keys()`. */
  function ValidateGroups(groups: Dict<PyVal>, expected: seq<string>, mappingName: string): Res<()> {
    if groups == [] then Ok(())
    else
      match groups[0].1
      case PyDict(sub) =>
        var missing := MissingKeys(expected, Keys(sub));
        if missing != [] then Err(UnmappedValue(mappingName, GroupReport(groups[0].0, missing)))
        else ValidateGroups(groups[1..], expected, mappingName)
      case v => Err(TypeFault("'" + TypeName(v) + "' object has no attribute 'keys'"))
  }

  /** `WfdBot.validate_mapping(found, expected, mappingName)`. */
  function ValidateMapping(found: Dict<PyVal>, expected: seq<string>, mappingName: string): (r: Res<()>)
    ensures !IsNested(found) ==> (r.Err? <==> exists k :: k in expected && k !in Keys(found))
    ensures !IsNested(found) && r.Err? ==>
              r.error == UnmappedValue(mappingName, Bracketed(MissingKeys(expected, Keys(found))))
  {
    if IsNested(found) then ValidateGroups(found, expected, mappingName)
    else
      var missing := MissingKeys(expected, Keys(found));
      if missing != [] then
        assert missing[0] in expected && missing[0] !in Keys(found);
        Err(UnmappedValue(mappingName, Bracketed(missing)))
      else
        assert forall k :: k in expected ==> k in Keys(found);
        Ok(())
  }

  /** `validate_mapping` on a value that must be a dict (`found.items()`). */
  function ValidateMappingOf(found: PyVal, expected: seq<string>, mappingName: string): (r: Res<()>)
    ensures !found.PyDict? ==> r.Err? && r.error.TypeFault?
  {
    match found
    case PyDict(d) => ValidateMapping(d, expected, mappingName)
    case _ => Err(TypeFault("'" + TypeName(found) + "' object has no attribute 'items'"))
  }

  /** The strings of `values`, when every value is one. */
  function AllStrings(values: seq<PyVal>): (r: Option<seq<string>>)
    ensures r.Some? <==> forall i :: 0 <= i < |values| ==> values[i].PyStr?
    ensures r.Some? ==> |r.value| == |values| && forall i :: 0 <= i < |values| ==> r.value[i] == values[i].s
  {
    if values == [] then Some([])
    else if !values[0].PyStr? then None
    else
      match AllStrings(values[1..])
      case None => None
      case Some(rest) =>
        assert forall i :: 1 <= i < |values| ==> values[i] == values[1..][i - 1];
        Some([values[0].s] + rest)
  }

  /** `validate_mapping(found, expected, mappingName)` for expected keys read
      from a report. A value that is not a string is never a key of the
      mapping, so it is always reported, and the report cannot be joined. */
  function ValidateMappingValues(found: PyVal, expected: seq<PyVal>, mappingName: string): (r: Res<()>)
    ensures (forall i :: 0 <= i < |expected| ==> expected[i].PyStr?) ==>
              r == ValidateMappingOf(found, AllStrings(expected).value, mappingName)
    ensures !(forall i :: 0 <= i < |expected| ==> expected[i].PyStr?) ==> r.Err? && r.error.TypeFault?
  {
    match AllStrings(expected)
    case Some(keys) => ValidateMappingOf(found, keys, mappingName)
    case None =>
      if !found.PyDict? then ValidateMappingOf(found, [], mappingName)
      else Err(TypeFault("sequence item: expected string or Unicode"))
  }

  // ---------------------------------------------------------------------
  // Properties

  /** Nested form: it fails iff some group lacks an expected key, and then it
      reports the first such group with its sorted missing keys; the groups
      before it are complete. Nothing is accumulated across groups. */
  lemma {:induction false} NestedReportsFirstGroup(groups: Dict<PyVal>, expected: seq<string>, mappingName: string)
    requires forall i :: 0 <= i < |groups| ==> groups[i].1.PyDict?
    ensures ValidateGroups(groups, expected, mappingName).Err? <==>
              exists i :: 0 <= i < |groups| && GroupLacks(groups[i], expected)
    ensures ValidateGroups(groups, expected, mappingName).Err? ==>
              exists i :: 0 <= i < |groups| && GroupLacks(groups[i], expected) &&
                (forall j :: 0 <= j < i ==> !GroupLacks(groups[j], expected)) &&
                ValidateGroups(groups, expected, mappingName).error ==
                  UnmappedValue(mappingName, GroupReport(groups[i].0, MissingKeys(expected, Keys(groups[i].1.entries))))
  {
    if groups != [] {
      GroupLacksIff(groups[0], expected);
      if !GroupLacks(groups[0], expected) {
        NestedReportsFirstGroup(groups[1..], expected, mappingName);
        FirstGroupComplete(groups, expected, mappingName, ValidateGroups(groups[1..], expected, mappingName));
      }
    }
  }

  /** A group lacks an expected key iff its missing keys are not empty. */
  lemma GroupLacksIff(entry: (string, PyVal), expected: seq<string>)
    requires entry.1.PyDict?
    ensures GroupLacks(entry, expected) <==> MissingKeys(expected, Keys(entry.1.entries)) != []
  {
    var missing := MissingKeys(expected, Keys(entry.1.entries));
    if missing != [] {
      assert missing[0] in expected && missing[0] !in Keys(entry.1.entries);
    }
  }

  /** When the first group is complete, what is said of the report on the
      other groups holds of the report on all of them. */
  lemma FirstGroupComplete(groups: Dict<PyVal>, expected: seq<string>, mappingName: string, r: Res<()>)
    requires groups != [] && groups[0].1.PyDict? && !GroupLacks(groups[0], expected)
    requires r.Err? <==> exists i :: 0 <= i < |groups[1..]| && GroupLacks(groups[1..][i], expected)
    requires r.Err? ==>
               exists i :: 0 <= i < |groups[1..]| && GroupLacks(groups[1..][i], expected) &&
                 (forall j :: 0 <= j < i ==> !GroupLacks(groups[1..][j], expected)) &&
                 r.error == UnmappedValue(mappingName, GroupReport(groups[1..][i].0, MissingKeys(expected, Keys(groups[1..][i].1.entries))))
    ensures r.Err? <==> exists i :: 0 <= i < |groups| && GroupLacks(groups[i], expected)
    ensures r.Err? ==>
              exists i :: 0 <= i < |groups| && GroupLacks(groups[i], expected) &&
                (forall j :: 0 <= j < i ==> !GroupLacks(groups[j], expected)) &&
                r.error == UnmappedValue(mappingName, GroupReport(groups[i].0, MissingKeys(expected, Keys(groups[i].1.entries))))
  {
    var rest := groups[1..];
    if r.Err? {
      var i :| 0 <= i < |rest| && GroupLacks(rest[i], expected) &&
        (forall j :: 0 <= j < i ==> !GroupLacks(rest[j], expected)) &&
        r.error == UnmappedValue(mappingName, GroupReport(rest[i].0, MissingKeys(expected, Keys(rest[i].1.entries))));
      assert groups[i + 1] == rest[i];
      forall j | 0 <= j < i + 1 ensures !GroupLacks(groups[j], expected) {
        if j > 0 { assert groups[j] == rest[j - 1]; }
      }
    }
    if exists i :: 0 <= i < |groups| && GroupLacks(groups[i], expected) {
      var i :| 0 <= i < |groups| && GroupLacks(groups[i], expected);
      assert i > 0 && rest[i - 1] == groups[i];
    }
  }

  /** A mapping holding every expected key (flat), or one whose every group
      holds every expected key (nested), passes. */
  lemma SupersetPasses(found: Dict<PyVal>, expected: seq<string>, mappingName: string)
    requires !IsNested(found) ==> forall k :: k in expected ==> k in Keys(found)
    requires IsNested(found) ==>
               forall i :: 0 <= i < |found| ==>
                 found[i].1.PyDict? && forall k :: k in expected ==> k in Keys(found[i].1.entries)
    ensures ValidateMapping(found, expected, mappingName) == Ok(())
  {
    if IsNested(found) {
      CompleteGroupsPass(found, expected, mappingName);
    }
  }

  lemma {:induction false} CompleteGroupsPass(groups: Dict<PyVal>, expected: seq<string>, mappingName: string)
    requires forall i :: 0 <= i < |groups| ==>
               groups[i].1.PyDict? && forall k :: k in expected ==> k in Keys(groups[i].1.entries)
    ensures ValidateGroups(groups, expected, mappingName) == Ok(())
  {
    if groups != [] {
      var missing := MissingKeys(expected, Keys(groups[0].1.entries));
      LeadingMembers(missing);
      CompleteGroupsPass(groups[1..], expected, mappingName);
    }
  }

  /** A sequence without repeats whose only member is `x` is `[x]`. */
  lemma SingletonOf(xs: seq<string>, x: string)
    requires Distinct(xs)
    requires forall y :: y in xs <==> y == x
    ensures xs == [x]
  {
    assert x in xs;
    LeadingMembers(xs);
  }

  /** A flat mapping accepts report values iff each is a string key of it. */
  lemma FlatValuesPass(found: Dict<PyVal>, expected: seq<PyVal>, mappingName: string)
    requires !IsNested(found)
    ensures ValidateMappingValues(PyDict(found), expected, mappingName).Ok? <==>
              forall v :: v in expected ==> v.PyStr? && v.s in Keys(found)
  {
    if forall i :: 0 <= i < |expected| ==> expected[i].PyStr? {
      var keys := AllStrings(expected).value;
      assert forall k :: k in keys <==> PyStr(k) in expected by {
        forall k ensures k in keys <==> PyStr(k) in expected {
          if k in keys {
            var i :| 0 <= i < |keys| && keys[i] == k;
            assert expected[i] == PyStr(k);
          }
          if PyStr(k) in expected {
            var i :| 0 <= i < |expected| && expected[i] == PyStr(k);
            assert keys[i] == k;
          }
        }
      }
    } else {
      var i :| 0 <= i < |expected| && !expected[i].PyStr?;
      assert expected[i] in expected;
    }
  }

  /** For a flat mapping lacking "c" the reported value is "[c]", in brackets,
      where the unit tests expect the bare "c". */
  lemma FlatMessageExample()
    ensures
      var found := [("a", PyStr("1")), ("b", PyStr("2")), ("d", PyStr("4"))];
      var r := ValidateMapping(found, ["a", "b", "c"], "test");
      r == Err(UnmappedValue("test", "[c]"))
  {
    var found := [("a", PyStr("1")), ("b", PyStr("2")), ("d", PyStr("4"))];
    ExampleKeys(found);
    ExampleMissing(["a", "b", "c"], Keys(found));
    assert Bracketed(["c"]) == "[c]" by {
      assert Join(", ", ["c"]) == "c";
    }
  }

  lemma ExampleKeys(found: Dict<PyVal>)
    requires found == [("a", PyStr("1")), ("b", PyStr("2")), ("d", PyStr("4"))]
    ensures Keys(found) == {"a", "b", "d"} && !IsNested(found)
  {
    assert found[1..][1..][1..] == [];
    assert Keys(found[1..][1..]) == {"d"};
  }

  lemma ExampleMissing(expected: seq<string>, present: set<string>)
    requires expected == ["a", "b", "c"] && present == {"a", "b", "d"}
    ensures MissingKeys(expected, present) == ["c"]
  {
    var missing := MissingKeys(expected, present);
    assert forall y :: y in missing <==> y == "c";
    SingletonOf(missing, "c");
  }

}
