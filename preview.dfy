/** `PreviewItem` (WFD/PreviewItem.py): the wikitext preview of one
    record's labels, descriptions, matching item, default reference and
    claims, written in demo mode instead of editing Wikidata. */
module Preview {
  import opened Wrappers
  import opened Text
  import opened Py
  import opened Wikidata

  /** A preview of one item: the fields of a constructed `PreviewItem`. */
  datatype PreviewItem = PreviewItem(labels: Dict<PyVal>, descriptions: Dict<PyVal>,
                                     protoclaims: Dict<Protoclaim>, item: Option<string>,
                                     ref: Option<Reference>)

  function Key<V>(entry: (string, V)): string { entry.0 }

  /** `int(prop[1:])`: the number of a property id, read as `int` reads
      the text after the first character. */
  function PropNumber(prop: string): (r: Res<int>)
    ensures var digits := if prop == [] then [] else prop[1..];
            r.Ok? <==> ParseInt(digits).Some?
    ensures var digits := if prop == [] then [] else prop[1..];
            r.Ok? ==> ParseInt(digits) == Some(r.value)
    ensures |prop| >= 2 && AllDigits(prop[1..]) ==> r == Ok(DigitsValue(prop[1..]))
  {
    var digits := if prop == [] then [] else prop[1..];
    assert AllDigits(digits) ==> Strip(digits) == digits by {
      if AllDigits(digits) { StripTrimmed(digits); }
    }
    match ParseInt(digits)
    case Some(n) => Ok(n)
    case None => Err(ValueFault("invalid literal for int() with base 10: '" + digits + "'"))
  }

  /** The property id `P<n>` has the number `n`. */
  lemma PropNumberOfId(n: nat)
    ensures PropNumber("P" + DecimalText(n)) == Ok(n)
  {
    var d := DecimalText(n);
    assert ("P" + d)[1..] == d;
    DecimalTextValue(n);
  }

  function PropKey(entry: (string, Protoclaim)): int {
    match PropNumber(entry.0) case Ok(n) => n case Err(_) => 0
  }

  /** The first property whose number cannot be read, as `sorted` meets it. */
  function CheckProps(protoclaims: Dict<Protoclaim>): (r: Res<()>)
    ensures r.Ok? <==> forall i :: 0 <= i < |protoclaims| ==> PropNumber(protoclaims[i].0).Ok?
  {
    MapAllEach(protoclaims, EntryPropNumber);
    var _ :- MapAll(protoclaims, EntryPropNumber);
    Ok(())
  }

  function EntryPropNumber(entry: (string, Protoclaim)): Res<int> {
    PropNumber(entry.0)
  }

  /** `PreviewItem(labels, descriptions, protoclaims, item, ref)`: labels and
      descriptions are put in ascending language order and protoclaims in
      ascending order of the number of their property. */
  function NewPreviewItem(labels: Dict<PyVal>, descriptions: Dict<PyVal>, protoclaims: Dict<Protoclaim>,
                          item: Option<string>, ref: Option<Reference>): (r: Res<PreviewItem>)
    ensures r.Ok? <==> forall i :: 0 <= i < |protoclaims| ==> PropNumber(protoclaims[i].0).Ok?
    ensures r.Ok? ==> multiset(r.value.labels) == multiset(labels) && SortedBy(r.value.labels, Key)
    ensures r.Ok? ==> multiset(r.value.descriptions) == multiset(descriptions) &&
                      SortedBy(r.value.descriptions, Key)
    ensures r.Ok? ==> multiset(r.value.protoclaims) == multiset(protoclaims) &&
                      SortedByInt(r.value.protoclaims, PropKey)
    ensures r.Ok? ==> r.value.item == item && r.value.ref == ref
  {
    var _ :- CheckProps(protoclaims);
    Ok(PreviewItem(SortBy(labels, Key), SortBy(descriptions, Key), SortByInt(protoclaims, PropKey), item, ref))
  }

  // ---------------------------------------------------------------------
  // Text helpers

  /** `make_text_bold(text)`. */
  function Bold(text: string): (r: string)
    ensures |r| == |text| + 6 && r[3..|r| - 3] == text
    ensures StartsWith(r, "'''") && r[|r| - 3..] == "'''"
  {
    "'''" + text + "'''"
  }

  /** `make_text_italics(text)`. */
  function Italics(text: string): (r: string)
    ensures |r| == |text| + 4 && r[2..|r| - 2] == text
    ensures StartsWith(r, "''") && r[|r| - 2..] == "''"
  {
    "''" + text + "''"
  }

  /** `make_wikidata_template(wd_id, special)` for an id given as a string
      (an `ItemPage` contributes its id). */
  function WikidataTemplate(id: string, special: bool): (r: Res<string>)
    ensures StartsWith(id, "Q") || StartsWith(id, "P") ==> r == Ok("{{" + id[..1] + "|" + id + "}}")
    ensures !(StartsWith(id, "Q") || StartsWith(id, "P")) ==>
              (r.Ok? <==> special && (id == "somevalue" || id == "novalue"))
    ensures !(StartsWith(id, "Q") || StartsWith(id, "P")) && special && id == "somevalue" ==>
              r == Ok("{{Q'|some value}}")
    ensures !(StartsWith(id, "Q") || StartsWith(id, "P")) && special && id == "novalue" ==>
              r == Ok("{{Q'|no value}}")
    ensures r.Err? ==> r.error.ValueFault?
  {
    if StartsWith(id, "Q") || StartsWith(id, "P") then Ok("{{" + id[..1] + "|" + id + "}}")
    else if special then
      if id == "somevalue" then Ok("{{Q'|some value}}")
      else if id == "novalue" then Ok("{{Q'|no value}}")
      else Err(ValueFault("Sorry but \"" + id + "\" is not a recognized special value/snaktype."))
    else Err(ValueFault("Sorry only items and properties are supported, not whatever \"" + id + "\" is."))
  }

  /** Different item and property ids get different templates: the id can
      be read back from between the `|` and the closing braces. */
  lemma TemplateInjective(a: string, b: string, special: bool)
    requires StartsWith(a, "Q") || StartsWith(a, "P")
    requires StartsWith(b, "Q") || StartsWith(b, "P")
    requires WikidataTemplate(a, special) == WikidataTemplate(b, special)
    ensures a == b
  {
    var ta := WikidataTemplate(a, special).value;
    assert ta[4..|ta| - 2] == a;
    assert WikidataTemplate(b, special).value[4..|ta| - 2] == b;
  }

  // ---------------------------------------------------------------------
  // Values, qualifiers, claims and references

  /** `'{} {}'.format(amount, unit).strip()` for a quantity. */
  function QuantityText(amount: PyVal, unit: Option<string>): Res<string> {
    var unitText :- if unit.Some? then WikidataTemplate(unit.value, false) else Ok("");
    Ok(Strip(Str(amount) + " " + unitText))
  }

  /** `format_itis(itis)`: items and special values as templates, a quantity
      with its unit, anything else as its string. */
  function FormatItis(itis: Target): (r: Res<string>)
    ensures itis.ItemValue? ==> r == WikidataTemplate(itis.qid, false)
    ensures itis.SpecialValue? ==> r == WikidataTemplate(itis.snak, true)
    ensures itis.PlainValue? ==> r == Ok(Str(itis.v))
  {
    match itis
    case ItemValue(q) => WikidataTemplate(q, false)
    case SpecialValue(snak) => WikidataTemplate(snak, true)
    case QuantityValue(amount, unit) => QuantityText(amount, unit)
    case TimeValue(iso) => Ok(Str(iso))
    case PlainValue(v) => Ok(Str(v))
  }

  /** Whether a property or item id is one `make_wikidata_template` writes
      as a template. */
  predicate IsEntityId(id: string) {
    StartsWith(id, "Q") || StartsWith(id, "P")
  }

  /** `format_qual(qual)`: `{{P|<prop>}}: <value>`. */
  function FormatQual(qual: Qualifier): (r: Res<string>)
    ensures r.Ok? <==> IsEntityId(qual.prop) && FormatItis(qual.itis).Ok?
    ensures r.Ok? ==> r.value == "{{" + qual.prop[..1] + "|" + qual.prop + "}}: " + FormatItis(qual.itis).value
  {
    var prop :- WikidataTemplate(qual.prop, false);
    var itis :- FormatItis(qual.itis);
    Ok(prop + ": " + itis)
  }

  /** `format_claim(claim)`: `{{P|<prop>}}: <value>` for a claim of a reference. */
  function FormatClaim(claim: Claim): (r: Res<string>)
    ensures r.Ok? <==> IsEntityId(claim.prop) && FormatItis(claim.target).Ok?
    ensures r.Ok? ==> r.value == "{{" + claim.prop[..1] + "|" + claim.prop + "}}: " + FormatItis(claim.target).value
  {
    var prop :- WikidataTemplate(claim.prop, false);
    var itis :- FormatItis(claim.target);
    Ok(prop + ": " + itis)
  }

  /** The `:*<claim>` line `format_reference` writes for one claim. */
  function ClaimLine(claim: Claim): (r: Res<string>)
    ensures r.Ok? <==> FormatClaim(claim).Ok?
    ensures r.Ok? ==> r.value == ":*{{" + claim.prop[..1] + "|" + claim.prop + "}}: " +
                                 FormatItis(claim.target).value + "\n"
  {
    var text :- FormatClaim(claim);
    ClaimLinePieces(claim.prop[..1], claim.prop, FormatItis(claim.target).value);
    Ok(":*" + text + "\n")
  }

  lemma ClaimLinePieces(kind: string, prop: string, itis: string)
    ensures ":*" + ("{{" + kind + "|" + prop + "}}: " + itis) + "\n" ==
            ":*{{" + kind + "|" + prop + "}}: " + itis + "\n"
  {
    assert ":*" + "{{" == ":*{{";
  }

  /** One part of a reference: an italic heading line and then one line per
      claim, in order, or nothing at all when the part has no claims. */
  function ReferencePart(heading: string, claims: seq<Claim>): (r: Res<string>)
    ensures claims == [] ==> r == Ok("")
    ensures claims != [] ==> (r.Ok? <==> forall i :: 0 <= i < |claims| ==> ClaimLine(claims[i]).Ok?)
    ensures claims != [] && r.Ok? ==> r.value == ":''" + heading + "'':\n" + ConcatAll(claims, ClaimLine).value
  {
    if claims == [] then Ok("")
    else
      var lines :- ConcatAll(claims, ClaimLine);
      HeadingLine(heading);
      Ok(":" + Italics(heading) + ":\n" + lines)
  }

  lemma HeadingLine(heading: string)
    ensures ":" + Italics(heading) + ":\n" == ":''" + heading + "'':\n"
  {
    assert ":" + "''" == ":''";
    assert "''" + ":\n" == "'':\n";
  }

  /** `format_reference(ref)`: the tested part, then the untested part; it
      fails exactly when one of the claims cannot be written. */
  function ReferenceText(ref: Reference): (r: Res<string>)
    ensures r.Ok? <==> (forall i :: 0 <= i < |ref.sourceTest| ==> ClaimLine(ref.sourceTest[i]).Ok?) &&
                       (forall i :: 0 <= i < |ref.sourceNotest| ==> ClaimLine(ref.sourceNotest[i]).Ok?)
    ensures r.Ok? ==> r.value == ReferencePart("tested", ref.sourceTest).value +
                                 ReferencePart("not tested", ref.sourceNotest).value
    ensures ref.sourceTest == [] && ref.sourceNotest == [] ==> r == Ok("")
  {
    var tested :- ReferencePart("tested", ref.sourceTest);
    var untested :- ReferencePart("not tested", ref.sourceNotest);
    assert ref.sourceTest == [] && ref.sourceNotest == [] ==> tested + untested == "";
    Ok(tested + untested)
  }

  /** A reference whose one claim is tested reads as the heading and the
      claim's line. */
  lemma ReferenceOneTestedClaim(prop: string, target: Target)
    requires StartsWith(prop, "P") && FormatItis(target).Ok?
    ensures ReferenceText(Reference([Claim(prop, target)], [])) ==
              Ok(":''tested'':\n" + (":*{{P|" + prop + "}}: " + FormatItis(target).value + "\n"))
  {
    PropertyClaimLine(prop, target);
    TestedSingle(Claim(prop, target));
  }

  lemma TestedSingle(claim: Claim)
    requires ClaimLine(claim).Ok?
    ensures ReferenceText(Reference([claim], [])) == Ok(":''tested'':\n" + ClaimLine(claim).value)
  {
    ReferencePartSingle("tested", claim);
    TestedOnly([claim], ClaimLine(claim).value);
  }

  lemma TestedHeading()
    ensures ":''" + "tested" + "'':\n" == ":''tested'':\n"
  {
  }

  lemma TestedOnly(claims: seq<Claim>, lines: string)
    requires ReferencePart("tested", claims) == Ok(":''" + "tested" + "'':\n" + lines)
    ensures ReferenceText(Reference(claims, [])) == Ok(":''tested'':\n" + lines)
  {
    TestedHeading();
    var text := ":''tested'':\n" + lines;
    assert ReferencePart("tested", claims) == Ok(text);
    assert text + "" == text;
  }

  lemma PropertyClaimLine(prop: string, target: Target)
    requires StartsWith(prop, "P") && FormatItis(target).Ok?
    ensures ClaimLine(Claim(prop, target)) == Ok(":*{{P|" + prop + "}}: " + FormatItis(target).value + "\n")
  {
    assert prop[..1] == "P";
    assert ":*{{" + "P" + "|" == ":*{{P|";
  }

  lemma ReferencePartSingle(heading: string, claim: Claim)
    requires ClaimLine(claim).Ok?
    ensures ReferencePart(heading, [claim]) == Ok(":''" + heading + "'':\n" + ClaimLine(claim).value)
  {
    ConcatAllSingle(claim, ClaimLine);
  }

  /** The loop of `format_reference` over the claims of one part. */
  method FormatClaimLines(claims: seq<Claim>) returns (r: Res<string>)
    ensures r == ConcatAll(claims, ClaimLine)
  {
    var txt := "";
    var i := 0;
    while i < |claims|
      invariant 0 <= i <= |claims|
      invariant ConcatAll(claims[..i], ClaimLine) == Ok(txt)
    {
      var line := FormatClaim(claims[i]);
      ConcatAllStep(claims, ClaimLine, i);
      if line.Err? {
        return Err(line.error);
      }
      txt := txt + (":*" + line.value + "\n");
      i := i + 1;
    }
    assert claims[..i] == claims;
    return Ok(txt);
  }

  /** `format_reference(ref)`. */
  method FormatReference(ref: Reference) returns (r: Res<string>)
    ensures r == ReferenceText(ref)
  {
    var tested := "";
    if ref.sourceTest != [] {
      var lines := FormatClaimLines(ref.sourceTest);
      if lines.Err? { return Err(lines.error); }
      tested := ":" + Italics("tested") + ":\n" + lines.value;
    }
    assert ReferencePart("tested", ref.sourceTest) == Ok(tested);
    var untested := "";
    if ref.sourceNotest != [] {
      var lines := FormatClaimLines(ref.sourceNotest);
      if lines.Err? { return Err(lines.error); }
      untested := ":" + Italics("not tested") + ":\n" + lines.value;
    }
    assert ReferencePart("not tested", ref.sourceNotest) == Ok(untested);
    return Ok(tested + untested);
  }

  // ---------------------------------------------------------------------
  // Labels, descriptions and the matching item

  /** Every value is a string (what `' | '.join` requires). */
  function Strings(values: seq<PyVal>): (r: Res<seq<string>>)
    ensures r.Ok? <==> forall i :: 0 <= i < |values| ==> values[i].PyStr?
    ensures r.Ok? ==> |r.value| == |values| && forall i :: 0 <= i < |values| ==> r.value[i] == values[i].s
  {
    if values == [] then Ok([])
    else if !values[0].PyStr? then
      Err(TypeFault("sequence item: expected string or Unicode, " + TypeName(values[0]) + " found"))
    else
      var rest :- Strings(values[1..]);
      assert forall i :: 1 <= i < |values| ==> values[i] == values[1..][i - 1];
      Ok([values[0].s] + rest)
  }

  /** The line `format_labels` writes for one language with a truthy value:
      the first name in italics, then the aliases, separated by " | ". */
  function LabelLine(lang: string, names: PyVal): (r: Res<string>)
    requires Truthy(names)
    ensures r.Ok? <==> names.PyList? && forall i :: 1 <= i < |names.items| ==> names.items[i].PyStr?
  {
    match names
    case PyList(xs) =>
      assert forall i :: 1 <= i < |xs| ==> xs[i] == xs[1..][i - 1];
      var aliases :- Strings(xs[1..]);
      Ok("* " + Bold(lang) + ": " + Join(" | ", [Italics(Str(xs[0]))] + aliases) + "\n")
    case PyStr(_) => Err(TypeFault("can only concatenate list (not \"unicode\") to list"))
    case PyDict(_) => Err(KeyFault("0"))
  }

  /** `format_labels()`: a line per language whose value is truthy. */
  function LabelsText(labels: Dict<PyVal>): Res<string> {
    if labels == [] then Ok("")
    else LabelStep(LabelsText(labels[..|labels| - 1]), labels[|labels| - 1])
  }

  /** What one language adds to the preview built so far. */
  function LabelStep(sofar: Res<string>, entry: (string, PyVal)): Res<string> {
    var init :- sofar;
    if !Truthy(entry.1) then Ok(init)
    else
      var line :- LabelLine(entry.0, entry.1);
      Ok(init + line)
  }

  lemma {:induction false} LabelsTextPrefixFails(labels: Dict<PyVal>, k: nat)
    requires k <= |labels| && LabelsText(labels[..k]).Err?
    ensures LabelsText(labels) == LabelsText(labels[..k])
    decreases |labels| - k
  {
    if k < |labels| {
      assert labels[..k + 1][..k] == labels[..k];
      LabelsTextPrefixFails(labels, k + 1);
    } else {
      assert labels[..k] == labels;
    }
  }

  /** The labels of two dicts, one after the other, are previewed as the
      lines of the first followed by those of the second. */
  lemma {:induction false} LabelsTextAppend(a: Dict<PyVal>, b: Dict<PyVal>)
    requires LabelsText(a).Ok? && LabelsText(b).Ok?
    ensures LabelsText(a + b) == Ok(LabelsText(a).value + LabelsText(b).value)
    decreases |b|
  {
    if b == [] {
      assert a + b == a;
      assert LabelsText(b) == Ok("");
      assert LabelsText(a).value + "" == LabelsText(a).value;
    } else {
      var init := b[..|b| - 1];
      var last := b[|b| - 1];
      assert (a + b)[..|a + b| - 1] == a + init;
      assert (a + b)[|a + b| - 1] == last;
      assert LabelsText(b) == LabelStep(LabelsText(init), last);
      LabelsTextAppend(a, init);
      var x, y := LabelsText(a).value, LabelsText(init).value;
      assert LabelsText(a + b) == LabelStep(Ok(x + y), last);
      LabelStepPrefixed(x, y, last);
    }
  }

  lemma LabelStepPrefixed(x: string, y: string, entry: (string, PyVal))
    requires LabelStep(Ok(y), entry).Ok?
    ensures LabelStep(Ok(x + y), entry) == Ok(x + LabelStep(Ok(y), entry).value)
  {
    if Truthy(entry.1) {
      var l := LabelLine(entry.0, entry.1);
      assert l.Ok?;
      AppendAssoc(x, y, l.value);
    }
  }

  /** A language with an empty (or missing) value contributes nothing. */
  lemma LabelsTextSkipsEmpty(labels: Dict<PyVal>, lang: string, names: PyVal)
    requires !Truthy(names)
    ensures LabelsText(labels + [(lang, names)]) == LabelsText(labels)
  {
    assert (labels + [(lang, names)])[..|labels|] == labels;
  }

  /** A list of Python strings. */
  function PyStrs(xs: seq<string>): (r: seq<PyVal>)
    ensures |r| == |xs| && forall i :: 0 <= i < |xs| ==> r[i] == PyStr(xs[i])
  {
    seq(|xs|, i requires 0 <= i < |xs| => PyStr(xs[i]))
  }

  /** A language with a name and aliases gives the line
      `* '''lang''': ''name'' | alias | ...`. */
  lemma LabelsTextOneLanguage(lang: string, name: string, aliases: seq<string>)
    ensures LabelsText([(lang, PyList([PyStr(name)] + PyStrs(aliases)))])
         == Ok("* " + Bold(lang) + ": " + Join(" | ", [Italics(name)] + aliases) + "\n")
  {
    var xs := [PyStr(name)] + PyStrs(aliases);
    var labels := [(lang, PyList(xs))];
    assert labels[..0] == [];
    assert xs[1..] == PyStrs(aliases);
    assert Strings(xs[1..]).value == aliases;
    assert Str(xs[0]) == name;
    assert LabelLine(lang, PyList(xs)) == Ok("* " + Bold(lang) + ": " + Join(" | ", [Italics(name)] + aliases) + "\n");
    assert LabelsText(labels) == LabelStep(Ok(""), labels[0]);
    assert "" + LabelLine(lang, PyList(xs)).value == LabelLine(lang, PyList(xs)).value;
  }

  /** The loop of `format_labels`. */
  method FormatLabels(p: PreviewItem) returns (r: Res<string>)
    ensures r == LabelsText(p.labels)
  {
    var labels := p.labels;
    var preview := "";
    var i := 0;
    while i < |labels|
      invariant 0 <= i <= |labels|
      invariant LabelsText(labels[..i]) == Ok(preview)
    {
      assert labels[..i + 1][..i] == labels[..i];
      assert labels[..i + 1][i] == labels[i];
      var (lang, names) := labels[i];
      if Truthy(names) {
        var line := LabelLine(lang, names);
        if line.Err? {
          assert LabelsText(labels[..i + 1]) == Err(line.error);
          LabelsTextPrefixFails(labels, i + 1);
          return Err(line.error);
        }
        preview := preview + line.value;
      }
      i := i + 1;
    }
    assert labels[..i] == labels;
    return Ok(preview);
  }

  /** The line of one language: `* '''lang''': <entry>`. */
  function DescriptionLine(lang: string, description: PyVal): string {
    "* " + Bold(lang) + ": " + Str(description) + "\n"
  }

  /** `format_descriptions()`: a line per language, showing the description
      entry as `str` of the dict, that is its Python 2 `repr`. */
  function DescriptionsText(descriptions: Dict<PyVal>): string {
    if descriptions == [] then ""
    else
      var last := descriptions[|descriptions| - 1];
      DescriptionsText(descriptions[..|descriptions| - 1]) + DescriptionLine(last.0, last.1)
  }

  function DescriptionEntryLine(entry: (string, PyVal)): string {
    DescriptionLine(entry.0, entry.1)
  }

  /** The preview of the descriptions is one line per language, in order. */
  lemma {:induction false} DescriptionsTextLines(descriptions: Dict<PyVal>)
    ensures DescriptionsText(descriptions) == Concat(Lines(descriptions, DescriptionEntryLine))
    decreases |descriptions|
  {
    if descriptions != [] {
      var init := descriptions[..|descriptions| - 1];
      var last := descriptions[|descriptions| - 1];
      DescriptionsTextLines(init);
      ConcatSnoc(Lines(init, DescriptionEntryLine), DescriptionEntryLine(last));
    }
  }

  /** The loop of `format_descriptions`. */
  method FormatDescriptions(p: PreviewItem) returns (r: string)
    ensures r == DescriptionsText(p.descriptions)
  {
    var descriptions := p.descriptions;
    r := "";
    var i := 0;
    while i < |descriptions|
      invariant 0 <= i <= |descriptions|
      invariant r == DescriptionsText(descriptions[..i])
    {
      assert descriptions[..i + 1][..i] == descriptions[..i];
      r := r + DescriptionLine(descriptions[i].0, descriptions[i].1);
      i := i + 1;
    }
    assert descriptions[..i] == descriptions;
  }

  /** `format_item()`: the template of the matching item, or a dash when a
      new item would be created. */
  function FormatItem(p: PreviewItem): (r: Res<string>)
    ensures p.item.None? ==> r == Ok("–")
    ensures p.item.Some? && StartsWith(p.item.value, "Q") ==> r == Ok("{{Q|" + p.item.value + "}}")
  {
    match p.item
    case Some(q) =>
      assert StartsWith(q, "Q") ==> q[..1] == "Q";
      assert "{{" + "Q" + "|" == "{{Q|";
      WikidataTemplate(q, false)
    case None => Ok("–")
  }

  // ---------------------------------------------------------------------
  // The claims table

  /** One row of the claims table, before formatting. */
  datatype Row = Row(prop: string, value: string, quals: string, references: string)

  function BulletedQuals(quals: seq<Qualifier>): (r: Res<seq<string>>)
    ensures r.Ok? ==> |r.value| == |quals|
    ensures r.Ok? ==> forall i :: 0 <= i < |quals| ==> StartsWith(r.value[i], "* ")
  {
    if quals == [] then Ok([])
    else
      var first :- FormatQual(quals[0]);
      var rest :- BulletedQuals(quals[1..]);
      Ok(["* " + first] + rest)
  }

  /** The qualifier cell: nothing, one unbulleted qualifier, or every
      qualifier prefixed "* ", joined by " \n". */
  function QualsText(quals: seq<Qualifier>): (r: Res<string>)
    ensures quals == [] ==> r == Ok("")
    ensures |quals| == 1 ==> r == FormatQual(quals[0])
    ensures |quals| > 1 && r.Ok? ==> StartsWith(r.value, "* ")
  {
    if quals == [] then Ok("")
    else if |quals| == 1 then FormatQual(quals[0])
    else
      var items :- BulletedQuals(quals);
      assert Join(" \n", items) == items[0] + " \n" + Join(" \n", items[1..]);
      Ok(Join(" \n", items))
  }

  /** The row of one statement: its qualifiers, its own reference (empty when
      it has none) and its value. */
  function StatementRow(propText: string, statement: Statement): (r: Res<Row>)
    ensures r.Ok? ==> r.value.prop == propText
    ensures r.Ok? && statement.ref.None? ==> r.value.references == ""
  {
    var quals :- QualsText(statement.quals);
    var ref :- match statement.ref case None => Ok("") case Some(rf) => ReferenceText(rf);
    var value :- FormatItis(statement.itis);
    Ok(Row(propText, value, quals, ref))
  }

  function StatementRows(propText: string, statements: seq<Statement>): (r: Res<seq<Row>>)
    ensures r.Ok? ==> |r.value| == |statements|
  {
    if statements == [] then Ok([])
    else
      var init :- StatementRows(propText, statements[..|statements| - 1]);
      var row :- StatementRow(propText, statements[|statements| - 1]);
      Ok(init + [row])
  }

  /** The rows of one property: none for a falsy value, otherwise one per
      statement of `listify(value)`. */
  function PropRows(prop: string, pc: Protoclaim): (r: Res<seq<Row>>)
    ensures r.Ok? ==> |r.value| == |StatementsOf(pc)|
  {
    if !ProtoclaimTruthy(pc) then Ok([])
    else
      var propText :- WikidataTemplate(prop, false);
      StatementRows(propText, StatementsOf(pc))
  }

  /** The number of statements over all properties. */
  function StatementCount(protoclaims: Dict<Protoclaim>): nat {
    if protoclaims == [] then 0
    else StatementCount(protoclaims[..|protoclaims| - 1]) + |StatementsOf(protoclaims[|protoclaims| - 1].1)|
  }

  /** The rows of the claims table: one per statement of every truthy property. */
  function TableRows(protoclaims: Dict<Protoclaim>): (r: Res<seq<Row>>)
    ensures r.Ok? ==> |r.value| == StatementCount(protoclaims)
  {
    if protoclaims == [] then Ok([])
    else
      var init :- TableRows(protoclaims[..|protoclaims| - 1]);
      var last := protoclaims[|protoclaims| - 1];
      var rows :- PropRows(last.0, last.1);
      Ok(init + rows)
  }

  /** Some statement has a non-empty reference of its own. */
  predicate HasOwnReferences(rows: seq<Row>) {
    exists i :: 0 <= i < |rows| && rows[i].references != ""
  }

  const DefaultReference := Italics("default reference")

  /** Rows without an own reference show the default one, when `fill`. */
  function FillDefault(rows: seq<Row>, fill: bool): (r: seq<Row>)
    ensures |r| == |rows|
    ensures forall i :: 0 <= i < |rows| ==>
              r[i] == if fill && rows[i].references == "" then rows[i].(references := DefaultReference) else rows[i]
  {
    seq(|rows|, i requires 0 <= i < |rows| =>
          if fill && rows[i].references == "" then rows[i].(references := DefaultReference) else rows[i])
  }

  lemma Framed(head: string, body: string, tail: string)
    ensures StartsWith(head + body + tail, head)
    ensures (head + body + tail)[|head + body + tail| - |tail|..] == tail
  {
    assert (head + body + tail)[..|head|] == head;
  }

  const TableHead := "{| class='wikitable'\n|-\n! Property\n! Value\n! Qualifiers\n"
  const ReferencesHead := "! References\n"
  const TableEnd := "|}"

  function RowText(row: Row, withReferences: bool): string {
    "|-\n| " + row.prop + " \n| " + row.value + " \n| " + row.quals + " \n"
      + (if withReferences then "| " + row.references + " \n" else "")
  }

  function RowsText(rows: seq<Row>, withReferences: bool): string {
    if rows == [] then ""
    else RowsText(rows[..|rows| - 1], withReferences) + RowText(rows[|rows| - 1], withReferences)
  }

  /** The table `format_protoclaims` builds from its rows: a References column
      exactly when some statement has its own reference, and then the default
      reference in the other rows if the item has one. */
  function Table(rows: seq<Row>, ref: Option<Reference>): (r: string)
    ensures StartsWith(r, TableHead) && |r| >= 2 && r[|r| - 2..] == TableEnd
    ensures HasOwnReferences(rows) ==>
              r == TableHead + ReferencesHead + RowsText(FillDefault(rows, ref.Some?), true) + TableEnd
    ensures !HasOwnReferences(rows) ==> r == TableHead + RowsText(rows, false) + TableEnd
  {
    var withReferences := HasOwnReferences(rows);
    var shown := if withReferences then FillDefault(rows, ref.Some?) else rows;
    Framed(TableHead, (if withReferences then ReferencesHead else "") + RowsText(shown, withReferences), TableEnd);
    TableHead + (if withReferences then ReferencesHead else "") + RowsText(shown, withReferences) + TableEnd
  }

  /** `format_protoclaims()`. */
  function ClaimsTable(protoclaims: Dict<Protoclaim>, ref: Option<Reference>): (r: Res<string>)
    ensures r.Ok? ==> StartsWith(r.value, TableHead)
    ensures r.Ok? ==> |r.value| >= 2 && r.value[|r.value| - 2..] == TableEnd
  {
    var rows :- TableRows(protoclaims);
    Ok(Table(rows, ref))
  }

  lemma {:induction false} StatementRowsPrefixFails(propText: string, statements: seq<Statement>, k: nat)
    requires k <= |statements| && StatementRows(propText, statements[..k]).Err?
    ensures StatementRows(propText, statements) == StatementRows(propText, statements[..k])
    decreases |statements| - k
  {
    if k < |statements| {
      var longer := statements[..k + 1];
      assert longer[..|longer| - 1] == statements[..k];
      assert StatementRows(propText, longer) == StatementRows(propText, statements[..k]);
      StatementRowsPrefixFails(propText, statements, k + 1);
    } else {
      assert statements[..k] == statements;
    }
  }

  lemma {:induction false} TableRowsPrefixFails(protoclaims: Dict<Protoclaim>, k: nat)
    requires k <= |protoclaims| && TableRows(protoclaims[..k]).Err?
    ensures TableRows(protoclaims) == TableRows(protoclaims[..k])
    decreases |protoclaims| - k
  {
    if k < |protoclaims| {
      assert protoclaims[..k + 1][..k] == protoclaims[..k];
      TableRowsPrefixFails(protoclaims, k + 1);
    } else {
      assert protoclaims[..k] == protoclaims;
    }
  }

  /** The inner loop of `format_protoclaims`: a row per statement. */
  method FormatStatementRows(propText: string, statements: seq<Statement>) returns (r: Res<seq<Row>>)
    ensures r == StatementRows(propText, statements)
  {
    var rows := [];
    var i := 0;
    while i < |statements|
      invariant 0 <= i <= |statements|
      invariant StatementRows(propText, statements[..i]) == Ok(rows)
    {
      assert statements[..i + 1][..i] == statements[..i];
      assert statements[..i + 1][i] == statements[i];
      var row := StatementRow(propText, statements[i]);
      if row.Err? {
        assert StatementRows(propText, statements[..i + 1]) == Err(row.error);
        StatementRowsPrefixFails(propText, statements, i + 1);
        return Err(row.error);
      }
      rows := rows + [row.value];
      i := i + 1;
    }
    assert statements[..i] == statements;
    return Ok(rows);
  }

  /** The rows of one property, skipping a falsy one. */
  method FormatPropRows(prop: string, pc: Protoclaim) returns (r: Res<seq<Row>>)
    ensures r == PropRows(prop, pc)
  {
    if !ProtoclaimTruthy(pc) {
      return Ok([]);
    }
    var propText := WikidataTemplate(prop, false);
    if propText.Err? {
      return Err(propText.error);
    }
    r := FormatStatementRows(propText.value, StatementsOf(pc));
  }

  /** The outer loop of `format_protoclaims`, over the properties. */
  method FormatTableRows(protoclaims: Dict<Protoclaim>) returns (r: Res<seq<Row>>)
    ensures r == TableRows(protoclaims)
  {
    var rows := [];
    var i := 0;
    while i < |protoclaims|
      invariant 0 <= i <= |protoclaims|
      invariant TableRows(protoclaims[..i]) == Ok(rows)
    {
      assert protoclaims[..i + 1][..i] == protoclaims[..i];
      assert protoclaims[..i + 1][i] == protoclaims[i];
      var propRows := FormatPropRows(protoclaims[i].0, protoclaims[i].1);
      if propRows.Err? {
        assert TableRows(protoclaims[..i + 1]) == Err(propRows.error);
        TableRowsPrefixFails(protoclaims, i + 1);
        return Err(propRows.error);
      }
      rows := rows + propRows.value;
      i := i + 1;
    }
    assert protoclaims[..i] == protoclaims;
    return Ok(rows);
  }

  /** The loop giving every row without a reference the default one. */
  method FillDefaultReferences(rows: seq<Row>) returns (filled: seq<Row>)
    ensures filled == FillDefault(rows, true)
  {
    filled := rows;
    var i := 0;
    while i < |filled|
      invariant 0 <= i <= |filled| == |rows|
      invariant forall j :: 0 <= j < i ==> filled[j] == FillDefault(rows, true)[j]
      invariant forall j :: i <= j < |rows| ==> filled[j] == rows[j]
    {
      if filled[i].references == "" {
        filled := filled[i := filled[i].(references := DefaultReference)];
      }
      i := i + 1;
    }
  }

  lemma RowsTextSnoc(rows: seq<Row>, row: Row, withReferences: bool)
    ensures RowsText(rows + [row], withReferences) == RowsText(rows, withReferences) + RowText(row, withReferences)
  {
    assert (rows + [row])[..|rows|] == rows;
  }

  /** The loop writing the rows after the table head. */
  method RenderRows(head: string, rows: seq<Row>, withReferences: bool) returns (table: string)
    ensures table == head + RowsText(rows, withReferences)
  {
    table := head;
    var i := 0;
    while i < |rows|
      invariant 0 <= i <= |rows|
      invariant table == head + RowsText(rows[..i], withReferences)
    {
      assert rows[..i + 1] == rows[..i] + [rows[i]];
      RowsTextSnoc(rows[..i], rows[i], withReferences);
      table := table + RowText(rows[i], withReferences);
      i := i + 1;
    }
    assert rows[..i] == rows;
  }

  /** `format_protoclaims()`. */
  method FormatProtoclaims(p: PreviewItem) returns (r: Res<string>)
    ensures r == ClaimsTable(p.protoclaims, p.ref)
  {
    var rows :- FormatTableRows(p.protoclaims);
    ghost var built := rows;
    var table;
    if exists i :: 0 <= i < |rows| && rows[i].references != "" {
      if p.ref.Some? {
        rows := FillDefaultReferences(rows);
      }
      assert rows == FillDefault(built, p.ref.Some?);
      table := RenderRows(TableHead + ReferencesHead, rows, true);
    } else {
      table := RenderRows(TableHead, rows, false);
    }
    return Ok(table + TableEnd);
  }

  // ---------------------------------------------------------------------
  // The whole page

  function Section(key: string, data: string): string {
    Bold(key) + ":\n" + data + "\n\n"
  }

  /** The sections before the default reference: labels, descriptions and
      the matching item. */
  function PageHead(p: PreviewItem): Res<string> {
    var labels :- LabelsText(p.labels);
    var item :- FormatItem(p);
    Ok(Section("Labels | Aliases", labels) + Section("Descriptions", DescriptionsText(p.descriptions))
       + Bold("Matching item") + ": " + item + "\n\n")
  }

  const DefaultReferenceKey := "Default reference (same for all claims)"

  /** The default-reference section: there exactly when the item has a
      default reference. */
  function DefaultReferenceSection(ref: Option<Reference>): (r: Res<string>)
    ensures ref.None? ==> r == Ok("")
    ensures ref.Some? ==> (r.Ok? <==> ReferenceText(ref.value).Ok?)
    ensures ref.Some? && r.Ok? ==> r.value == Section(DefaultReferenceKey, ReferenceText(ref.value).value)
  {
    match ref
    case None => Ok("")
    case Some(rf) =>
      var t :- ReferenceText(rf);
      Ok(Section(DefaultReferenceKey, t))
  }

  /** `make_preview_page()`: the labels, descriptions and matching item,
      then the default reference when there is one, then the claims table. */
  function PreviewPage(p: PreviewItem): (r: Res<string>)
    ensures r.Ok? <==> PageHead(p).Ok? && DefaultReferenceSection(p.ref).Ok? &&
                       ClaimsTable(p.protoclaims, p.ref).Ok?
    ensures r.Ok? ==> r.value == PageHead(p).value + DefaultReferenceSection(p.ref).value
                                 + Section("Claims", ClaimsTable(p.protoclaims, p.ref).value)
  {
    var head :- PageHead(p);
    var refSection :- DefaultReferenceSection(p.ref);
    var claims :- ClaimsTable(p.protoclaims, p.ref);
    Ok(head + refSection + Section("Claims", claims))
  }

  /** `make_preview_page()`. */
  method MakePreviewPage(p: PreviewItem) returns (r: Res<string>)
    ensures r == PreviewPage(p)
  {
    var labels :- FormatLabels(p);
    var descriptions := FormatDescriptions(p);
    var item :- FormatItem(p);
    var txt := Section("Labels | Aliases", labels) + Section("Descriptions", descriptions)
               + Bold("Matching item") + ": " + item + "\n\n";
    assert PageHead(p) == Ok(txt);
    ghost var head := txt;
    assert head + "" == head;
    if p.ref.Some? {
      var reference :- FormatReference(p.ref.value);
      txt := txt + Section(DefaultReferenceKey, reference);
    }
    assert txt == head + DefaultReferenceSection(p.ref).value;
    var claims :- FormatProtoclaims(p);
    return Ok(txt + Section("Claims", claims));
  }
}
