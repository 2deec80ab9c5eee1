/** The two ways the bots fill a country name into a description template:
    `template.format(country=name)` (WFD/WFDBase.py) and `template % name`
    (the legacy RBD bot). */
module Format {
  import opened Wrappers
  import opened Text
  import opened Py

  /** No brace occurs in `s`. */
  predicate BraceFree(s: string) {
    forall i :: 0 <= i < |s| ==> s[i] != '{' && s[i] != '}'
  }

  /** No percent sign occurs in `s`. */
  predicate PercentFree(s: string) {
    forall i :: 0 <= i < |s| ==> s[i] != '%'
  }

  const CountryField := "{country}"

  /** `t.format(country=value)`: `{country}` becomes `value`, `{{` and `}}`
      become single braces; any other use of a brace is an error. */
  function BraceFormat(t: string, value: string): (r: Res<string>)
    ensures BraceFree(t) ==> r == Ok(t)
    decreases |t|
  {
    if t == [] then Ok([])
    else if t[0] == '{' then
      if |t| >= 2 && t[1] == '{' then
        var rest :- BraceFormat(t[2..], value);
        Ok("{" + rest)
      else if StartsWith(t, CountryField) then
        var rest :- BraceFormat(t[|CountryField|..], value);
        Ok(value + rest)
      else Err(ValueFault("unsupported replacement field in format string"))
    else if t[0] == '}' then
      if |t| >= 2 && t[1] == '}' then
        var rest :- BraceFormat(t[2..], value);
        Ok("}" + rest)
      else Err(ValueFault("Single '}' encountered in format string"))
    else
      var rest :- BraceFormat(t[1..], value);
      assert BraceFree(t) ==> BraceFree(t[1..]) by {
        if BraceFree(t) {
          forall i | 0 <= i < |t[1..]| ensures t[1..][i] != '{' && t[1..][i] != '}' {
            assert t[1..][i] == t[i + 1];
          }
        }
      }
      assert t == [t[0]] + t[1..];
      Ok([t[0]] + rest)
  }

  /** A template with one `{country}` field and no other brace yields the
      text around the field with `value` in its place. */
  lemma {:induction false} BraceFormatOneField(prefix: string, suffix: string, value: string)
    requires BraceFree(prefix) && BraceFree(suffix)
    ensures BraceFormat(prefix + CountryField + suffix, value) == Ok(prefix + value + suffix)
    decreases |prefix|
  {
    if prefix == [] {
      assert prefix + CountryField + suffix == CountryField + suffix;
      BraceFormatFieldFirst(suffix, value);
      assert prefix + value + suffix == value + suffix;
    } else {
      BraceFreeTail(prefix);
      BraceFormatOneField(prefix[1..], suffix, value);
      BraceFormatStep(prefix, suffix, value);
    }
  }

  /** The step of `BraceFormatOneField`: the first character of the prefix
      is copied before the rest. */
  lemma BraceFormatStep(prefix: string, suffix: string, value: string)
    requires prefix != [] && prefix[0] != '{' && prefix[0] != '}'
    requires BraceFormat(prefix[1..] + CountryField + suffix, value) == Ok(prefix[1..] + value + suffix)
    ensures BraceFormat(prefix + CountryField + suffix, value) == Ok(prefix + value + suffix)
  {
    Regroup(prefix, CountryField, suffix);
    Regroup(prefix, value, suffix);
    BraceFormatLiteralFirst(prefix[0], prefix[1..] + CountryField + suffix, value);
  }

  /** `p + m + s` with the first character of `p` split off. */
  lemma Regroup(p: string, m: string, s: string)
    requires p != []
    ensures p + m + s == [p[0]] + (p[1..] + m + s)
  {
    assert p == [p[0]] + p[1..];
  }

  /** The field at the start of the template is replaced. */
  lemma BraceFormatFieldFirst(suffix: string, value: string)
    requires BraceFree(suffix)
    ensures BraceFormat(CountryField + suffix, value) == Ok(value + suffix)
  {
    var t := CountryField + suffix;
    assert t[0] == '{' && t[1] == 'c';
    assert StartsWith(t, CountryField) by { assert t[..|CountryField|] == CountryField; }
    assert t[|CountryField|..] == suffix;
  }

  /** A character other than a brace is copied. */
  lemma BraceFormatLiteralFirst(c: char, rest: string, value: string)
    requires c != '{' && c != '}'
    ensures BraceFormat([c] + rest, value)
         == if BraceFormat(rest, value).Ok? then Ok([c] + BraceFormat(rest, value).value) else BraceFormat(rest, value)
  {
    var t := [c] + rest;
    assert t[0] == c && t[1..] == rest;
  }

  lemma BraceFreeTail(s: string)
    requires s != [] && BraceFree(s)
    ensures BraceFree(s[1..])
  {
    forall i | 0 <= i < |s[1..]| ensures s[1..][i] != '{' && s[1..][i] != '}' {
      assert s[1..][i] == s[i + 1];
    }
  }

  /** The scan behind `t % value` with a single argument; `used` tells
      whether the argument has been consumed already. */
  function PercentScan(t: string, value: string, used: bool): (r: Res<string>)
    ensures PercentFree(t) && used ==> r == Ok(t)
    ensures PercentFree(t) && !used ==> r.Err?
    decreases |t|
  {
    if t == [] then
      if used then Ok([])
      else Err(TypeFault("not all arguments converted during string formatting"))
    else if t[0] == '%' then
      if |t| == 1 then Err(ValueFault("incomplete format"))
      else if t[1] == '%' then
        var rest :- PercentScan(t[2..], value, used);
        Ok("%" + rest)
      else if t[1] == 's' then
        if used then Err(TypeFault("not enough arguments for format string"))
        else
          var rest :- PercentScan(t[2..], value, true);
          Ok(value + rest)
      else Err(ValueFault("unsupported format character"))
    else
      assert PercentFree(t) ==> PercentFree(t[1..]) by {
        if PercentFree(t) {
          forall i | 0 <= i < |t[1..]| ensures t[1..][i] != '%' {
            assert t[1..][i] == t[i + 1];
          }
        }
      }
      var rest :- PercentScan(t[1..], value, used);
      assert t == [t[0]] + t[1..];
      Ok([t[0]] + rest)
  }

  /** `t % value` for a single string argument: it must be consumed by
      exactly one `%s`; `%%` stands for a percent sign. */
  function PercentFormat(t: string, value: string): (r: Res<string>)
    ensures PercentFree(t) ==> r.Err?
  {
    PercentScan(t, value, false)
  }

  /** A template with exactly one `%s` and no other percent sign yields the
      text around it with `value` in its place. */
  lemma {:induction false} PercentFormatOneField(prefix: string, suffix: string, value: string)
    requires PercentFree(prefix) && PercentFree(suffix)
    ensures PercentFormat(prefix + "%s" + suffix, value) == Ok(prefix + value + suffix)
  {
    PercentScanOneField(prefix, suffix, value);
  }

  lemma {:induction false} PercentScanOneField(prefix: string, suffix: string, value: string)
    requires PercentFree(prefix) && PercentFree(suffix)
    ensures PercentScan(prefix + "%s" + suffix, value, false) == Ok(prefix + value + suffix)
    decreases |prefix|
  {
    if prefix == [] {
      assert prefix + "%s" + suffix == "%s" + suffix;
      PercentScanFieldFirst(suffix, value);
      assert prefix + value + suffix == value + suffix;
    } else {
      PercentFreeTail(prefix);
      PercentScanOneField(prefix[1..], suffix, value);
      PercentScanStep(prefix, suffix, value);
    }
  }

  /** The step of `PercentScanOneField`: the first character of the prefix
      is copied before the rest. */
  lemma PercentScanStep(prefix: string, suffix: string, value: string)
    requires prefix != [] && prefix[0] != '%'
    requires PercentScan(prefix[1..] + "%s" + suffix, value, false) == Ok(prefix[1..] + value + suffix)
    ensures PercentScan(prefix + "%s" + suffix, value, false) == Ok(prefix + value + suffix)
  {
    Regroup(prefix, "%s", suffix);
    Regroup(prefix, value, suffix);
    PercentScanLiteralFirst(prefix[0], prefix[1..] + "%s" + suffix, value, false);
  }

  /** The `%s` at the start of the template takes the argument. */
  lemma PercentScanFieldFirst(suffix: string, value: string)
    requires PercentFree(suffix)
    ensures PercentScan("%s" + suffix, value, false) == Ok(value + suffix)
  {
    var t := "%s" + suffix;
    assert t[0] == '%' && t[1] == 's';
    assert t[2..] == suffix;
  }

  /** A character other than a percent sign is copied. */
  lemma PercentScanLiteralFirst(c: char, rest: string, value: string, used: bool)
    requires c != '%'
    ensures PercentScan([c] + rest, value, used)
         == if PercentScan(rest, value, used).Ok? then Ok([c] + PercentScan(rest, value, used).value) else PercentScan(rest, value, used)
  {
    var t := [c] + rest;
    assert t[0] == c && t[1..] == rest;
  }

  lemma PercentFreeTail(s: string)
    requires s != [] && PercentFree(s)
    ensures PercentFree(s[1..])
  {
    forall i | 0 <= i < |s[1..]| ensures s[1..][i] != '%' {
      assert s[1..][i] == s[i + 1];
    }
  }

}
