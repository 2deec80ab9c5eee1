/** The Python values the bots handle: what `json` and `xmltodict` produce,
    dictionaries in their iteration order, the truthiness tests, `str`/`repr`
    and `helpers.listify`, and the exceptions the bots raise or run into. */
module Py {
  import opened Wrappers
  import opened Text

  /** A value read from a JSON mapping file or an XML report. A dict keeps
      its (key, value) pairs in iteration order. */
  datatype PyVal =
    | PyNone
    | PyStr(s: string)
    | PyList(items: seq<PyVal>)
    | PyDict(entries: seq<(string, PyVal)>)

  /** A Python dict with string keys, as its items in iteration order. */
  type Dict<V> = seq<(string, V)>

  /** The exceptions of the bots (the first five) and the Python runtime
      errors they run into (the rest). */
  datatype Error =
    | UnmappedValue(mapping: string, value: string)   // UnmappedValueError
    | UnexpectedValue(field: string, value: string)   // UnexpectedValueError
    | NotImplemented(message: string)                 // NotImplementedError
    | BotError(message: string)                       // pywikibot.Error
    | BotErrorListing(message: string, items: set<string>)
      // pywikibot.Error whose message ends in `', '.join(items)` of a set,
      // whose order Python leaves unspecified
    | KeyFault(key: string)                           // KeyError
    | TypeFault(message: string)                      // TypeError, AttributeError
    | ValueFault(message: string)                     // ValueError
    | ForeignFault(call: string)                      // None handed to a library call

  type Res<T> = Result<T, Error>

  /** A Python loop that applies `f` to each element in order and stops at
      the first one that raises. */
  function MapAll<A, B>(xs: seq<A>, f: A -> Res<B>): Res<seq<B>> {
    if xs == [] then Ok([])
    else
      var init :- MapAll(xs[..|xs| - 1], f);
      var y :- f(xs[|xs| - 1]);
      Ok(init + [y])
  }

  lemma {:induction false} MapAllPrefixFails<A, B>(xs: seq<A>, f: A -> Res<B>, k: nat)
    requires k <= |xs| && MapAll(xs[..k], f).Err?
    ensures MapAll(xs, f) == MapAll(xs[..k], f)
    decreases |xs| - k
  {
    if k < |xs| {
      assert xs[..k + 1][..k] == xs[..k];
      MapAllPrefixFails(xs, f, k + 1);
    } else {
      assert xs[..k] == xs;
    }
  }

  /** One more element: its failure fails the whole, its success appends
      its result. */
  lemma MapAllStep<A, B>(xs: seq<A>, f: A -> Res<B>, i: nat)
    requires i < |xs| && MapAll(xs[..i], f).Ok?
    ensures f(xs[i]).Err? ==> MapAll(xs, f) == Err(f(xs[i]).error)
    ensures f(xs[i]).Ok? ==> MapAll(xs[..i + 1], f) == Ok(MapAll(xs[..i], f).value + [f(xs[i]).value])
  {
    assert xs[..i + 1][..i] == xs[..i];
    if f(xs[i]).Err? {
      MapAllPrefixFails(xs, f, i + 1);
    }
  }

  /** The loop succeeds iff every element does, and then yields each
      element's result in place. */
  lemma {:induction false} MapAllEach<A, B>(xs: seq<A>, f: A -> Res<B>)
    ensures MapAll(xs, f).Ok? <==> forall i :: 0 <= i < |xs| ==> f(xs[i]).Ok?
    ensures MapAll(xs, f).Ok? ==>
              |MapAll(xs, f).value| == |xs| &&
              forall i :: 0 <= i < |xs| ==> MapAll(xs, f).value[i] == f(xs[i]).value
  {
    if xs != [] {
      var init := xs[..|xs| - 1];
      MapAllEach(init, f);
      assert forall i :: 0 <= i < |init| ==> init[i] == xs[i];
    }
  }

  /** A loop that appends the text `f` gives for each element in order and
      stops at the first element that raises: it succeeds exactly when every
      element does, and its text is then the pieces one after the other. */
  function ConcatAll<A>(xs: seq<A>, f: A -> Res<string>): (r: Res<string>)
    ensures r.Ok? <==> forall i :: 0 <= i < |xs| ==> f(xs[i]).Ok?
    ensures r.Ok? ==> exists parts :: |parts| == |xs| && r.value == Concat(parts) &&
                                     forall i :: 0 <= i < |xs| ==> f(xs[i]) == Ok(parts[i])
  {
    MapAllEach(xs, f);
    var parts :- MapAll(xs, f);
    Ok(Concat(parts))
  }

  /** One more element: its failure fails the whole, its success appends
      its text. */
  lemma ConcatAllStep<A>(xs: seq<A>, f: A -> Res<string>, i: nat)
    requires i < |xs| && ConcatAll(xs[..i], f).Ok?
    ensures f(xs[i]).Err? ==> ConcatAll(xs, f) == Err(f(xs[i]).error)
    ensures f(xs[i]).Ok? ==> ConcatAll(xs[..i + 1], f) == Ok(ConcatAll(xs[..i], f).value + f(xs[i]).value)
  {
    MapAllStep(xs, f, i);
    if f(xs[i]).Ok? {
      ConcatSnoc(MapAll(xs[..i], f).value, f(xs[i]).value);
    }
  }

  /** Over one element, the loop gives that element's text or error. */
  lemma ConcatAllSingle<A>(x: A, f: A -> Res<string>)
    ensures ConcatAll([x], f) == f(x)
  {
    assert [x][..0] == [] && [x][..1] == [x];
    ConcatAllStep([x], f, 0);
    if f(x).Ok? {
      assert "" + f(x).value == f(x).value;
    }
  }

  /** The text of an `UnmappedValueError`. */
  function UnmappedMessage(mapping: string, value: string): string {
    "The following values for \"" + mapping + "\" were not mapped: " + value
  }

  // ---------------------------------------------------------------------
  // Dicts

  function Keys<V>(d: Dict<V>): set<string> {
    if d == [] then {} else {d[0].0} + Keys(d[1..])
  }

  /** `d.get(k)`: the value of the first item with key `k`. */
  function Get<V>(d: Dict<V>, k: string): (r: Option<V>)
    ensures r.Some? <==> k in Keys(d)
    ensures r.Some? ==> (k, r.value) in d
  {
    if d == [] then None
    else if d[0].0 == k then Some(d[0].1)
    else Get(d[1..], k)
  }

  lemma {:induction false} KeysAt<V>(d: Dict<V>, k: string)
    ensures k in Keys(d) <==> exists i :: 0 <= i < |d| && d[i].0 == k
  {
    if d != [] {
      KeysAt(d[1..], k);
      if k in Keys(d[1..]) {
        var i :| 0 <= i < |d[1..]| && d[1..][i].0 == k;
        assert d[i + 1].0 == k;
      }
      if exists i :: 0 <= i < |d| && d[i].0 == k {
        var i :| 0 <= i < |d| && d[i].0 == k;
        if i > 0 { assert d[1..][i - 1].0 == k; }
      }
    }
  }

  lemma {:induction false} KeysAppend<V>(d: Dict<V>, e: Dict<V>)
    ensures Keys(d + e) == Keys(d) + Keys(e)
  {
    if d != [] {
      assert (d + e)[1..] == d[1..] + e;
      KeysAppend(d[1..], e);
    } else {
      assert d + e == e;
    }
  }

  /** `d[k] = v`: the value of an existing key is replaced in place, a new
      key goes last. */
  function Put<V>(d: Dict<V>, k: string, v: V): (r: Dict<V>)
    ensures Keys(r) == Keys(d) + {k}
    ensures Get(r, k) == Some(v)
    ensures forall j :: j != k ==> Get(r, j) == Get(d, j)
    ensures k !in Keys(d) ==> r == d + [(k, v)]
  {
    if d == [] then [(k, v)]
    else if d[0].0 == k then [(k, v)] + d[1..]
    else
      var rest := Put(d[1..], k, v);
      assert k !in Keys(d) ==> [d[0]] + (d[1..] + [(k, v)]) == d + [(k, v)];
      [d[0]] + rest
  }

  // ---------------------------------------------------------------------
  // Python semantics of values

  /** `bool(v)`. */
  predicate Truthy(v: PyVal) {
    match v
    case PyNone => false
    case PyStr(s) => s != []
    case PyList(xs) => xs != []
    case PyDict(d) => d != []
  }

  /** `helpers.listify(v)`: a list as it is, None as the empty list, anything
      else as a one-element list. */
  function Listify(v: PyVal): (r: seq<PyVal>)
    ensures v.PyNone? ==> r == []
    ensures v.PyList? ==> r == v.items
    ensures !v.PyNone? && !v.PyList? ==> r == [v]
  {
    match v
    case PyNone => []
    case PyList(xs) => xs
    case _ => [v]
  }

  /** `type(v).__name__` in Python 2, where the strings are `unicode`. */
  function TypeName(v: PyVal): string {
    match v
    case PyNone => "NoneType"
    case PyStr(_) => "unicode"
    case PyList(_) => "list"
    case PyDict(_) => "dict"
  }

  /** `repr(v)` in Python 2, where every string the bots handle is unicode
      and so prints with a `u` prefix (string escapes are not reproduced). */
  function Repr(v: PyVal): string
    decreases v
  {
    match v
    case PyNone => "None"
    case PyStr(s) => "u'" + s + "'"
    case PyList(xs) =>
      "[" + Join(", ", seq(|xs|, i requires 0 <= i < |xs| => Repr(xs[i]))) + "]"
    case PyDict(d) =>
      "{" + Join(", ", seq(|d|, i requires 0 <= i < |d| => "u'" + d[i].0 + "': " + Repr(d[i].1))) + "}"
  }

  /** `str(v)`, which is also what `'{}'.format(v)` and `'%s' % v` insert. */
  function Str(v: PyVal): string {
    if v.PyStr? then v.s else Repr(v)
  }

  /** `container[key]`. */
  function Index(container: PyVal, key: PyVal): (r: Res<PyVal>)
    ensures container.PyDict? && key.PyStr? && key.s in Keys(container.entries) ==>
              r == Ok(Get(container.entries, key.s).value)
    ensures container.PyDict? && key.PyStr? && key.s !in Keys(container.entries) ==>
              r == Err(KeyFault(key.s))
  {
    match container
    case PyDict(d) =>
      (match key
       case PyStr(k) => (match Get(d, k) case Some(v) => Ok(v) case None => Err(KeyFault(k)))
       case PyNone => Err(KeyFault("None"))
       case _ => Err(TypeFault("unhashable type: '" + TypeName(key) + "'")))
    case _ => Err(TypeFault("'" + TypeName(container) + "' object cannot be indexed by '" + TypeName(key) + "'"))
  }

  /** `container.get(key)`: None for an absent key. */
  function DictGet(container: PyVal, key: PyVal): (r: Res<PyVal>)
    ensures container.PyDict? && key.PyStr? ==>
              r == Ok(match Get(container.entries, key.s) case Some(v) => v case None => PyNone)
    ensures !container.PyDict? ==> r.Err?
  {
    match container
    case PyDict(d) =>
      (match key
       case PyStr(k) => Ok(match Get(d, k) case Some(v) => v case None => PyNone)
       case PyNone => Ok(PyNone)
       case _ => Err(TypeFault("unhashable type: '" + TypeName(key) + "'")))
    case _ => Err(TypeFault("'" + TypeName(container) + "' object has no attribute 'get'"))
  }

  /** `key in d` for a dict `d`. */
  function Contains(d: Dict<PyVal>, key: PyVal): Res<bool> {
    match key
    case PyStr(k) => Ok(k in Keys(d))
    case PyNone => Ok(false)
    case _ => Err(TypeFault("unhashable type: '" + TypeName(key) + "'"))
  }

  /** `d.get(k)` on a dict known to be one. */
  function Field(d: Dict<PyVal>, k: string): PyVal {
    match Get(d, k) case Some(v) => v case None => PyNone
  }
}
