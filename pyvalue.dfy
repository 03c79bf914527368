/** The loosely typed values a request carries (query-string text, JSON
    body fields, lists), Python's `str()` of such a value, its truthiness,
    and the flat parameter dictionary with `dict.get`. */
module PyValue {
  import opened Wrappers
  import opened Text

  datatype Value =
    | Null
    | Bool(b: bool)
    | Int(i: int)
    | Str(s: string)
    | List(items: seq<Value>)

  /** A parameter dictionary (`params`, the library's `kwargs`, an echo). */
  type Dict = map<string, Value>

  /** `d.get(k)`: a missing key reads as `None`. */
  function Get(d: Dict, k: string): Value {
    if k in d then d[k] else Null
  }

  /** Python truthiness. */
  predicate Truthy(v: Value) {
    match v
    case Null => false
    case Bool(b) => b
    case Int(i) => i != 0
    case Str(s) => s != ""
    case List(items) => items != []
  }

  /** `str(v)`. */
  function ToText(v: Value): string
    decreases v, 1
  {
    match v
    case Null => "None"
    case Bool(b) => if b then "True" else "False"
    case Int(i) => IntToString(i)
    case Str(s) => s
    case List(items) =>
      "[" + Join(seq(|items|, k requires 0 <= k < |items| => Repr(items[k])), ", ") + "]"
  }

  /** `repr(v)`: strings are quoted, everything else prints as `str(v)`. */
  function Repr(v: Value): string
    decreases v, 2
  {
    if v.Str? then "'" + v.s + "'" else ToText(v)
  }

  /** A Python list of strings. */
  function StrList(xs: seq<string>): (v: Value)
    ensures v.List? && |v.items| == |xs|
    ensures forall k :: 0 <= k < |xs| ==> v.items[k] == Str(xs[k])
  {
    List(seq(|xs|, k requires 0 <= k < |xs| => Str(xs[k])))
  }

  /** Every string of the list shows, quoted, in its `str()`: a message built
      from an invalid-site list names every invalid site. */
  lemma StrListTextNames(xs: seq<string>, k: nat)
    requires k < |xs|
    ensures Contains(ToText(StrList(xs)), xs[k])
  {
    var v := StrList(xs);
    var reprs := seq(|v.items|, j requires 0 <= j < |v.items| => Repr(v.items[j]));
    assert reprs[k] == "'" + xs[k] + "'";
    ContainsSelf(xs[k]);
    ContainsInfix("'", xs[k], "'", xs[k]);
    JoinContains(reprs, ", ", k, xs[k]);
    ContainsInfix("[", Join(reprs, ", "), "]", xs[k]);
  }
  // ---------------------------------------------------------------------
  // Reading fields of a decoded JSON object

  /** `d.get(k, default)`. */
  function GetDefault(d: Dict, k: string, default: Value): (r: Value)
    ensures k !in d ==> r == default
    ensures k in d ==> r == d[k]
  {
    if k in d then d[k] else default
  }

  /** `v or d`. */
  function Or(v: Value, d: Value): (r: Value)
    ensures Truthy(v) ==> r == v
    ensures !Truthy(v) ==> r == d
  {
    if Truthy(v) then v else d
  }

  /** `v or None`: falsy values (`""`, `0`, `[]`, `False`) become `None`. */
  function OrNone(v: Value): (r: Value)
    ensures r == Null || (r == v && Truthy(v))
  {
    Or(v, Null)
  }

  /** `(v or "")` used as a string: a falsy value reads as `""`, a truthy
      non-string raises (`AttributeError` on `.lower()` or `.strip()`). */
  function TextOr(v: Value): (r: Attempt<string>)
    ensures r == Raised <==> Truthy(v) && !v.Str?
    ensures r.Done? && r.value != "" ==> v == Str(r.value)
  {
    if !Truthy(v) then Done("") else if v.Str? then Done(v.s) else Raised
  }

  /** `for x in v`: lists yield their items, strings their characters, and
      anything else raises `TypeError`. */
  function Iterate(v: Value): (r: Attempt<seq<Value>>)
    ensures r.Done? <==> v.List? || v.Str?
    ensures v.List? ==> r == Done(v.items)
  {
    match v
    case List(items) => Done(items)
    case Str(s) => Done(seq(|s|, i requires 0 <= i < |s| => Str([s[i]])))
    case _ => Raised
  }

  /** The strings of a sequence of values, or `None` when one is not a
      string. */
  function AllText(xs: seq<Value>): (r: Option<seq<string>>)
    ensures r.Some? <==> forall i :: 0 <= i < |xs| ==> xs[i].Str?
    ensures r.Some? ==> |r.value| == |xs| && forall i :: 0 <= i < |xs| ==> xs[i] == Str(r.value[i])
    decreases |xs|
  {
    if xs == [] then Some([])
    else
      var n := |xs| - 1;
      assert forall i :: 0 <= i < n ==> xs[..n][i] == xs[i];
      match AllText(xs[..n])
      case None => None
      case Some(init) => if xs[n].Str? then Some(init + [xs[n].s]) else None
  }

  /** `sep.join(v)`: raises unless `v` is iterable and yields strings only. */
  function JoinText(v: Value, sep: string): (r: Attempt<string>)
    ensures v.List? && AllText(v.items).Some? ==> r == Done(Join(AllText(v.items).value, sep))
    ensures v.List? && AllText(v.items).None? ==> r == Raised
  {
    match Iterate(v)
    case Raised => Raised
    case Done(items) =>
      match AllText(items)
      case None => Raised
      case Some(parts) => Done(Join(parts, sep))
  }

  /** `v >= cutoff` for a number `v` (a `bool` counts as 0 or 1); any other
      value raises `TypeError`. */
  function AtLeast(v: Value, cutoff: int): (r: Attempt<bool>)
    ensures r.Done? <==> v.Int? || v.Bool?
    ensures v.Int? ==> r == Done(v.i >= cutoff)
  {
    match v
    case Int(i) => Done(i >= cutoff)
    case Bool(b) => Done((if b then 1 else 0) >= cutoff)
    case _ => Raised
  }

  /** `v[:n]` inside `try`: strings and lists are cut to at most `n`
      elements; anything else raises and leaves `None`. */
  function PrefixOrNull(v: Value, n: nat): (r: Value)
    ensures v.Str? ==> r.Str? && |r.s| <= n && |r.s| <= |v.s| && r.s == v.s[..|r.s|]
    ensures v.List? ==> r.List? && |r.items| <= n && |r.items| <= |v.items| && r.items == v.items[..|r.items|]
    ensures !v.Str? && !v.List? ==> r == Null
  {
    match v
    case Str(s) => Str(Prefix(s, n))
    case List(items) => List(if n <= |items| then items[..n] else items)
    case _ => Null
  }

  /** `xs = v or []; xs[0] if xs else None`: the first element of a list or
      the first character of a string; a truthy value of another type raises
      (it is not subscriptable). */
  function FirstOrNull(v: Value): (r: Attempt<Value>)
    ensures !Truthy(v) ==> r == Done(Null)
    ensures v.List? && v.items != [] ==> r == Done(v.items[0])
    ensures r == Raised <==> Truthy(v) && !v.List? && !v.Str?
  {
    if !Truthy(v) then Done(Null)
    else match v
      case List(items) => Done(items[0])
      case Str(s) => Done(Str([s[0]]))
      case _ => Raised
  }
}
