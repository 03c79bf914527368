/** The lenient parameter coercions of the gateway (api/index.py, `_bool`,
    `_int` and `_csv_list`): each one is total and falls back rather than
    failing. */
module Coerce {
  import opened Wrappers
  import opened Text
  import opened Seqs
  import opened PyValue

  /** The strings `_bool` reads as true, after lower-casing. */
  const TruthyWords: set<string> := {"1", "true", "yes"}

  /** `_bool(v)`: tri-state, `None` only for an unset value. */
  function CoerceBool(v: Value): (r: Option<bool>)
    ensures r.None? <==> v == Null
  {
    match v
    case Null => None
    case Bool(b) => Some(b)
    case Int(i) => Some(i != 0)
    case _ => Some(Lower(ToText(v)) in TruthyWords)
  }

  /** `int(v)`: `None` where Python raises `ValueError` or `TypeError`. */
  function ToInt(v: Value): Option<int> {
    match v
    case Null => None
    case Bool(b) => Some(if b then 1 else 0)
    case Int(i) => Some(i)
    case Str(s) => ParseInt(s)
    case List(_) => None
  }

  /** `_int(v, default)`. */
  function CoerceInt(v: Value, default: Option<int>): (r: Option<int>)
    ensures r.None? ==> default.None?
  {
    if v == Null || v == Str("") then default
    else match ToInt(v)
      case Some(n) => Some(n)
      case None => default
  }

  /** `_int(v, d)` for an integer default `d`, which is then always an int. */
  function IntOr(v: Value, d: int): int {
    CoerceInt(v, Some(d)).GetOr(d)
  }

  /** The two casts `_csv_list` is called with: `str` and `int`. */
  function CastStr(v: Value): Option<string> {
    Some(ToText(v))
  }

  function CastInt(v: Value): Option<int> {
    ToInt(v)
  }

  /** `[p.strip() for p in s.split(",") if p.strip()]`. */
  function Tokens(s: string): seq<string> {
    Filter(MapSeq(Split(s, ','), Strip), t => t != "")
  }

  /** `result or None`. */
  function NonEmpty<T>(xs: seq<T>): (r: Option<seq<T>>)
    ensures r != Some([])
  {
    if xs == [] then None else Some(xs)
  }

  /** `_csv_list(v, cast)`: a list is cast element by element; anything else
      is rendered with `str`, split on commas, stripped, and its blank
      tokens dropped before casting. Failed casts are dropped. */
  function CsvList<T>(v: Value, cast: Value -> Option<T>): (r: Option<seq<T>>)
    ensures r != Some([])
  {
    if v == Null || v == Str("") then None
    else if v.List? then NonEmpty(FilterMap(v.items, cast))
    else
      var parts := Tokens(ToText(v));
      if parts == [] then None else NonEmpty(FilterMap(MapSeq(parts, p => Str(p)), cast))
  }

  /** `_csv_list` as the loops of its source: `result` grows one successful
      cast at a time. */
  method ReadCsvList<T>(v: Value, cast: Value -> Option<T>) returns (r: Option<seq<T>>)
    ensures r == CsvList(v, cast)
  {
    if v == Null || v == Str("") {
      return None;
    }
    var source: seq<Value>;
    if v.List? {
      source := v.items;
    } else {
      var parts := Tokens(ToText(v));
      if parts == [] {
        return None;
      }
      source := MapSeq(parts, p => Str(p));
    }
    var result := CastItems(source, cast);
    r := if result == [] then None else Some(result);
  }

  /** The loop of `_csv_list`: each item cast in turn, the failures
      dropped. */
  method CastItems<T>(source: seq<Value>, cast: Value -> Option<T>) returns (result: seq<T>)
    ensures result == FilterMap(source, cast)
  {
    result := [];
    var i := 0;
    while i < |source|
      invariant 0 <= i <= |source|
      invariant result == FilterMap(source[..i], cast)
    {
      FilterMapSnoc(source, i, cast);
      match cast(source[i]) {
        case Some(x) => result := result + [x];
        case None =>
      }
      i := i + 1;
    }
    assert source[..i] == source;
  }

  // ---------------------------------------------------------------------
  // Properties

  /** `_bool` reads back the text `str()` gives a boolean. */
  lemma BoolOfBoolText(b: bool)
    ensures CoerceBool(Str(ToText(Bool(b)))) == Some(b)
  {
    if b {
      assert Lower("True") == "true";
    } else {
      assert Lower("False") == "false";
    }
  }

  /** A decimal string is true only when it is "1", although every nonzero
      integer is true: `_bool("2")` is false while `_bool(2)` is true. */
  lemma BoolOfIntText(i: int)
    ensures CoerceBool(Str(IntToString(i))) == Some(i == 1)
    ensures CoerceBool(Int(i)) == Some(i != 0)
  {
    var s := IntToString(i);
    IntToStringShape(i);
    LowerKeeps(s);
    assert s != "true" by { assert !IsDigit('t'); }
    assert s != "yes" by { assert !IsDigit('y'); }
    if s == "1" {
      OneText(i);
    }
  }

  /** Only 1 prints as "1". */
  lemma OneText(i: int)
    requires IntToString(i) == "1"
    ensures i == 1
  {
    ParseIntToString(i);
    ParseIntToString(1);
    assert IntToString(1) == "1";
  }

  /** A list's `str()` starts with "[", so `_bool` reads every list as false. */
  lemma BoolOfList(items: seq<Value>)
    ensures CoerceBool(List(items)) == Some(false)
  {
    var t := ToText(List(items));
    assert t[0] == '[';
    assert Lower(t)[0] == '[';
  }

  /** `_int` falls back to the default exactly when the value is unset,
      empty, or not convertible by `int()`. */
  lemma IntFallback(v: Value, default: Option<int>)
    ensures CoerceInt(v, default) == default
        <== v == Null || v == Str("") || ToInt(v).None?
    ensures v != Null && v != Str("") && ToInt(v).Some? ==> CoerceInt(v, default) == ToInt(v)
  {
  }

  /** `_int(str(n))` and `_int(n)` give `n` back whatever the default. */
  lemma IntRoundTrip(n: int, default: Option<int>)
    ensures CoerceInt(Str(IntToString(n)), default) == Some(n)
    ensures CoerceInt(Int(n), default) == Some(n)
  {
    ParseIntToString(n);
    CoerceIntText(IntToString(n), n, default);
  }

  /** `_int` of a non-empty text that parses. */
  lemma CoerceIntText(s: string, n: int, default: Option<int>)
    requires |s| >= 1 && ParseInt(s) == Some(n)
    ensures CoerceInt(Str(s), default) == Some(n)
  {
    assert Str(s) != Str("");
  }

  /** `_csv_list` gives `None` exactly for an unset or empty value, or when
      no element (for a list) or no non-blank token (otherwise) casts. */
  lemma CsvListAbsent<T>(v: Value, cast: Value -> Option<T>)
    ensures CsvList(v, cast) == None <==>
      || v == Null || v == Str("")
      || (v.List? && forall i :: 0 <= i < |v.items| ==> cast(v.items[i]).None?)
      || (!v.List? && forall t :: t in Tokens(ToText(v)) ==> cast(Str(t)).None?)
  {
    if v.List? {
      FilterMapEmpty(v.items, cast);
    } else if v != Null && v != Str("") {
      TokenCastsFail(Tokens(ToText(v)), cast);
    }
  }

  /** No token casts exactly when the cast fails on every token. */
  lemma TokenCastsFail<T>(parts: seq<string>, cast: Value -> Option<T>)
    ensures FilterMap(MapSeq(parts, p => Str(p)), cast) == [] <==>
      forall t :: t in parts ==> cast(Str(t)).None?
  {
    var strs := MapSeq(parts, p => Str(p));
    FilterMapEmpty(strs, cast);
    if forall t :: t in parts ==> cast(Str(t)).None? {
      assert forall i :: 0 <= i < |strs| ==> parts[i] in parts;
    }
    if forall i :: 0 <= i < |strs| ==> cast(strs[i]).None? {
      forall t | t in parts ensures cast(Str(t)).None? {
        var i :| 0 <= i < |parts| && parts[i] == t;
        assert strs[i] == Str(t);
      }
    }
  }


  /** Every element `_csv_list` returns is the cast of an element of the
      list, or of one token of the string. */
  lemma CsvListSound<T>(v: Value, cast: Value -> Option<T>, y: T)
    requires CsvList(v, cast).Some? && y in CsvList(v, cast).value
    ensures v.List? ==> exists x :: x in v.items && cast(x) == Some(y)
    ensures !v.List? ==> exists t :: t in Tokens(ToText(v)) && cast(Str(t)) == Some(y)
  {
    if v.List? {
      FilterMapSound(v.items, cast, y);
      var i :| 0 <= i < |v.items| && cast(v.items[i]) == Some(y);
      assert v.items[i] in v.items;
    } else {
      var parts := Tokens(ToText(v));
      var strs := MapSeq(parts, p => Str(p));
      FilterMapSound(strs, cast, y);
      var i :| 0 <= i < |strs| && cast(strs[i]) == Some(y);
      assert parts[i] in parts && strs[i] == Str(parts[i]);
    }
  }

  /** For a list, `_csv_list` with `str` keeps every element as `str()`
      renders it: no stripping and no dropping of blanks. */
  lemma CsvListOfList(items: seq<Value>)
    requires items != []
    ensures CsvList(List(items), CastStr) == Some(MapSeq(items, ToText))
  {
    FilterMapAllSome(items, CastStr, MapSeq(items, ToText));
  }

  /** A token, once split out of text, has no comma and no whitespace at
      either end, and is not blank. */
  predicate CleanToken(t: string) {
    t != "" && ',' !in t && Strip(t) == t
  }

  lemma StripNoComma(s: string)
    requires ',' !in s
    ensures ',' !in Strip(s)
  {
    var a := TrimStart(s);
    NotInSlice(s, ',', |s| - |a|, |s|);
    NotInSlice(a, ',', 0, |TrimEnd(a)|);
  }

  /** A character missing from a string is missing from each slice of it. */
  lemma NotInSlice(s: string, c: char, i: int, j: int)
    requires 0 <= i <= j <= |s| && c !in s
    ensures c !in s[i..j]
  {
    forall k | 0 <= k < j - i
      ensures s[i..j][k] != c
    {
      assert s[i..j][k] == s[i + k];
    }
  }

  lemma TokenClean(s: string, u: string)
    requires u in Tokens(s)
    ensures CleanToken(u)
  {
    TokenStripped(s, u);
    var pieces := Split(s, ',');
    var stripped := MapSeq(pieces, Strip);
    var k :| 0 <= k < |stripped| && stripped[k] == u;
    PieceClean(s, u, k);
  }

  lemma TokenStripped(s: string, u: string)
    requires u in Tokens(s)
    ensures u in MapSeq(Split(s, ','), Strip) && u != ""
  {
  }

  lemma PieceClean(s: string, u: string, k: nat)
    requires k < |Split(s, ',')| && u == Strip(Split(s, ',')[k]) && u != ""
    ensures CleanToken(u)
  {
    PieceNoComma(Split(s, ','), k);
    StrippedClean(Split(s, ',')[k]);
  }

  lemma StrippedClean(p: string)
    requires ',' !in p && Strip(p) != ""
    ensures CleanToken(Strip(p))
  {
    StripNoComma(p);
    StripKeeps(Strip(p));
  }

  lemma PieceNoComma(pieces: seq<string>, k: nat)
    requires k < |pieces| && forall p :: p in pieces ==> ',' !in p
    ensures ',' !in pieces[k]
  {
    assert pieces[k] in pieces;
  }

  /** For text, every element `_csv_list` returns with `str` is a clean
      token. */
  lemma CsvListOfTextClean(s: string)
    requires CsvList(Str(s), CastStr).Some?
    ensures forall t :: t in CsvList(Str(s), CastStr).value ==> CleanToken(t)
  {
    var xs := CsvList(Str(s), CastStr).value;
    forall t | t in xs ensures CleanToken(t) {
      CsvListSound(Str(s), CastStr, t);
      var u :| u in Tokens(ToText(Str(s))) && CastStr(Str(u)) == Some(t);
      TokenClean(s, u);
    }
  }

  /** Joining clean tokens with commas and reading them back with
      `_csv_list` gives each token's cast, in order: the query-string form
      of a list decodes to the list. */
  lemma CsvTextRoundTrip<T>(xs: seq<string>, cast: Value -> Option<T>, ys: seq<T>)
    requires xs != [] && |ys| == |xs|
    requires forall k :: 0 <= k < |xs| ==> CleanToken(xs[k])
    requires forall k :: 0 <= k < |xs| ==> cast(Str(xs[k])) == Some(ys[k])
    ensures CsvList(Str(Join(xs, ",")), cast) == Some(ys)
  {
    var text := Join(xs, ",");
    TokensOfJoin(xs);
    assert CleanToken(xs[0]);
    JoinNonEmpty(xs, ",");
    CastEach(xs, cast, ys);
    ReadTokens(text, xs, cast, ys);
  }

  lemma JoinNonEmpty(xs: seq<string>, sep: string)
    requires xs != [] && xs[0] != ""
    ensures Join(xs, sep) != ""
  {
    if |xs| > 1 {
      assert Join(xs, sep) == xs[0] + sep + Join(xs[1..], sep);
    }
  }

  lemma CastEach<T>(xs: seq<string>, cast: Value -> Option<T>, ys: seq<T>)
    requires |ys| == |xs|
    requires forall k :: 0 <= k < |xs| ==> cast(Str(xs[k])) == Some(ys[k])
    ensures FilterMap(MapSeq(xs, p => Str(p)), cast) == ys
  {
    FilterMapAllSome(MapSeq(xs, p => Str(p)), cast, ys);
  }

  lemma ReadTokens<T>(text: string, xs: seq<string>, cast: Value -> Option<T>, ys: seq<T>)
    requires text != "" && Tokens(text) == xs && xs != []
    requires FilterMap(MapSeq(xs, p => Str(p)), cast) == ys && ys != []
    ensures CsvList(Str(text), cast) == Some(ys)
  {
  }

  lemma TokensOfJoin(xs: seq<string>)
    requires xs != []
    requires forall k :: 0 <= k < |xs| ==> CleanToken(xs[k])
    ensures Tokens(Join(xs, ",")) == xs
  {
    CleanNoComma(xs);
    SplitJoin(xs, ',');
    CleanStripped(xs);
    FilterAll(xs, t => t != "");
  }

  lemma CleanNoComma(xs: seq<string>)
    requires forall k :: 0 <= k < |xs| ==> CleanToken(xs[k])
    ensures forall x :: x in xs ==> ',' !in x && x != ""
  {
    forall x | x in xs ensures ',' !in x && x != "" {
      var k :| 0 <= k < |xs| && xs[k] == x;
      assert CleanToken(xs[k]);
    }
  }

  lemma CleanStripped(xs: seq<string>)
    requires forall k :: 0 <= k < |xs| ==> CleanToken(xs[k])
    ensures MapSeq(xs, Strip) == xs
  {
    var stripped := MapSeq(xs, Strip);
    forall k | 0 <= k < |xs| ensures stripped[k] == xs[k] {
      assert CleanToken(xs[k]);
    }
  }

  /** `_csv_list(",".join(xs))` is `xs` for clean tokens `xs`. */
  lemma CsvStringsRoundTrip(xs: seq<string>)
    requires xs != []
    requires forall k :: 0 <= k < |xs| ==> CleanToken(xs[k])
    ensures CsvList(Str(Join(xs, ",")), CastStr) == Some(xs)
  {
    CsvTextRoundTrip(xs, CastStr, xs);
  }

  /** `_csv_list(",".join(map(str, ids)), cast=int)` is `ids`: the
      query-string form of `linkedin_company_ids` decodes to the ids. */
  lemma CsvIdsRoundTrip(ids: seq<int>)
    requires ids != []
    ensures CsvList(Str(Join(MapSeq(ids, IntToString), ",")), CastInt) == Some(ids)
  {
    var xs := MapSeq(ids, IntToString);
    forall k | 0 <= k < |xs| ensures CleanToken(xs[k]) && CastInt(Str(xs[k])) == Some(ids[k]) {
      IdToken(ids[k]);
    }
    CsvTextRoundTrip(xs, CastInt, ids);
  }

  /** `str(i)` is a clean token that `int` reads back as `i`. */
  lemma IdToken(i: int)
    ensures CleanToken(IntToString(i)) && CastInt(Str(IntToString(i))) == Some(i)
  {
    var s := IntToString(i);
    IntToStringShape(i);
    assert !IsSpace(s[0]) && !IsSpace(s[|s| - 1]);
    StripKeeps(s);
    ParseIntToString(i);
  }
}
