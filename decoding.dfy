/**
 * The part of pydantic's validation that the record models rely on: a field
 * is read under its alias when one is declared and present, otherwise under
 * its own name (`populate_by_name`); a required field that is absent fails;
 * an optional one becomes its default; keys the model does not declare are
 * ignored. Only the strict JSON types are accepted (a JSON bool for `bool`,
 * an integer for `int`, a string for `str`).
 *
 * Each record decoder first looks up the value offered for every field and
 * then validates those values one by one with the helpers below, in the
 * order the fields are declared.
 */
module Decoding {
  import opened Wrappers
  import opened Json

  datatype DecodeError = NotAnObject | Missing(field: string) | WrongType(field: string)

  /** `Dict[str, str]`, kept in insertion order. */
  type StrMap = seq<(string, string)>

  /** The value offered for a field: under its alias first, then under its
      name. A field without an alias passes its name twice. */
  function Lookup(fs: Fields, alias: string, name: string): Option<Json> {
    if Get(fs, alias).Some? then Get(fs, alias) else Get(fs, name)
  }

  /** A key that is neither the alias nor the name of a field does not change
      what the field reads. */
  lemma LookupIgnoresOtherKey(fs: Fields, alias: string, name: string, k: string, v: Json)
    requires k != alias && k != name
    ensures Lookup(fs + [(k, v)], alias, name) == Lookup(fs, alias, name)
  {
    GetAppend(fs, [(k, v)], alias);
    GetAppend(fs, [(k, v)], name);
    GetAbsent([(k, v)], alias);
    GetAbsent([(k, v)], name);
    GetFindsKey(fs, alias);
    GetFindsKey(fs, name);
  }

  /** The values offered for the fields of a record, in declaration order:
      aliases[i] and names[i] are the alias and the name of the i-th field
      (a field without an alias has its name in both lists). */
  function Lookups(fs: Fields, aliases: seq<string>, names: seq<string>): (r: seq<Option<Json>>)
    requires |aliases| == |names|
    ensures |r| == |aliases|
    ensures forall i :: 0 <= i < |aliases| ==> r[i] == Lookup(fs, aliases[i], names[i])
  {
    seq(|aliases|, i requires 0 <= i < |aliases| => Lookup(fs, aliases[i], names[i]))
  }

  /** An object written under a duplicate-free list of aliases offers each
      field the value written for it, whatever the field names are. */
  lemma LookupsOfZip(aliases: seq<string>, names: seq<string>, vs: seq<Json>)
    requires |aliases| == |names| == |vs| && NoDupFrom(aliases, 0)
    ensures forall i :: 0 <= i < |vs| ==> Lookups(Zip(aliases, vs), aliases, names)[i] == Some(vs[i])
  {
    forall i | 0 <= i < |vs|
      ensures Lookups(Zip(aliases, vs), aliases, names)[i] == Some(vs[i])
    {
      GetZipAt(aliases, vs, i);
    }
  }

  /** With populate_by_name an object written under the field names instead
      offers each field its value too, as long as no alias that differs from
      its own field's name is the name of some field. */
  lemma LookupsOfNameZip(aliases: seq<string>, names: seq<string>, vs: seq<Json>)
    requires |aliases| == |names| == |vs| && NoDupFrom(names, 0)
    requires forall i :: 0 <= i < |aliases| ==> aliases[i] == names[i] || aliases[i] !in names
    ensures forall i :: 0 <= i < |vs| ==> Lookups(Zip(names, vs), aliases, names)[i] == Some(vs[i])
  {
    forall i | 0 <= i < |vs|
      ensures Lookups(Zip(names, vs), aliases, names)[i] == Some(vs[i])
    {
      GetZipAt(names, vs, i);
      if aliases[i] != names[i] {
        GetAbsent(Zip(names, vs), aliases[i]);
      }
    }
  }

  /** With populate_by_name either spelling is accepted: the alias when it is
      present, the field name when the alias is absent. */
  lemma LookupEitherSpelling(fs: Fields, alias: string, name: string)
    ensures Get(fs, alias).Some? ==> Lookup(fs, alias, name) == Get(fs, alias)
    ensures Get(fs, alias).None? ==> Lookup(fs, alias, name) == Get(fs, name)
    ensures Lookup(fs, alias, name).None? <==> alias !in Keys(fs) && name !in Keys(fs)
  {
    GetFindsKey(fs, alias);
    GetFindsKey(fs, name);
  }

  /** A required `str` field. */
  function ReqStr(v: Option<Json>, name: string): (r: Result<string, DecodeError>)
    ensures r.Success? <==> v.Some? && v.value.JStr?
    ensures r.Success? ==> v == Some(JStr(r.value))
    ensures v.None? ==> r == Failure(Missing(name))
  {
    match v
    case None => Failure(Missing(name))
    case Some(JStr(s)) => Success(s)
    case Some(_) => Failure(WrongType(name))
  }

  /** `Optional[str] = None`: absent and null both give None. */
  function OptStr(v: Option<Json>, name: string): (r: Result<Option<string>, DecodeError>)
    ensures v.None? || v == Some(JNull) ==> r == Success(None)
    ensures r.Success? && r.value.Some? ==> v == Some(JStr(r.value.value))
    ensures r.Failure? <==> v.Some? && !v.value.JNull? && !v.value.JStr?
  {
    match v
    case None => Success(None)
    case Some(JNull) => Success(None)
    case Some(JStr(s)) => Success(Some(s))
    case Some(_) => Failure(WrongType(name))
  }

  /** `bool = d`: absent gives d; null is rejected like any non-bool. */
  function BoolOr(v: Option<Json>, name: string, d: bool): (r: Result<bool, DecodeError>)
    ensures v.None? ==> r == Success(d)
    ensures v.Some? ==> (r.Success? <==> v.value.JBool?)
    ensures v.Some? && r.Success? ==> v == Some(JBool(r.value))
  {
    match v
    case None => Success(d)
    case Some(JBool(b)) => Success(b)
    case Some(_) => Failure(WrongType(name))
  }

  /** `Optional[bool] = None`. */
  function OptBool(v: Option<Json>, name: string): (r: Result<Option<bool>, DecodeError>)
    ensures v.None? || v == Some(JNull) ==> r == Success(None)
    ensures r.Success? && r.value.Some? ==> v == Some(JBool(r.value.value))
    ensures r.Failure? <==> v.Some? && !v.value.JNull? && !v.value.JBool?
  {
    match v
    case None => Success(None)
    case Some(JNull) => Success(None)
    case Some(JBool(b)) => Success(Some(b))
    case Some(_) => Failure(WrongType(name))
  }

  /** A required `int` field. */
  function ReqInt(v: Option<Json>, name: string): (r: Result<int, DecodeError>)
    ensures r.Success? <==> v.Some? && v.value.JInt?
    ensures r.Success? ==> v == Some(JInt(r.value))
    ensures v.None? ==> r == Failure(Missing(name))
  {
    match v
    case None => Failure(Missing(name))
    case Some(JInt(i)) => Success(i)
    case Some(_) => Failure(WrongType(name))
  }

  /** `int = d`. */
  function IntOr(v: Option<Json>, name: string, d: int): (r: Result<int, DecodeError>)
    ensures v.None? ==> r == Success(d)
    ensures v.Some? ==> (r.Success? <==> v.value.JInt?)
    ensures v.Some? && r.Success? ==> v == Some(JInt(r.value))
  {
    match v
    case None => Success(d)
    case Some(JInt(i)) => Success(i)
    case Some(_) => Failure(WrongType(name))
  }

  /** `Optional[Dict[str, Any]] = None`: any JSON object, or absent/null. */
  function OptObject(v: Option<Json>, name: string): (r: Result<Option<Json>, DecodeError>)
    ensures v.None? || v == Some(JNull) ==> r == Success(None)
    ensures r.Success? && r.value.Some? ==> r.value.value.JObj? && v == r.value
    ensures r.Failure? <==> v.Some? && !v.value.JNull? && !v.value.JObj?
  {
    match v
    case None => Success(None)
    case Some(JNull) => Success(None)
    case Some(JObj(o)) => Success(Some(JObj(o)))
    case Some(_) => Failure(WrongType(name))
  }

  /** The entries of an object whose values are all strings. */
  function StrMapOf(o: Fields): (r: Option<StrMap>)
    ensures r.Some? ==> |r.value| == |o| && forall i :: 0 <= i < |o| ==> o[i] == (r.value[i].0, JStr(r.value[i].1))
  {
    if o == [] then Some([])
    else if !o[0].1.JStr? then None
    else
      match StrMapOf(o[1..])
      case None => None
      case Some(rest) => Some([(o[0].0, o[0].1.s)] + rest)
  }

  function StrMapJson(m: StrMap): (j: Json)
    ensures j.JObj? && |j.fields| == |m|
    ensures forall i :: 0 <= i < |m| ==> j.fields[i] == (m[i].0, JStr(m[i].1))
  {
    if m == [] then JObj([]) else JObj([(m[0].0, JStr(m[0].1))] + StrMapJson(m[1..]).fields)
  }

  lemma {:induction false} StrMapRoundTrip(m: StrMap)
    ensures StrMapOf(StrMapJson(m).fields) == Some(m)
  {
    if m != [] {
      var o := StrMapJson(m).fields;
      StrMapRoundTrip(m[1..]);
      assert o[1..] == StrMapJson(m[1..]).fields;
      assert o[0] == (m[0].0, JStr(m[0].1));
      assert m == [(m[0].0, m[0].1)] + m[1..];
    }
  }

  /** `Optional[Dict[str, str]] = None`. */
  function OptStrMap(v: Option<Json>, name: string): (r: Result<Option<StrMap>, DecodeError>)
    ensures v.None? || v == Some(JNull) ==> r == Success(None)
    ensures r.Success? && r.value.Some? ==> v == Some(StrMapJson(r.value.value))
  {
    match v
    case None => Success(None)
    case Some(JNull) => Success(None)
    case Some(JObj(o)) =>
      (match StrMapOf(o)
       case Some(m) =>
         assert StrMapJson(m).fields == o;
         Success(Some(m))
       case None => Failure(WrongType(name)))
    case Some(_) => Failure(WrongType(name))
  }

  function OptStrMapJson(m: Option<StrMap>): Json {
    match m
    case None => JNull
    case Some(v) => StrMapJson(v)
  }

  function OptBoolJson(b: Option<bool>): Json {
    match b
    case None => JNull
    case Some(v) => JBool(v)
  }

  /** `Optional[Dict[str, Any]]` as `model_dump` writes it. */
  function OptObjectJson(o: Option<Json>): Json {
    match o
    case None => JNull
    case Some(v) => v
  }

  /** `[Model(**d) for d in items]`: the first item that fails to decode fails
      the whole list. */
  function DecodeList<T>(items: seq<Json>, decode: Json -> Result<T, DecodeError>): (r: Result<seq<T>, DecodeError>)
    ensures r.Success? <==> forall i :: 0 <= i < |items| ==> decode(items[i]).Success?
    ensures r.Success? ==> |r.value| == |items| && forall i :: 0 <= i < |items| ==> decode(items[i]) == Success(r.value[i])
  {
    if items == [] then Success([])
    else
      var x :- decode(items[0]);
      var rest :- DecodeList(items[1..], decode);
      assert forall i :: 1 <= i < |items| ==> items[i] == items[1..][i - 1];
      Success([x] + rest)
  }

  /** A list decodes to xs exactly when each item decodes to the element at its position. */
  lemma {:induction false} DecodeListPointwise<T>(items: seq<Json>, decode: Json -> Result<T, DecodeError>, xs: seq<T>)
    requires |items| == |xs|
    requires forall i :: 0 <= i < |items| ==> decode(items[i]) == Success(xs[i])
    ensures DecodeList(items, decode) == Success(xs)
  {
    var r := DecodeList(items, decode);
    assert r.Success?;
    assert forall i :: 0 <= i < |items| ==> r.value[i] == xs[i] by {
      forall i | 0 <= i < |items|
        ensures r.value[i] == xs[i]
      {
        assert decode(items[i]) == Success(r.value[i]);
      }
    }
    assert r.value == xs;
  }

  /** A list of records as `model_dump` writes it. */
  function ListJson<T>(xs: seq<T>, encode: T -> Json): (r: seq<Json>)
    ensures |r| == |xs| && forall i :: 0 <= i < |xs| ==> r[i] == encode(xs[i])
  {
    if xs == [] then [] else [encode(xs[0])] + ListJson(xs[1..], encode)
  }

  /** A required nested model: absent fails, an object is decoded by `decode`,
      anything else (null included) is rejected. */
  function ReqRecord<T>(v: Option<Json>, name: string, decode: Json -> Result<T, DecodeError>): (r: Result<T, DecodeError>)
    ensures v.None? ==> r == Failure(Missing(name))
    ensures v.Some? && v.value.JObj? ==> r == decode(v.value)
    ensures v.Some? && !v.value.JObj? ==> r == Failure(WrongType(name))
  {
    match v
    case None => Failure(Missing(name))
    case Some(JObj(o)) => decode(JObj(o))
    case Some(_) => Failure(WrongType(name))
  }

  /** `Optional[Model] = None`. */
  function OptRecord<T>(v: Option<Json>, name: string, decode: Json -> Result<T, DecodeError>): (r: Result<Option<T>, DecodeError>)
    ensures v.None? || v == Some(JNull) ==> r == Success(None)
    ensures v.Some? && v.value.JObj? ==> (r.Success? <==> decode(v.value).Success?)
    ensures v.Some? && v.value.JObj? && r.Success? ==> r.value == Some(decode(v.value).value)
    ensures v.Some? && !v.value.JObj? && !v.value.JNull? ==> r == Failure(WrongType(name))
  {
    match v
    case None => Success(None)
    case Some(JNull) => Success(None)
    case Some(JObj(o)) =>
      var x :- decode(JObj(o));
      Success(Some(x))
    case Some(_) => Failure(WrongType(name))
  }

  /** `Optional[List[Model]] = None`. */
  function OptList<T>(v: Option<Json>, name: string, decode: Json -> Result<T, DecodeError>): (r: Result<Option<seq<T>>, DecodeError>)
    ensures v.None? || v == Some(JNull) ==> r == Success(None)
    ensures v.Some? && v.value.JArr? ==> (r.Success? <==> DecodeList(v.value.items, decode).Success?)
    ensures v.Some? && v.value.JArr? && r.Success? ==> r.value == Some(DecodeList(v.value.items, decode).value)
    ensures v.Some? && !v.value.JArr? && !v.value.JNull? ==> r == Failure(WrongType(name))
  {
    match v
    case None => Success(None)
    case Some(JNull) => Success(None)
    case Some(JArr(items)) =>
      var xs :- DecodeList(items, decode);
      Success(Some(xs))
    case Some(_) => Failure(WrongType(name))
  }

  /** `List[Model] = Field(default_factory=list)`: absent gives [], null is rejected. */
  function ListOr<T>(v: Option<Json>, name: string, decode: Json -> Result<T, DecodeError>): (r: Result<seq<T>, DecodeError>)
    ensures v.None? ==> r == Success([])
    ensures v.Some? && v.value.JArr? ==> r == DecodeList(v.value.items, decode)
    ensures v.Some? && !v.value.JArr? ==> r == Failure(WrongType(name))
  {
    match v
    case None => Success([])
    case Some(JArr(items)) => DecodeList(items, decode)
    case Some(_) => Failure(WrongType(name))
  }

  function OptRecordJson<T>(o: Option<T>, encode: T -> Json): Json {
    match o
    case None => JNull
    case Some(x) => encode(x)
  }

  function OptListJson<T>(o: Option<seq<T>>, encode: T -> Json): Json {
    match o
    case None => JNull
    case Some(xs) => JArr(ListJson(xs, encode))
  }

  // ---------------------------------------------------------------------
  // Reading back what the encoders write, one field kind at a time

  lemma ReadOptStr(o: Option<string>, name: string)
    ensures OptStr(Some(OptStrJson(o)), name) == Success(o)
  {
  }

  lemma ReadOptBool(o: Option<bool>, name: string)
    ensures OptBool(Some(OptBoolJson(o)), name) == Success(o)
  {
  }

  lemma ReadOptStrMap(m: Option<StrMap>, name: string)
    ensures OptStrMap(Some(OptStrMapJson(m)), name) == Success(m)
  {
    if m.Some? {
      StrMapRoundTrip(m.value);
    }
  }

  lemma ReadOptObject(o: Option<Json>, name: string)
    requires o.Some? ==> o.value.JObj?
    ensures OptObject(Some(OptObjectJson(o)), name) == Success(o)
  {
  }

  lemma ReadOptRecord<T>(o: Option<T>, name: string, encode: T -> Json, decode: Json -> Result<T, DecodeError>)
    requires o.Some? ==> encode(o.value).JObj? && decode(encode(o.value)) == Success(o.value)
    ensures OptRecord(Some(OptRecordJson(o, encode)), name, decode) == Success(o)
  {
  }

  lemma ReadList<T>(xs: seq<T>, encode: T -> Json, decode: Json -> Result<T, DecodeError>)
    requires forall i :: 0 <= i < |xs| ==> decode(encode(xs[i])) == Success(xs[i])
    ensures DecodeList(ListJson(xs, encode), decode) == Success(xs)
  {
    DecodeListPointwise(ListJson(xs, encode), decode, xs);
  }

  lemma ReadOptList<T>(o: Option<seq<T>>, name: string, encode: T -> Json, decode: Json -> Result<T, DecodeError>)
    requires o.Some? ==> forall i :: 0 <= i < |o.value| ==> decode(encode(o.value[i])) == Success(o.value[i])
    ensures OptList(Some(OptListJson(o, encode)), name, decode) == Success(o)
  {
    if o.Some? {
      ReadList(o.value, encode, decode);
    }
  }
}
