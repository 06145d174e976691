/** The module-level helpers: the ready-made preprocessors and the tables
    built from a configuration enum. */
module Base {
  import opened Values
  import opened OrderedMaps
  import StandardPreprocessor
  import CastingPreprocessor

  /** `simputils_pp` with its default pattern `[^0-9a-zA-Z_]+` and
      replacement `_`. */
  function SimputilsPp(k: string, v: Value): (r: (string, Value))
    ensures r.0 == StandardPreprocessor.Normalise(k) && r.1 == v
  {
    StandardPreprocessor.Run(k, v)
  }

  /** `simputils_cast`: the caster as written, which raises `ValueError`
      when `float` is handed ".", "+." or "-."; wherever it returns, it
      returns what the corrected caster `CastingPreprocessor.Run` does. */
  function SimputilsCast(k: string, v: Value): (r: Result<(string, Value)>)
    ensures r.Err? <==> v.Str? && CastingPreprocessor.Unsigned(CastingPreprocessor.Body(v.s)) == "."
    ensures r.Err? ==> r.error.ValueError?
    ensures r.Ok? ==> r.value == CastingPreprocessor.Run(k, v)
  {
    CastingPreprocessor.RunAsWrittenAgrees(k, v);
    CastingPreprocessor.RunAsWritten(k, v)
  }

  /** `simputils_pp_with_cast`: the key is normalised and the value is cast,
      so it raises exactly where `simputils_cast` does. */
  function SimputilsPpWithCast(k: string, v: Value): (r: Result<(string, Value)>)
    ensures r.Err? <==> v.Str? && CastingPreprocessor.Unsigned(CastingPreprocessor.Body(v.s)) == "."
    ensures r.Err? ==> r.error.ValueError?
    ensures r.Ok? ==> r.value == (StandardPreprocessor.Normalise(k), CastingPreprocessor.Run(k, v).1)
  {
    var (k1, v1) := SimputilsPp(k, v);
    SimputilsCast(k1, v1)
  }

  /** Preprocessing with the combined preprocessor a second time changes
      nothing. */
  lemma PpWithCastIdempotent(k: string, v: Value)
    ensures SimputilsPpWithCast(k, v).Ok? ==>
      SimputilsPpWithCast(SimputilsPpWithCast(k, v).value.0, SimputilsPpWithCast(k, v).value.1)
        == SimputilsPpWithCast(k, v)
  {
    StandardPreprocessor.NormaliseIdempotent(k);
    CastingPreprocessor.CastIdempotent(k, v);
    CastingPreprocessor.CastIdempotent(StandardPreprocessor.Normalise(k), v);
  }

  /** `AnnotatedConfigData`: its `data` dict always holds "default" (None
      when not given) followed by the other keyword arguments. */
  datatype AnnotatedConfigData = AnnotatedConfigData(default: Value, extra: seq<(string, Value)>)
  {
    function Data(): seq<(string, Value)> {
      [("default", default)] + extra
    }
  }

  /** A member of a configuration enum: its name and its string value. */
  datatype Member = Member(name: string, value: string)

  /** A configuration enum (a `str` enum) in declaration order, with the
      `AnnotatedConfigData` of the members whose annotation is
      `Annotated[..., AnnotatedConfigData(...)]`, by member name. */
  datatype EnumClass = EnumClass(members: seq<Member>, annotations: map<string, AnnotatedConfigData>)

  /** Python's enum iteration yields no aliases, so names and values are
      each distinct. */
  predicate ValidEnum(e: EnumClass) {
    (forall i, j :: 0 <= i < j < |e.members| ==> e.members[i].name != e.members[j].name) &&
    (forall i, j :: 0 <= i < j < |e.members| ==> e.members[i].value != e.members[j].value)
  }

  /** `get_enum_annotation_for`: the annotation of the member with the given
      name, if it is an annotated one. */
  function AnnotationFor(e: EnumClass, m: Member): (r: Option<AnnotatedConfigData>)
    ensures r.Some? <==> m.name in e.annotations
  {
    if m.name in e.annotations then Some(e.annotations[m.name]) else None
  }

  /** The default a member contributes: `None` unless its annotation gives
      one. */
  function DefaultOf(e: EnumClass, m: Member): (r: Value)
    ensures m.name !in e.annotations ==> r == Null
    ensures m.name in e.annotations ==> Get(e.annotations[m.name].Data(), "default") == Some(r)
  {
    match AnnotationFor(e, m)
    case None => Null
    case Some(a) =>
      assert Keys(a.Data())[0] == "default";
      GetOr(a.Data(), "default", Null)
  }

  /** The table `get_enum_defaults` builds, one entry per member keyed by
      its value. */
  function EnumDefaults(e: EnumClass): seq<(string, Value)> {
    seq(|e.members|, i requires 0 <= i < |e.members| => (e.members[i].value, DefaultOf(e, e.members[i])))
  }

  /** `get_enum_defaults`: fills a dict member by member. */
  method GetEnumDefaults(e: EnumClass) returns (res: seq<(string, Value)>)
    requires ValidEnum(e)
    ensures res == EnumDefaults(e)
  {
    res := [];
    var n := 0;
    while n < |e.members|
      invariant 0 <= n <= |e.members|
      invariant res == EnumDefaults(e)[..n]
    {
      var m := e.members[n];
      var default := Null;
      var annotated := AnnotationFor(e, m);
      if annotated.Some? {
        default := GetOr(annotated.value.Data(), "default", Null);
      }
      assert m.value !in Keys(res) by {
        forall i | 0 <= i < n ensures Keys(res)[i] != m.value {
          assert Keys(res)[i] == e.members[i].value;
        }
      }
      res := Put(res, m.value, default);
      n := n + 1;
    }
  }

  /** The defaults table has exactly one entry per member, in declaration
      order, keyed by the member's value; the entry is the annotated default,
      or `None` for a member without an annotation. */
  lemma EnumDefaultsEntries(e: EnumClass, i: nat)
    requires ValidEnum(e) && i < |e.members|
    ensures Keys(EnumDefaults(e)) == seq(|e.members|, j requires 0 <= j < |e.members| => e.members[j].value)
    ensures Valid(EnumDefaults(e))
    ensures Get(EnumDefaults(e), e.members[i].value) == Some(DefaultOf(e, e.members[i]))
  {
    var d := EnumDefaults(e);
    assert Valid(d) by {
      forall a, b | 0 <= a < b < |d| ensures Keys(d)[a] != Keys(d)[b] {
        assert Keys(d)[a] == e.members[a].value;
      }
    }
    GetAt(d, i);
  }

  /** The table `get_enum_all_annotations` builds from the first `n`
      members: the annotated members only, in declaration order. */
  function AllAnnotationsUpTo(e: EnumClass, n: nat): seq<(Member, AnnotatedConfigData)>
    requires n <= |e.members|
  {
    if n == 0 then []
    else
      var m := e.members[n - 1];
      var prev := AllAnnotationsUpTo(e, n - 1);
      if m.name in e.annotations then prev + [(m, e.annotations[m.name])] else prev
  }

  function AllAnnotations(e: EnumClass): seq<(Member, AnnotatedConfigData)> {
    AllAnnotationsUpTo(e, |e.members|)
  }

  /** `get_enum_all_annotations`: fills a dict with the annotated members. */
  method GetEnumAllAnnotations(e: EnumClass) returns (res: seq<(Member, AnnotatedConfigData)>)
    requires ValidEnum(e)
    ensures res == AllAnnotations(e)
  {
    res := [];
    var n := 0;
    while n < |e.members|
      invariant 0 <= n <= |e.members|
      invariant res == AllAnnotationsUpTo(e, n)
      invariant forall p :: p in res ==> p.0 in e.members[..n]
    {
      var m := e.members[n];
      var annotated := AnnotationFor(e, m);
      if annotated.Some? {
        FreshMember(e, n, res);
        res := Put(res, m, annotated.value);
      }
      n := n + 1;
    }
  }

  /** The annotations table holds a member exactly when the member is
      annotated, with that member's annotation. */
  lemma {:induction false} AllAnnotationsUpToEntries(e: EnumClass, n: nat, m: Member)
    requires ValidEnum(e) && n <= |e.members|
    ensures Get(AllAnnotationsUpTo(e, n), m).Some? <==> m in e.members[..n] && m.name in e.annotations
    ensures Get(AllAnnotationsUpTo(e, n), m).Some? ==> Get(AllAnnotationsUpTo(e, n), m) == Some(e.annotations[m.name])
  {
    if n > 0 {
      AllAnnotationsUpToEntries(e, n - 1, m);
      var x := e.members[n - 1];
      var prev := AllAnnotationsUpTo(e, n - 1);
      assert e.members[..n] == e.members[..n - 1] + [x];
      if x.name in e.annotations {
        AllAnnotationsUpToMembers(e, n - 1);
        FreshMember(e, n - 1, prev);
        GetPut(prev, x, e.annotations[x.name], m);
      }
    }
  }

  /** Every entry of the table built from the first `n` members is one of them. */
  lemma {:induction false} AllAnnotationsUpToMembers(e: EnumClass, n: nat)
    requires n <= |e.members|
    ensures forall p :: p in AllAnnotationsUpTo(e, n) ==> p.0 in e.members[..n]
  {
    if n > 0 {
      AllAnnotationsUpToMembers(e, n - 1);
      assert e.members[..n] == e.members[..n - 1] + [e.members[n - 1]];
    }
  }

  lemma AllAnnotationsEntries(e: EnumClass, m: Member)
    requires ValidEnum(e)
    ensures Get(AllAnnotations(e), m).Some? <==> m in e.members && m.name in e.annotations
    ensures Get(AllAnnotations(e), m).Some? ==> Get(AllAnnotations(e), m) == Some(e.annotations[m.name])
  {
    AllAnnotationsUpToEntries(e, |e.members|, m);
    assert e.members[..|e.members|] == e.members;
  }

  /** A table whose entries all belong to the first `n` members has no
      entry for member `n`. */
  lemma FreshMember(e: EnumClass, n: nat, t: seq<(Member, AnnotatedConfigData)>)
    requires ValidEnum(e) && n < |e.members|
    requires forall p :: p in t ==> p.0 in e.members[..n]
    ensures e.members[n] !in Keys(t)
  {
    forall i | 0 <= i < |t| ensures Keys(t)[i] != e.members[n] {
      assert t[i] in t;
      assert forall j :: 0 <= j < n ==> e.members[..n][j] != e.members[n];
    }
  }
}
