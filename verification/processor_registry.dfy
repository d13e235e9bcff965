/** The registry of audio processors: what may be registered, and what a chain item turns into. */
module ProcessorRegistries {
  import opened JsonValues
  import opened Wrappers

  datatype Choice = Choice(name: string, value: Json)

  datatype Parameter = Parameter(
    id: string, name: string, kind: string, default: Json,
    min: Option<real>, max: Option<real>, step: Option<real>, unit: string, choices: seq<Choice>)
  {
    predicate Numeric() { kind == "number" || kind == "integer" }
  }

  datatype Descriptor = Descriptor(
    kind: string, name: string, description: string, parameters: seq<Parameter>, hasFactory: bool)

  type Registry = map<string, Descriptor>

  // ---------- Values and registrations ----------

  predicate AtLeast(x: real, bound: Option<real>) {
    bound.Some? ==> bound.value <= x
  }

  predicate AtMost(x: real, bound: Option<real>) {
    bound.Some? ==> x <= bound.value
  }

  predicate ValidValue(p: Parameter, v: Json) {
    if p.Numeric() then
      && v.IsNumber() && AtLeast(v.Number(), p.min) && AtMost(v.Number(), p.max)
      && (p.kind == "integer" ==> v.Number().Floor as real == v.Number())
    else if p.kind == "boolean" then v.Bool?
    else if p.kind == "string" then v.Str?
    else p.kind == "enum" && exists i :: 0 <= i < |p.choices| && Same(p.choices[i].value, v)
  }

  predicate KnownKind(kind: string) {
    kind == "number" || kind == "integer" || kind == "boolean" || kind == "string" || kind == "enum"
  }

  predicate ConstraintsOk(p: Parameter) {
    && (p.min.Some? || p.max.Some? || p.step.Some? ==> p.Numeric())
    && (p.step.Some? ==> p.step.value > 0.0)
    && (p.min.Some? && p.max.Some? ==> p.min.value <= p.max.value)
  }

  predicate ChoicesOk(cs: seq<Choice>) {
    && (forall i :: 0 <= i < |cs| ==> !cs[i].value.Null? && cs[i].value.IsScalar())
    && (forall i, j :: 0 <= j < i < |cs| ==> !Same(cs[j].value, cs[i].value))
  }

  predicate ParameterOk(p: Parameter) {
    && p.id != "" && KnownKind(p.kind) && ConstraintsOk(p)
    && (if p.kind == "enum" then p.choices != [] && ChoicesOk(p.choices) else p.choices == [])
    && ValidValue(p, p.default)
  }

  predicate DistinctIds(ps: seq<Parameter>) {
    forall i, j :: 0 <= i < j < |ps| ==> ps[i].id != ps[j].id
  }

  predicate WellFormed(d: Descriptor) {
    && d.kind != "" && d.name != "" && d.hasFactory
    && (forall i :: 0 <= i < |d.parameters| ==> ParameterOk(d.parameters[i]))
    && DistinctIds(d.parameters)
  }

  predicate RegistryOk(r: Registry) {
    forall kind :: kind in r ==> WellFormed(r[kind]) && r[kind].kind == kind
  }

  // ---------- Creating a processor ----------

  /** The parameters a processor is built with: what is given, defaults for the rest. Nothing when
      one of them is invalid. */
  function Normalized(ps: seq<Parameter>, given: map<string, Json>, k: nat): (r: Option<map<string, Json>>)
    requires k <= |ps|
    ensures r.Some? ==> forall id :: id in r.value <==> exists i :: 0 <= i < k && ps[i].id == id
  {
    if k == 0 then Some(map[])
    else
      var before := Normalized(ps, given, k - 1);
      var p := ps[k - 1];
      var v := if p.id in given then given[p.id] else p.default;
      if before.None? || !ValidValue(p, v) then None else Some(before.value[p.id := v])
  }

  /** Creation fails on an unknown type, parameters that are no object, an invalid value, or a
      parameter the type does not have. */
  function CreateOf(r: Registry, kind: string, params: Json): Option<map<string, Json>> {
    if kind !in r || !params.Obj? then None
    else
      var n := Normalized(r[kind].parameters, params.fields, |r[kind].parameters|);
      if n.None? || !(params.fields.Keys <= n.value.Keys) then None else n
  }

  class ProcessorRegistry {
    var processors: Registry

    constructor ()
      ensures processors == map[] && Valid()
    {
      processors := map[];
    }

    predicate Valid()
      reads this
    {
      RegistryOk(processors)
    }

    method CheckValue(p: Parameter, v: Json) returns (valid: bool)
      ensures valid == (KnownKind(p.kind) && ValidValue(p, v))
    {
      valid := false;
      if p.Numeric() {
        if v.IsNumber() {
          var number := v.Number();
          valid := (p.min.None? || number >= p.min.value) && (p.max.None? || number <= p.max.value)
                   && (p.kind != "integer" || number.Floor as real == number);
        }
      } else if p.kind == "boolean" {
        valid := v.Bool?;
      } else if p.kind == "string" {
        valid := v.Str?;
      } else if p.kind == "enum" {
        for i := 0 to |p.choices|
          invariant valid == exists j :: 0 <= j < i && Same(p.choices[j].value, v)
        {
          if Same(p.choices[i].value, v) {
            valid := true;
          }
        }
      }
    }

    method CheckChoices(cs: seq<Choice>) returns (ok: bool)
      ensures ok == ChoicesOk(cs)
    {
      for i := 0 to |cs|
        invariant ChoicesOk(cs[..i])
      {
        if cs[i].value.Null? || !cs[i].value.IsScalar() {
          return false;
        }
        for j := 0 to i
          invariant forall h :: 0 <= h < j ==> !Same(cs[h].value, cs[i].value)
        {
          if Same(cs[j].value, cs[i].value) {
            return false;
          }
        }
      }
      assert cs[..|cs|] == cs;
      ok := true;
    }

    method CheckParameter(p: Parameter) returns (ok: bool)
      ensures ok == ParameterOk(p)
    {
      if p.id == "" || !KnownKind(p.kind) {
        return false;
      }
      if (p.min.Some? || p.max.Some? || p.step.Some?) && !p.Numeric() {
        return false;
      }
      if (p.step.Some? && p.step.value <= 0.0) || (p.min.Some? && p.max.Some? && p.min.value > p.max.value) {
        return false;
      }
      if p.kind == "enum" {
        if p.choices == [] {
          return false;
        }
        var choicesOk := CheckChoices(p.choices);
        if !choicesOk {
          return false;
        }
      } else if p.choices != [] {
        return false;
      }
      ok := CheckValue(p, p.default);
    }

    /** Only well-formed descriptors of a new type are taken; a refused one changes nothing. */
    method Register(d: Descriptor) returns (ok: bool)
      requires Valid()
      modifies this
      ensures Valid() && ok == (WellFormed(d) && d.kind !in old(processors))
      ensures processors == if ok then old(processors)[d.kind := d] else old(processors)
    {
      if d.kind == "" || d.name == "" || !d.hasFactory || d.kind in processors {
        return false;
      }
      var ids: set<string> := {};
      for i := 0 to |d.parameters|
        invariant processors == old(processors) && DistinctIds(d.parameters[..i])
        invariant forall id :: id in ids <==> exists j :: 0 <= j < i && d.parameters[j].id == id
        invariant forall j :: 0 <= j < i ==> ParameterOk(d.parameters[j])
      {
        var p := d.parameters[i];
        if p.id in ids {
          return false;
        }
        ids := ids + {p.id};
        var parameterOk := CheckParameter(p);
        if !parameterOk {
          return false;
        }
      }
      assert d.parameters[..|d.parameters|] == d.parameters;
      processors := processors[d.kind := d];
      ok := true;
    }

    method Create(kind: string, params: Json) returns (normalized: Option<map<string, Json>>)
      requires Valid()
      ensures normalized == CreateOf(processors, kind, params)
    {
      if kind !in processors || !params.Obj? {
        return None;
      }
      var d := processors[kind];
      var n: map<string, Json> := map[];
      for i := 0 to |d.parameters|
        invariant Normalized(d.parameters, params.fields, i) == Some(n)
      {
        var p := d.parameters[i];
        var v := if p.id in params.fields then params.fields[p.id] else p.default;
        var valid := CheckValue(p, v);
        if !valid {
          FailsForGood(d.parameters, params.fields, i + 1, |d.parameters|);
          return None;
        }
        n := n[p.id := v];
      }
      var keys := params.fields.Keys;
      while keys != {}
        invariant keys <= params.fields.Keys && params.fields.Keys - keys <= n.Keys
      {
        var key :| key in keys;
        if key !in n {
          return None;
        }
        keys := keys - {key};
      }
      normalized := Some(n);
    }

    /** The defaults that discovery reports for a type. */
    method Defaults(kind: string) returns (defaults: map<string, Json>)
      requires Valid() && kind in processors
      ensures Normalized(processors[kind].parameters, map[], |processors[kind].parameters|) == Some(defaults)
    {
      defaults := map[];
      var ps := processors[kind].parameters;
      assert WellFormed(processors[kind]);
      for i := 0 to |ps|
        invariant Normalized(ps, map[], i) == Some(defaults)
      {
        DefaultNext(ps, i, defaults);
        defaults := defaults[ps[i].id := ps[i].default];
      }
    }
  }

  lemma DefaultNext(ps: seq<Parameter>, i: nat, defaults: map<string, Json>)
    requires i < |ps| && ParameterOk(ps[i]) && Normalized(ps, map[], i) == Some(defaults)
    ensures Normalized(ps, map[], i + 1) == Some(defaults[ps[i].id := ps[i].default])
  {
  }

  lemma {:induction false} FailsForGood(ps: seq<Parameter>, given: map<string, Json>, i: nat, k: nat)
    requires i <= k <= |ps| && Normalized(ps, given, i).None?
    ensures Normalized(ps, given, k).None?
    decreases k
  {
    if i < k {
      FailsForGood(ps, given, i, k - 1);
    }
  }

  // ---------- Results ----------

  /** What a parameter ends up with. */
  predicate Chosen(p: Parameter, given: map<string, Json>, n: map<string, Json>) {
    p.id in n && n[p.id] == if p.id in given then given[p.id] else p.default
  }

  lemma {:induction false} NormalizedChooses(ps: seq<Parameter>, given: map<string, Json>, k: nat, i: nat)
    requires DistinctIds(ps) && i < k <= |ps| && Normalized(ps, given, k).Some?
    ensures Chosen(ps[i], given, Normalized(ps, given, k).value)
    ensures ValidValue(ps[i], Normalized(ps, given, k).value[ps[i].id])
  {
    if i < k - 1 {
      NormalizedChooses(ps, given, k - 1, i);
    }
  }

  lemma {:induction false} NormalizedSucceeds(ps: seq<Parameter>, given: map<string, Json>, k: nat)
    requires k <= |ps|
    requires forall i :: 0 <= i < k ==> ValidValue(ps[i], if ps[i].id in given then given[ps[i].id] else ps[i].default)
    ensures Normalized(ps, given, k).Some?
  {
    if k > 0 {
      NormalizedSucceeds(ps, given, k - 1);
    }
  }

  /** Creation succeeds exactly for an object whose members are parameters of the type with valid
      values, and then builds with exactly the type's parameters, each as given or its default. */
  lemma CreateMeans(r: Registry, kind: string, params: Json)
    requires RegistryOk(r) && kind in r && params.Obj?
    ensures CreateOf(r, kind, params).Some? <==>
      forall id :: id in params.fields ==>
        exists i :: 0 <= i < |r[kind].parameters| && r[kind].parameters[i].id == id && ValidValue(r[kind].parameters[i], params.fields[id])
    ensures CreateOf(r, kind, params).Some? ==> forall i :: 0 <= i < |r[kind].parameters| ==>
      Chosen(r[kind].parameters[i], params.fields, CreateOf(r, kind, params).value)
  {
    var ps := r[kind].parameters;
    var n := Normalized(ps, params.fields, |ps|);
    if CreateOf(r, kind, params).Some? {
      forall i | 0 <= i < |ps| ensures Chosen(ps[i], params.fields, n.value) && ValidValue(ps[i], n.value[ps[i].id]) {
        NormalizedChooses(ps, params.fields, |ps|, i);
      }
    } else if forall id :: id in params.fields ==>
        exists i :: 0 <= i < |ps| && ps[i].id == id && ValidValue(ps[i], params.fields[id]) {
      forall i | 0 <= i < |ps|
        ensures ValidValue(ps[i], if ps[i].id in params.fields then params.fields[ps[i].id] else ps[i].default)
      {
        if ps[i].id in params.fields {
          var j :| 0 <= j < |ps| && ps[j].id == ps[i].id && ValidValue(ps[j], params.fields[ps[i].id]);
          assert j == i;
        }
      }
      NormalizedSucceeds(ps, params.fields, |ps|);
    }
  }

  /** Creating again from its own normalized parameters gives the same. */
  lemma CreateIsIdempotent(r: Registry, kind: string, params: Json)
    requires RegistryOk(r) && CreateOf(r, kind, params).Some?
    ensures CreateOf(r, kind, Obj(CreateOf(r, kind, params).value)) == CreateOf(r, kind, params)
  {
    var ps := r[kind].parameters;
    var n := CreateOf(r, kind, params).value;
    forall i | 0 <= i < |ps| ensures ValidValue(ps[i], n[ps[i].id]) && ps[i].id in n {
      NormalizedChooses(ps, params.fields, |ps|, i);
    }
    NormalizedSucceeds(ps, n, |ps|);
    var m := Normalized(ps, n, |ps|).value;
    forall id | id in n ensures id in m && m[id] == n[id] {
      var i :| 0 <= i < |ps| && ps[i].id == id;
      NormalizedChooses(ps, n, |ps|, i);
    }
    assert forall id :: id in m ==> id in n;
    assert m == n;
  }

  /** Every registered type can be created from no parameters at all, and is then built with the
      defaults that discovery reports. */
  lemma DefaultsAreAccepted(r: Registry, kind: string)
    requires RegistryOk(r) && kind in r
    ensures CreateOf(r, kind, Obj(map[])) == Normalized(r[kind].parameters, map[], |r[kind].parameters|)
    ensures CreateOf(r, kind, Obj(map[])).Some?
  {
    NormalizedSucceeds(r[kind].parameters, map[], |r[kind].parameters|);
  }
}
