/** `request`: one operation on one entity, with its arguments dictionary and implicit individual variable. */
module Requests {
  import opened Base
  import opened Ids
  import opened RequestVariables
  import opened RequestModel

  class Request {
    const entity: string
    const operation: string
    /** `_individual_id`: the implicit identity of the individual this request is about. */
    const variable: RequestVariable
    /** `_arguments`: the dictionary sent to the server, edited in place. */
    var arguments: Arguments

    ghost predicate Valid()
      reads this
    {
      WellFormed(arguments)
    }

    /** The request as a value. */
    function Value(): RequestValue
      reads this, variable
    {
      RequestValue(entity, operation, variable.val, variable.useVar, arguments)
    }

    /** `individual()` with no argument: the current identity, generated or explicit. */
    function IndividualId(): (id: string)
      reads variable
      ensures id == Value().id
    {
      variable.val
    }

    constructor (entity: string, operation: string, ids: IdSupply)
      requires ids.Valid()
      modifies ids
      ensures Valid() && ids.Valid() && fresh(variable)
      ensures Value() == RequestValue(entity, operation, variable.val, false, map[])
      ensures variable.val != "" && variable.val !in old(ids.issued)
      ensures ids.issued == old(ids.issued) + {variable.val}
    {
      this.entity := entity;
      this.operation := operation;
      variable := new RequestVariable(ids, None);
      arguments := map[];
    }

    /** `_get_set(key, v)`: store a truthy `v` under `key`, then read `key` back. */
    method GetSet(key: string, v: Option<string>) returns (r: Option<ArgValue>)
      requires Valid()
      modifies this
      ensures Valid()
      ensures arguments == Put(old(arguments), key, v)
      ensures r == Lookup(arguments, key)
    {
      if Truthy(v) {
        arguments := arguments[key := Str(v.value)];
      }
      r := Lookup(arguments, key);
    }

    /** `special(name, v)`: get or set an argument with no dedicated accessor. */
    method Special(name: string, v: Option<string>) returns (r: Option<ArgValue>)
      requires Valid()
      modifies this
      ensures Valid()
      ensures arguments == Put(old(arguments), name, v)
      ensures Truthy(v) ==> r == Some(Str(v.value))
      ensures !Truthy(v) ==> r == Lookup(old(arguments), name)
    {
      r := GetSet(name, v);
    }

    /** `subject(v)`. */
    method Subject(v: Option<string>) returns (r: Option<string>)
      requires Valid()
      modifies this
      ensures Valid()
      ensures arguments == Put(old(arguments), "subject", v)
      ensures r == StrAt(arguments, "subject")
      ensures Truthy(v) ==> r == v
    {
      var _ := GetSet("subject", v);
      r := StrAt(arguments, "subject");
    }

    /** `object(v)`. */
    method Object(v: Option<string>) returns (r: Option<string>)
      requires Valid()
      modifies this
      ensures Valid()
      ensures arguments == Put(old(arguments), "object", v)
      ensures r == StrAt(arguments, "object")
      ensures Truthy(v) ==> r == v
    {
      var _ := GetSet("object", v);
      r := StrAt(arguments, "object");
    }

    /** `predicate(v)`. */
    method Predicate(v: Option<string>) returns (r: Option<string>)
      requires Valid()
      modifies this
      ensures Valid()
      ensures arguments == Put(old(arguments), "predicate", v)
      ensures r == StrAt(arguments, "predicate")
      ensures Truthy(v) ==> r == v
    {
      var _ := GetSet("predicate", v);
      r := StrAt(arguments, "predicate");
    }

    /** `model(v)`: the "model-id" argument. */
    method Model(v: Option<string>) returns (r: Option<string>)
      requires Valid()
      modifies this
      ensures Valid()
      ensures arguments == Put(old(arguments), "model-id", v)
      ensures r == StrAt(arguments, "model-id")
      ensures Truthy(v) ==> r == v
    {
      var _ := GetSet("model-id", v);
      r := StrAt(arguments, "model-id");
    }

    /** `individual(id)`: a truthy id sets the variable explicitly and the "individual" argument;
        the identity in force is returned either way. */
    method Individual(id: Option<string>) returns (r: string)
      requires Valid()
      modifies this, variable
      ensures Valid()
      ensures Value() == WithIndividual(old(Value()), id)
      ensures r == IndividualId()
      ensures Truthy(id) ==> r == id.value && variable.IsSet()
    {
      if Truthy(id) {
        var _ := variable.Value(id);
        arguments := arguments["individual" := Str(id.value)];
      }
      r := variable.val;
    }

    /** `fact(sub, obj, pred)`: subject, object and predicate in one call. */
    method Fact(sub: Option<string>, obj: Option<string>, pred: Option<string>)
      requires Valid()
      modifies this
      ensures Valid()
      ensures arguments == Put(Put(Put(old(arguments), "subject", sub), "object", obj), "predicate", pred)
    {
      var _ := Subject(sub);
      var _ := Object(obj);
      var _ := Predicate(pred);
    }

    /** `add_annotation(key, vals)`: normalise, make sure "values" is a list, push one pair per value. */
    method AddAnnotation(key: string, vals: AnnotationArg) returns (r: Result<nat>)
      requires Valid()
      modifies this
      ensures Valid()
      ensures match Annotate(old(arguments), key, vals)
        case Err(e) => r == Err(e) && arguments == old(arguments)
        case Ok(an) => r == Ok(an.1) && arguments == an.0
    {
      var list: seq<string>;
      match vals {
        case Other(_) => return Err(UnknownArgument);
        case Text(s) => list := [s];
        case Texts(ss) => list := ss;
      }
      assert list == Normalized(vals);
      if "values" !in arguments || !ValueTruthy(arguments["values"]) {
        arguments := arguments["values" := List([])];
      }
      ghost var start := arguments;
      ghost var pairs := Pairs(key, list);
      match arguments["values"] {
        case Str(s) =>
          if |list| > 0 {
            return Err(PushOntoNonList);
          }
          r := Ok(|s|);
        case List(base) =>
          r := PushPairs(key, list);
          assert arguments == start["values" := List(base + pairs)];
      }
    }

    /** The `push` loop of `add_annotation`: one (key, value) pair per value, in order, after the pairs
        already under "values"; returns the new count. */
    method PushPairs(key: string, list: seq<string>) returns (r: Result<nat>)
      requires Valid() && "values" in arguments && arguments["values"].List?
      modifies this
      ensures Valid()
      ensures arguments == old(arguments)["values" := List(old(arguments)["values"].items + Pairs(key, list))]
      ensures r == Ok(|old(arguments)["values"].items| + |list|)
    {
      ghost var start := arguments;
      ghost var pairs := Pairs(key, list);
      var xs := arguments["values"].items;
      ghost var base := xs;
      var i := 0;
      assert start["values" := List(base)] == start;
      while i < |list|
        invariant 0 <= i <= |list|
        invariant xs == base + pairs[..i]
        invariant arguments == start["values" := List(xs)]
      {
        assert pairs[..i + 1] == pairs[..i] + [Annotation(key, list[i])];
        xs := xs + [Annotation(key, list[i])];
        arguments := arguments["values" := List(xs)];
        i := i + 1;
      }
      assert pairs[..i] == pairs;
      r := Ok(|xs|);
    }

    /** `_ensure_list('expressions')` and one push of an expression structure. */
    method PushExpression(e: ExprStructure) returns (r: Result<nat>)
      requires Valid()
      modifies this
      ensures Valid()
      ensures match Push(old(arguments), "expressions", [Expression(e)])
        case Err(err) => r == Err(err) && arguments == old(arguments)
        case Ok(an) => r == Ok(an.1) && arguments == an.0
    {
      if "expressions" !in arguments || !ValueTruthy(arguments["expressions"]) {
        arguments := arguments["expressions" := List([])];
      }
      match arguments["expressions"] {
        case Str(_) =>
          return Err(PushOntoNonList);
        case List(xs) =>
          arguments := arguments["expressions" := List(xs + [Expression(e)])];
          r := Ok(|xs| + 1);
      }
    }

    /** `add_class_expression(c)`. */
    method AddClassExpression(c: ClassExpr) returns (r: Result<nat>)
      requires Valid()
      modifies this
      ensures Valid()
      ensures match Push(old(arguments), "expressions", [Expression(Plain(c))])
        case Err(err) => r == Err(err) && arguments == old(arguments)
        case Ok(an) => r == Ok(an.1) && arguments == an.0
    {
      r := PushExpression(Plain(c));
    }

    /** `add_svf_expression(c, property)`. */
    method AddSvfExpression(c: ClassExpr, property: string) returns (r: Result<nat>)
      requires Valid()
      modifies this
      ensures Valid()
      ensures match Push(old(arguments), "expressions", [Expression(SomeValuesFrom(c, property))])
        case Err(err) => r == Err(err) && arguments == old(arguments)
        case Ok(an) => r == Ok(an.1) && arguments == an.0
    {
      r := PushExpression(SomeValuesFrom(c, property));
    }

    /** `add_set_class_expression(kind, list)`. */
    method AddSetClassExpression(kind: string, members: seq<ClassExpr>) returns (r: Result<nat>)
      requires Valid()
      modifies this
      ensures Valid()
      ensures match Push(old(arguments), "expressions", [Expression(SetExpression(kind, members))])
        case Err(err) => r == Err(err) && arguments == old(arguments)
        case Ok(an) => r == Ok(an.1) && arguments == an.0
    {
      r := PushExpression(SetExpression(kind, members));
    }

    /** `annotations()`: the raw "values" slot. */
    function Annotations(): (r: Option<ArgValue>)
      reads this
      ensures r.Some? <==> "values" in arguments
      ensures r.Some? ==> r.value == arguments["values"]
    {
      Lookup(arguments, "values")
    }

    /** `expressions()`: the raw "expressions" slot. */
    function Expressions(): (r: Option<ArgValue>)
      reads this
      ensures r.Some? <==> "expressions" in arguments
      ensures r.Some? ==> r.value == arguments["expressions"]
    {
      Lookup(arguments, "expressions")
    }

    /** `objectify()`: writes "assign-to-variable" into the live dictionary when the request is an
        individual request with a generated id, then returns entity, operation and arguments. */
    method Objectify() returns (o: Rendered)
      requires Valid()
      modifies this
      ensures Valid()
      ensures Value() == Objectified(old(Value()))
      ensures o == Render(Value())
    {
      if entity == "individual" && !variable.IsSet() {
        arguments := arguments["assign-to-variable" := Str(variable.val)];
      }
      o := Rendered(entity, operation, arguments);
    }

    /** One step of `structure()`: when `model()` is falsy and a default exists, set it; then objectify. */
    method Prepare(defaultModel: Option<string>) returns (o: Rendered)
      requires Valid()
      modifies this
      ensures Valid()
      ensures Value() == Prepared(old(Value()), defaultModel)
      ensures o == Render(Value())
    {
      ghost var start := Value();
      var m := Model(None);
      if !Truthy(m) && Truthy(defaultModel) {
        var _ := Model(defaultModel);
      }
      assert Value() == Backfilled(start, defaultModel);
      o := Objectify();
    }
  }

  /** The values of a sequence of requests, in order. */
  ghost function Values(rs: seq<Request>): (vs: seq<RequestValue>)
    reads rs, set r | r in rs :: r.variable
    ensures |vs| == |rs|
    ensures forall i :: 0 <= i < |rs| ==> vs[i] == rs[i].Value()
  {
    seq(|rs|, i requires 0 <= i < |rs| reads rs, set r | r in rs :: r.variable => rs[i].Value())
  }
}
