/** The value-level model of one request: its arguments dictionary and the rules that edit and render it. */
module RequestModel {
  import opened Base

  /** What the class-expression library accepts: a class id, or an expression that library already built
      (known here only by an opaque handle). */
  datatype ClassExpr = ClassId(id: string) | Built(handle: nat)

  /** The library's `structure()` of an expression, kept opaque: which constructor was used on what. */
  datatype ExprStructure =
    | Plain(expr: ClassExpr)                                // new class_expression(x)
    | SomeValuesFrom(filler: ClassExpr, property: string)  // as_svf(x, property)
    | SetExpression(kind: string, members: seq<ClassExpr>) // as_set(kind, list)

  /** An element of a list-valued argument: an annotation pair or an expression structure. */
  datatype Item = Annotation(key: string, value: string) | Expression(structure: ExprStructure)

  /** A value stored in the arguments dictionary: a string or a list. */
  datatype ArgValue = Str(s: string) | List(items: seq<Item>)

  /** The `vals` given to `add_annotation`: a string, an array of strings, or anything else
      (`truthy` records the JavaScript truthiness of that other value). */
  datatype AnnotationArg = Text(s: string) | Texts(ss: seq<string>) | Other(truthy: bool)

  type Arguments = map<string, ArgValue>

  /** The observable state of a request: entity, operation, its variable and its arguments. */
  datatype RequestValue = RequestValue(entity: string, operation: string, id: string, explicit: bool,
                                       arguments: Arguments)

  /** What `objectify` returns. */
  datatype Rendered = Rendered(entity: string, operation: string, arguments: Arguments)

  predicate ClassTruthy(c: Option<ClassExpr>) {
    c.Some? && (c.value.ClassId? ==> c.value.id != "")
  }

  predicate ArgTruthy(a: AnnotationArg) {
    match a
    case Text(s) => s != ""
    case Texts(_) => true
    case Other(t) => t
  }

  /** JavaScript truthiness of a stored value: only the empty string is falsy (arrays are truthy). */
  predicate ValueTruthy(v: ArgValue) {
    v != Str("")
  }

  /** Lists are only ever stored under "values" and "expressions"; every other key holds a string. */
  predicate WellFormed(args: Arguments) {
    forall k :: k in args && args[k].List? ==> k == "values" || k == "expressions"
  }

  /** `_get(key)`: the stored value, or null. */
  function Lookup(args: Arguments, key: string): Option<ArgValue> {
    if key in args then Some(args[key]) else None
  }

  /** `_get(key)` for a key that holds strings. */
  function StrAt(args: Arguments, key: string): (r: Option<string>)
    requires WellFormed(args) && key != "values" && key != "expressions"
    ensures r.Some? <==> key in args
    ensures r.Some? ==> args[key] == Str(r.value)
  {
    if key in args then Some(args[key].s) else None
  }

  /** Whether `model()` is truthy. */
  predicate HasModel(args: Arguments) {
    "model-id" in args && ValueTruthy(args["model-id"])
  }

  /** The write half of `_get_set(key, v)`: only a truthy `v` is stored. */
  function Put(args: Arguments, key: string, v: Option<string>): (r: Arguments)
    ensures Truthy(v) ==> key in r && r[key] == Str(v.value)
    ensures forall k :: k != key ==> Lookup(r, k) == Lookup(args, k)
    ensures !Truthy(v) ==> r == args
    ensures WellFormed(args) ==> WellFormed(r)
  {
    if Truthy(v) then args[key := Str(v.value)] else args
  }

  /** `_ensure_list(key)` followed by pushing `items` one by one, and the length read afterwards.
      A string already under `key` is kept; pushing onto it throws, but with nothing to push its
      length is returned. */
  function Push(args: Arguments, key: string, items: seq<Item>): Result<(Arguments, nat)> {
    var start := if key !in args || !ValueTruthy(args[key]) then List([]) else args[key];
    match start
    case List(xs) => Ok((args[key := List(xs + items)], |xs| + |items|))
    case Str(s) => if items == [] then Ok((args, |s|)) else Err(PushOntoNonList)
  }

  /** The list `key` holds before a push: nothing when absent or falsy. */
  function ListAt(args: Arguments, key: string): seq<Item> {
    if key in args && args[key].List? then args[key].items else []
  }

  /** Pushing onto a list slot appends in order after what is there and counts the whole list;
      no other slot changes. */
  lemma {:induction false} PushAppends(args: Arguments, key: string, items: seq<Item>)
    requires key !in args || args[key].List? || args[key] == Str("")
    ensures Push(args, key, items).Ok?
    ensures var (a, n) := Push(args, key, items).value;
      && key in a && a[key] == List(ListAt(args, key) + items)
      && n == |ListAt(args, key)| + |items|
      && forall k :: k != key ==> Lookup(a, k) == Lookup(args, k)
  {
    if key in args && args[key].List? {
      assert ValueTruthy(args[key]);
    }
  }

  /** The annotation pairs `{key, value}` for each value in order. */
  function Pairs(key: string, vals: seq<string>): (items: seq<Item>)
    ensures |items| == |vals|
    ensures forall i :: 0 <= i < |vals| ==> items[i] == Annotation(key, vals[i])
  {
    if vals == [] then [] else [Annotation(key, vals[0])] + Pairs(key, vals[1..])
  }

  /** The values `add_annotation` turns into pairs: a string becomes a one-element list. */
  function Normalized(vals: AnnotationArg): seq<string>
    requires !vals.Other?
  {
    if vals.Text? then [vals.s] else vals.ss
  }

  /** `add_annotation(key, vals)` on an arguments dictionary: the new dictionary and the count returned. */
  function Annotate(args: Arguments, key: string, vals: AnnotationArg): Result<(Arguments, nat)> {
    if vals.Other? then Err(UnknownArgument) else Push(args, "values", Pairs(key, Normalized(vals)))
  }

  /** `add_annotation` fails exactly when the values are neither string nor array, or when there is
      something to push onto a "values" slot holding a non-empty string; otherwise it appends one pair
      per value after the existing pairs and returns the previous count plus the number of values. */
  lemma AnnotateSpec(args: Arguments, key: string, vals: AnnotationArg)
    ensures Annotate(args, key, vals).Err? <==>
      vals.Other? || ("values" in args && args["values"].Str? && args["values"] != Str("") && Normalized(vals) != [])
    ensures !vals.Other? && ("values" !in args || args["values"].List? || args["values"] == Str("")) ==>
      var (a, n) := Annotate(args, key, vals).value;
      && a["values"] == List(ListAt(args, "values") + Pairs(key, Normalized(vals)))
      && n == |ListAt(args, "values")| + |Normalized(vals)|
      && forall k :: k != "values" ==> Lookup(a, k) == Lookup(args, k)
  {
    if !vals.Other? && ("values" !in args || args["values"].List? || args["values"] == Str("")) {
      PushAppends(args, "values", Pairs(key, Normalized(vals)));
    }
  }

  /** `individual(id)`: a truthy id becomes the explicit variable value and the "individual" argument. */
  function WithIndividual(rv: RequestValue, id: Option<string>): (r: RequestValue)
    ensures Truthy(id) ==> r.id == id.value && r.explicit && r.arguments == rv.arguments["individual" := Str(id.value)]
    ensures !Truthy(id) ==> r == rv
    ensures r.entity == rv.entity && r.operation == rv.operation
  {
    if Truthy(id) then rv.(id := id.value, explicit := true, arguments := rv.arguments["individual" := Str(id.value)])
    else rv
  }

  /** Whether `objectify` binds the request's generated id: an individual request never set explicitly. */
  predicate Binds(rv: RequestValue) {
    rv.entity == "individual" && !rv.explicit
  }

  /** `objectify`'s effect on the arguments: an implicitly identified individual request gets
      "assign-to-variable" equal to its generated id; any other request is left as it is. */
  function Objectified(rv: RequestValue): (r: RequestValue)
    ensures r.entity == rv.entity && r.operation == rv.operation && r.id == rv.id && r.explicit == rv.explicit
    ensures Binds(rv) ==> Lookup(r.arguments, "assign-to-variable") == Some(Str(rv.id))
    ensures !Binds(rv) ==> r == rv
    ensures forall k :: k != "assign-to-variable" ==> Lookup(r.arguments, k) == Lookup(rv.arguments, k)
  {
    if Binds(rv) then rv.(arguments := rv.arguments["assign-to-variable" := Str(rv.id)]) else rv
  }

  /** Objectifying twice gives what objectifying once gives. */
  lemma ObjectifiedIdempotent(rv: RequestValue)
    ensures Objectified(Objectified(rv)) == Objectified(rv)
  {
  }

  /** The record `objectify` returns. */
  function Render(rv: RequestValue): Rendered {
    Rendered(rv.entity, rv.operation, rv.arguments)
  }

  /** The back-fill `structure()` applies before rendering: a request without a truthy model id takes a
      truthy default; a request with one keeps it. */
  function Backfilled(rv: RequestValue, defaultModel: Option<string>): (r: RequestValue)
    ensures HasModel(rv.arguments) ==> r == rv
    ensures !HasModel(rv.arguments) && Truthy(defaultModel) ==> r.arguments == rv.arguments["model-id" := Str(defaultModel.value)]
    ensures !Truthy(defaultModel) ==> r == rv
    ensures r.entity == rv.entity && r.operation == rv.operation && r.id == rv.id && r.explicit == rv.explicit
  {
    if !HasModel(rv.arguments) && Truthy(defaultModel)
    then rv.(arguments := rv.arguments["model-id" := Str(defaultModel.value)])
    else rv
  }

  /** What `structure()` does to one request: back-fill, then objectify. */
  function Prepared(rv: RequestValue, defaultModel: Option<string>): RequestValue {
    Objectified(Backfilled(rv, defaultModel))
  }

  /** Preparing a request a second time changes nothing, so `structure()` may be called repeatedly. */
  lemma {:induction false} PreparedIdempotent(rv: RequestValue, defaultModel: Option<string>)
    ensures Prepared(Prepared(rv, defaultModel), defaultModel) == Prepared(rv, defaultModel)
  {
    var b := Backfilled(rv, defaultModel);
    var o := Objectified(b);
    assert Lookup(o.arguments, "model-id") == Lookup(b.arguments, "model-id");
    assert HasModel(o.arguments) == HasModel(b.arguments);
    if !HasModel(b.arguments) {
      assert !Truthy(defaultModel);
    }
    assert Backfilled(o, defaultModel) == o;
    ObjectifiedIdempotent(b);
  }
}
