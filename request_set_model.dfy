/** The value-level model of a request set: the intention aggregate, the lookbacks, the requests each
    builder enqueues and what `structure()` does to the queue. */
module RequestSetModel {
  import opened Base
  import opened RequestModel

  /** Whether the batch is to be broadcast to other clients of the model ('action') or not ('query'). */
  datatype Intention = Query | Action

  /** An `add` hint that raises the intention: none at all (a custom request) or 'action'. */
  predicate ForcesAction(hint: Option<string>) {
    !Truthy(hint) || hint.value == "action"
  }

  /** The intention after one `add(req, hint)`: 'query' and unknown hints never lower it. */
  function NextIntention(current: Intention, hint: Option<string>): (r: Intention)
    ensures r == Action <==> current == Action || ForcesAction(hint)
  {
    if ForcesAction(hint) then Action else current
  }

  /** The intention after a sequence of `add` calls. */
  function IntentionAfter(start: Intention, hints: seq<Option<string>>): Intention
    decreases |hints|
  {
    if hints == [] then start
    else NextIntention(IntentionAfter(start, hints[..|hints| - 1]), hints[|hints| - 1])
  }

  /** The intention of a batch is 'action' exactly when it started so or some `add` forced it:
      once 'action', it never returns to 'query'. */
  lemma {:induction false} ActionIsSticky(start: Intention, hints: seq<Option<string>>)
    ensures IntentionAfter(start, hints) == Action <==>
      start == Action || exists i :: 0 <= i < |hints| && ForcesAction(hints[i])
  {
    if hints != [] {
      var init := hints[..|hints| - 1];
      ActionIsSticky(start, init);
      if exists i :: 0 <= i < |init| && ForcesAction(init[i]) {
        var i :| 0 <= i < |init| && ForcesAction(init[i]);
        assert hints[i] == init[i];
      }
      if exists i :: 0 <= i < |hints| && ForcesAction(hints[i]) {
        var i :| 0 <= i < |hints| && ForcesAction(hints[i]);
        if i < |init| {
          assert ForcesAction(init[i]);
        }
      }
    }
  }

  /** The backwards scan of `last_individual_id` and `last_fact_triple`: from the most recent request,
      skip `skip` requests of `entity`, and take the next one. */
  function Lookback(rs: seq<RequestValue>, entity: string, skip: int): (r: Option<RequestValue>)
    ensures r.Some? ==> r.value in rs && r.value.entity == entity
    decreases |rs|
  {
    if rs == [] then None
    else if rs[|rs| - 1].entity == entity then
      if skip > 0 then Lookback(rs[..|rs| - 1], entity, skip - 1) else Some(rs[|rs| - 1])
    else Lookback(rs[..|rs| - 1], entity, skip)
  }

  /** The requests of `entity`, in queue order. */
  function Matching(rs: seq<RequestValue>, entity: string): (m: seq<RequestValue>)
    ensures |m| <= |rs|
    ensures forall v :: v in m ==> v in rs && v.entity == entity
    decreases |rs|
  {
    if rs == [] then []
    else Matching(rs[..|rs| - 1], entity) + (if rs[|rs| - 1].entity == entity then [rs[|rs| - 1]] else [])
  }

  /** The lookback returns the (k+1)-th most recent request of `entity`, where k is the skip count
      (a count that is not positive skips nothing), and nothing when there are at most k of them. */
  lemma {:induction false} LookbackIsKthFromEnd(rs: seq<RequestValue>, entity: string, skip: int)
    ensures var m := Matching(rs, entity);
      var k := if skip > 0 then skip else 0;
      Lookback(rs, entity, skip) == if k < |m| then Some(m[|m| - 1 - k]) else None
    decreases |rs|
  {
    if rs != [] {
      var init := rs[..|rs| - 1];
      var last := rs[|rs| - 1];
      var mi := Matching(init, entity);
      if last.entity == entity {
        assert Matching(rs, entity) == mi + [last];
        if skip > 0 {
          LookbackIsKthFromEnd(init, entity, skip - 1);
        }
      } else {
        assert Matching(rs, entity) == mi;
        LookbackIsKthFromEnd(init, entity, skip);
      }
    }
  }

  /** `last_individual_id(skip)` on the queue: the identity of the chosen 'individual' request. */
  function LastIndividual(rs: seq<RequestValue>, skip: int): Option<string> {
    match Lookback(rs, "individual", skip)
    case None => None
    case Some(v) => Some(v.id)
  }

  /** The individual of a request just enqueued is the first one the lookback finds, and skipping
      one more passes over it to the earlier ones. */
  lemma LastIndividualOfAppended(rs: seq<RequestValue>, v: RequestValue, skip: nat)
    requires v.entity == "individual"
    ensures LastIndividual(rs + [v], 0) == Some(v.id)
    ensures LastIndividual(rs + [v], skip + 1) == LastIndividual(rs, skip)
  {
    assert (rs + [v])[..|rs|] == rs;
  }

  /** `[subject, object, predicate]` as read back from an edge request. */
  datatype Triple = Triple(sub: Option<string>, obj: Option<string>, pred: Option<string>)

  /** `_ensure_fact` accepts a triple whose three components are all truthy. */
  predicate ProperFact(t: Option<Triple>) {
    t.Some? && Truthy(t.value.sub) && Truthy(t.value.obj) && Truthy(t.value.pred)
  }

  predicate AllWellFormed(rs: seq<RequestValue>) {
    forall v :: v in rs ==> WellFormed(v.arguments)
  }

  /** The subject, object and predicate arguments of a request. */
  function TripleOf(args: Arguments): (t: Triple)
    requires WellFormed(args)
    ensures t.sub.Some? <==> "subject" in args
    ensures t.obj.Some? <==> "object" in args
    ensures t.pred.Some? <==> "predicate" in args
  {
    Triple(StrAt(args, "subject"), StrAt(args, "object"), StrAt(args, "predicate"))
  }

  /** `last_fact_triple(skip)` on the queue: the triple of the chosen 'edge' request. */
  function LastFact(rs: seq<RequestValue>, skip: int): Option<Triple>
    requires AllWellFormed(rs)
  {
    match Lookback(rs, "edge", skip)
    case None => None
    case Some(v) => Some(TripleOf(v.arguments))
  }

  /** The arguments of an edge request built from a proper fact hold exactly that fact. */
  function FactArgs(args: Arguments, t: Triple): (r: Arguments)
    requires ProperFact(Some(t))
    ensures WellFormed(args) ==> WellFormed(r) && TripleOf(r) == t
  {
    args["subject" := Str(t.sub.value)]["object" := Str(t.obj.value)]["predicate" := Str(t.pred.value)]
  }

  /** `_ensure_fact` passes exactly the triples that `fact(s, o, p)` stores whole: on a request holding no
      fact yet, writing the triple stores all three components exactly when the triple is proper, and a
      proper triple then reads back unchanged. */
  lemma ProperFactStoresWhole(args: Arguments, t: Triple)
    requires WellFormed(args) && "subject" !in args && "object" !in args && "predicate" !in args
    ensures var a := Put(Put(Put(args, "subject", t.sub), "object", t.obj), "predicate", t.pred);
      && (ProperFact(Some(t)) <==> "subject" in a && "object" in a && "predicate" in a)
      && (ProperFact(Some(t)) ==> TripleOf(a) == t)
  {
  }

  /** The fact last enqueued is the one the fact lookback finds first. */
  lemma LastFactOfAppended(rs: seq<RequestValue>, v: RequestValue, t: Triple)
    requires AllWellFormed(rs) && WellFormed(v.arguments) && ProperFact(Some(t))
    requires v.entity == "edge" && v.arguments == FactArgs(v.arguments, t)
    ensures AllWellFormed(rs + [v])
    ensures LastFact(rs + [v], 0) == Some(t)
  {
    assert (rs + [v])[..|rs|] == rs;
    assert TripleOf(FactArgs(v.arguments, t)) == t;
  }

  /** A request a builder enqueues, with its generated id left open: `explicitId` is the id set with
      `individual(id)`, or none when the generated id is kept. */
  datatype Expected = Expected(entity: string, operation: string, explicitId: Option<string>, arguments: Arguments)

  predicate Matches(v: RequestValue, x: Expected) {
    && v.entity == x.entity
    && v.operation == x.operation
    && v.arguments == x.arguments
    && (if x.explicitId.Some? then v.explicit && v.id == x.explicitId.value else !v.explicit)
  }

  /** `after` is `before` with requests matching `xs` appended, in order. */
  predicate Enqueued(before: seq<RequestValue>, after: seq<RequestValue>, xs: seq<Expected>) {
    && |after| == |before| + |xs|
    && after[..|before|] == before
    && forall i :: 0 <= i < |xs| ==> Matches(after[|before| + i], xs[i])
  }

  /** Enqueuing `xs` and then `ys` enqueues `xs + ys`. */
  lemma {:induction false} EnqueuedConcat(a: seq<RequestValue>, b: seq<RequestValue>, c: seq<RequestValue>,
                                          xs: seq<Expected>, ys: seq<Expected>)
    requires Enqueued(a, b, xs) && Enqueued(b, c, ys)
    ensures Enqueued(a, c, xs + ys)
  {
    assert c[..|a|] == c[..|b|][..|a|];
    forall i | 0 <= i < |xs| + |ys|
      ensures Matches(c[|a| + i], (xs + ys)[i])
    {
      if i < |xs| {
        assert c[|a| + i] == c[..|b|][|a| + i];
      } else {
        assert c[|a| + i] == c[|b| + (i - |xs|)];
      }
    }
  }

  /** Appending one matching request enqueues it. */
  lemma EnqueuedOne(before: seq<RequestValue>, v: RequestValue, x: Expected)
    requires Matches(v, x)
    ensures Enqueued(before, before + [v], [x])
  {
    assert (before + [v])[..|before|] == before;
  }

  /** The arguments of a new request: "model-id" when a truthy model id is given. */
  function ModelArgs(mid: Option<string>): (args: Arguments)
    ensures forall k :: k in args ==> k == "model-id"
    ensures WellFormed(args)
  {
    Put(map[], "model-id", mid)
  }

  /** Pushing onto a key a request does not have yet stores exactly the pushed items. */
  lemma PushOntoAbsent(args: Arguments, key: string, items: seq<Item>)
    requires key !in args
    ensures Push(args, key, items) == Ok((args[key := List(items)], |items|))
  {
    assert [] + items == items;
  }

  /** Arguments after `individual(id)` with a truthy id. */
  function Addressed(args: Arguments, id: string): Arguments {
    args["individual" := Str(id)]
  }

  /** Arguments of a new request after one `add_*_expression`. */
  function WithExpression(args: Arguments, e: ExprStructure): Arguments {
    args["expressions" := List([Expression(e)])]
  }

  /** Arguments of a new request after `add_annotation(key, vals)`. */
  function WithAnnotations(args: Arguments, key: string, vals: seq<string>): Arguments {
    args["values" := List(Pairs(key, vals))]
  }

  /** `add_model`'s request: optional "class-id" and "taxon-id", no model id. */
  function NewModelArgs(classId: Option<string>, taxonId: Option<string>): Arguments {
    Put(Put(map[], "class-id", classId), "taxon-id", taxonId)
  }

  /** The operations `_op_type_to_individual` and `_op_annotation_to_target` accept: 'add' and 'remove'. */
  predicate KnownOp(op: Option<string>) {
    op == Some("add") || op == Some("remove")
  }

  predicate KnownAnnotationTarget(target: string) {
    target == "model" || target == "individual" || target == "edge"
  }

  /** The outcome of `_op_annotation_to_target`: the first check that throws, in source order. */
  function AnnotationOutcome(op: Option<string>, target: string, triple: Option<Triple>, key: Option<string>,
                             value: AnnotationArg): Outcome
  {
    if !KnownOp(op) then Failed(UnknownAnnotationOperation)
    else if target == "edge" && !ProperFact(triple) then Failed(ImproperFact)
    else if !KnownAnnotationTarget(target) then Failed(UnknownAnnotationTarget)
    else if Truthy(key) && ArgTruthy(value) && value.Other? then Failed(UnknownArgument)
    else Done
  }

  /** Whether `_op_annotation_to_target` enqueues its request: nothing throws and key and value are truthy. */
  predicate AnnotationEnqueues(op: Option<string>, target: string, triple: Option<Triple>, key: Option<string>,
                               value: AnnotationArg)
  {
    AnnotationOutcome(op, target, triple, key, value) == Done && Truthy(key) && ArgTruthy(value)
  }

  /** The arguments that identify an annotation's target: none for the model, the individual when its id
      is truthy, the triple of a fact. */
  function AnnotationTargetArgs(target: string, individualId: Option<string>, triple: Option<Triple>,
                                mid: Option<string>): (args: Arguments)
    requires target == "edge" ==> ProperFact(triple)
    ensures "values" !in args && WellFormed(args)
  {
    var base := ModelArgs(mid);
    if target == "individual" then Put(base, "individual", individualId)
    else if target == "edge" then FactArgs(base, triple.value)
    else base
  }

  /** The request `_op_annotation_to_target` builds before its annotation is added. */
  function AnnotationTarget(op: Option<string>, target: string, individualId: Option<string>, triple: Option<Triple>,
                            mid: Option<string>): Expected
    requires KnownOp(op) && KnownAnnotationTarget(target) && (target == "edge" ==> ProperFact(triple))
  {
    var explicitId := if target == "individual" && Truthy(individualId) then individualId else None;
    Expected(target, op.value + "-annotation", explicitId, AnnotationTargetArgs(target, individualId, triple, mid))
  }

  /** The request `_op_annotation_to_target` enqueues. */
  function AnnotationRequest(op: Option<string>, target: string, individualId: Option<string>, triple: Option<Triple>,
                             key: Option<string>, value: AnnotationArg, mid: Option<string>): Expected
    requires AnnotationEnqueues(op, target, triple, key, value)
  {
    var t := AnnotationTarget(op, target, individualId, triple, mid);
    t.(arguments := WithAnnotations(t.arguments, key.value, Normalized(value)))
  }
  /** `_op_annotation_to_target` in two stages: the checks on the target come first, then the check on
      the value, and the request is the targeted one with its annotation added. */
  lemma AnnotationStages(op: Option<string>, target: string, individualId: Option<string>, triple: Option<Triple>,
                         key: Option<string>, value: AnnotationArg, mid: Option<string>)
    ensures var first := AnnotationOutcome(op, target, triple, None, Other(false));
      AnnotationOutcome(op, target, triple, key, value)
        == if first != Done then first
           else if Truthy(key) && ArgTruthy(value) && value.Other? then Failed(UnknownArgument)
           else Done
    ensures AnnotationEnqueues(op, target, triple, key, value) ==>
      var t := AnnotationTarget(op, target, individualId, triple, mid);
      AnnotationRequest(op, target, individualId, triple, key, value, mid)
        == t.(arguments := WithAnnotations(t.arguments, key.value, Normalized(value)))
  {
  }

  /** What the request `_op_annotation_to_target` enqueues carries: it is an '<op>-annotation' request on
      the target entity, its "values" are one `{key, value}` pair per value in the order given, an
      individual target is named by its id, a fact's triple reads back unchanged, and the model id is
      there exactly when a truthy one was given. */
  lemma AnnotationReadsBack(op: Option<string>, target: string, individualId: Option<string>, triple: Option<Triple>,
                            key: Option<string>, value: AnnotationArg, mid: Option<string>)
    requires AnnotationEnqueues(op, target, triple, key, value)
    ensures var x := AnnotationRequest(op, target, individualId, triple, key, value, mid);
      && KnownAnnotationTarget(x.entity) && x.entity == target
      && x.operation == op.value + "-annotation"
      && WellFormed(x.arguments)
      && Lookup(x.arguments, "values") == Some(List(Pairs(key.value, Normalized(value))))
      && StrAt(x.arguments, "model-id") == (if Truthy(mid) then mid else None)
      && (target == "model" ==> x.explicitId == None && forall k :: k in x.arguments ==> k in {"model-id", "values"})
      && (target == "individual" ==>
            x.explicitId == (if Truthy(individualId) then individualId else None)
            && StrAt(x.arguments, "individual") == x.explicitId)
      && (target == "edge" ==> x.explicitId == None && TripleOf(x.arguments) == triple.value)
  {
  }

  /** The whole effect of `_op_annotation_to_target` on the queue and the intention. */
  predicate AnnotationEffect(before: seq<RequestValue>, after: seq<RequestValue>, i0: Intention, i1: Intention,
                             o: Outcome, op: Option<string>, target: string, individualId: Option<string>,
                             triple: Option<Triple>, key: Option<string>, value: AnnotationArg, mid: Option<string>)
  {
    && o == AnnotationOutcome(op, target, triple, key, value)
    && if AnnotationEnqueues(op, target, triple, key, value)
       then Enqueued(before, after, [AnnotationRequest(op, target, individualId, triple, key, value, mid)]) && i1 == Action
       else after == before && i1 == i0
  }

  /** What `_op_annotation_to_target` is given to identify its target. */
  datatype Target = NoTarget | IndividualTarget(id: string) | FactTarget(triple: Triple)

  predicate TargetTruthy(t: Target) {
    !t.NoTarget? && !(t.IndividualTarget? && t.id == "")
  }

  /** The outcome of `add_evidence` once evidence id and sources are truthy: the sources must be a string
      or an array, there must be a target, and a target that is not a string must be a proper fact. */
  function EvidenceOutcome(sources: AnnotationArg, target: Target): Outcome {
    if sources.Other? then Failed(UnknownArgument)
    else if !TargetTruthy(target) then Failed(NoEvidenceTarget)
    else if target.FactTarget? && !ProperFact(Some(target.triple)) then Failed(ImproperFact)
    else Done
  }

  /** `add_evidence`'s first request: the floating evidence individual, typed by the evidence class. */
  function EvidenceFloating(evidenceId: string, mid: Option<string>): Expected {
    Expected("individual", "add", None, WithExpression(ModelArgs(mid), Plain(ClassId(evidenceId))))
  }

  /** `add_evidence`'s second request: the sources, as 'source' annotations on the floating individual. */
  function EvidenceSources(floating: string, sources: seq<string>, mid: Option<string>): Expected {
    Expected("individual", "add-annotation", Some(floating),
             WithAnnotations(Addressed(ModelArgs(mid), floating), "source", sources))
  }

  /** `add_evidence`'s third request, for a target that passed its checks: an 'evidence' annotation on the
      target individual or the target fact, naming the floating individual. */
  function EvidenceLink(floating: string, target: Target, mid: Option<string>): Expected
    requires TargetTruthy(target) && (target.FactTarget? ==> ProperFact(Some(target.triple)))
  {
    if target.IndividualTarget? then
      Expected("individual", "add-annotation", Some(target.id),
               WithAnnotations(Addressed(ModelArgs(mid), target.id), "evidence", [floating]))
    else
      Expected("edge", "add-annotation", None,
               WithAnnotations(FactArgs(ModelArgs(mid), target.triple), "evidence", [floating]))
  }

  /** The requests `add_evidence` enqueues after the floating individual whose generated id is `floating`:
      none when the sources are neither string nor array, the sources alone when the target is missing or
      not a proper fact, and otherwise the sources and the link. */
  function EvidenceTail(floating: string, sources: AnnotationArg, target: Target, mid: Option<string>): seq<Expected> {
    if sources.Other? then []
    else if EvidenceOutcome(sources, target) != Done then [EvidenceSources(floating, Normalized(sources), mid)]
    else [EvidenceSources(floating, Normalized(sources), mid), EvidenceLink(floating, target, mid)]
  }

  /** When the target check fails, only the sources follow the floating individual. */
  lemma EvidenceTailFailed(before: seq<RequestValue>, after: seq<RequestValue>, floating: string,
                           sources: AnnotationArg, target: Target, mid: Option<string>)
    requires !sources.Other? && EvidenceOutcome(sources, target) != Done
    requires Enqueued(before, after, [EvidenceSources(floating, Normalized(sources), mid)])
    ensures Enqueued(before, after, EvidenceTail(floating, sources, target, mid))
  {
  }

  /** When the target check passes, the sources and then the link follow the floating individual. */
  lemma EvidenceTailDone(before: seq<RequestValue>, one: seq<RequestValue>, after: seq<RequestValue>,
                         floating: string, sources: AnnotationArg, target: Target, mid: Option<string>)
    requires !sources.Other? && EvidenceOutcome(sources, target) == Done
    requires Enqueued(before, one, [EvidenceSources(floating, Normalized(sources), mid)])
    requires Enqueued(one, after, [EvidenceLink(floating, target, mid)])
    ensures Enqueued(before, after, EvidenceTail(floating, sources, target, mid))
  {
    EnqueuedConcat(before, one, after, [EvidenceSources(floating, Normalized(sources), mid)],
                   [EvidenceLink(floating, target, mid)]);
    assert [EvidenceSources(floating, Normalized(sources), mid)] + [EvidenceLink(floating, target, mid)]
        == EvidenceTail(floating, sources, target, mid);
  }

  /** The whole effect of `add_evidence` on the queue and the intention. */
  predicate EvidenceEffect(before: seq<RequestValue>, after: seq<RequestValue>, i0: Intention, i1: Intention,
                           o: Outcome, evidenceId: Option<string>, sources: AnnotationArg, target: Target,
                           mid: Option<string>)
  {
    if !(Truthy(evidenceId) && ArgTruthy(sources)) then after == before && i1 == i0 && o == Done
    else
      && |after| > |before|
      && i1 == Action
      && o == EvidenceOutcome(sources, target)
      && Enqueued(before, after, [EvidenceFloating(evidenceId.value, mid)] +
                                 EvidenceTail(after[|before|].id, sources, target, mid))
  }

  /** A completed `add_evidence` enqueues exactly three requests: the floating individual, which keeps its
      generated id, its source annotations, addressed to that id, and a last request whose only annotation
      is ('evidence', that id). A missing target is only detected after two requests are enqueued. */
  lemma EvidenceLinksFloating(before: seq<RequestValue>, after: seq<RequestValue>, i0: Intention, i1: Intention,
                              o: Outcome, evidenceId: Option<string>, sources: AnnotationArg, target: Target,
                              mid: Option<string>)
    requires EvidenceEffect(before, after, i0, i1, o, evidenceId, sources, target, mid)
    requires Truthy(evidenceId) && ArgTruthy(sources)
    ensures o == Done ==> |after| == |before| + 3
    ensures o == Done ==> !after[|before|].explicit && after[|before| + 1].id == after[|before|].id
    ensures o == Done ==>
      Lookup(after[|before| + 2].arguments, "values") == Some(List([Annotation("evidence", after[|before|].id)]))
    ensures o == Failed(NoEvidenceTarget) ==> |after| == |before| + 2
  {
    var floating := after[|before|].id;
    var xs := [EvidenceFloating(evidenceId.value, mid)] + EvidenceTail(floating, sources, target, mid);
    if o == Done {
      assert Matches(after[|before|], xs[0]);
      assert Matches(after[|before| + 1], xs[1]);
      assert Matches(after[|before| + 2], xs[2]);
      assert Pairs("evidence", [floating]) == [Annotation("evidence", floating)];
      assert xs[2].arguments["values"] == List(Pairs("evidence", [floating]));
    }
  }

  /** `structure()`'s effect on the queue. */
  function PrepareAll(vs: seq<RequestValue>, defaultModel: Option<string>): (ps: seq<RequestValue>)
    ensures |ps| == |vs|
    ensures forall i :: 0 <= i < |vs| ==> ps[i] == Prepared(vs[i], defaultModel)
  {
    seq(|vs|, i requires 0 <= i < |vs| => Prepared(vs[i], defaultModel))
  }

  /** The request list `structure()` returns. */
  function RenderAll(vs: seq<RequestValue>): (rs: seq<Rendered>)
    ensures |rs| == |vs|
    ensures forall i :: 0 <= i < |vs| ==> rs[i] == Render(vs[i])
  {
    seq(|vs|, i requires 0 <= i < |vs| => Render(vs[i]))
  }

  /** What `structure()` returns. */
  datatype Structured = Structured(token: Option<string>, intention: Intention, requests: seq<Rendered>)

  /** What `callable()` returns: the request list in its encoded form. */
  datatype Encoded = Encoded(token: Option<string>, intention: Intention, requests: string)

  /** A second `structure()` finds nothing left to do. */
  lemma {:induction false} PrepareAllIdempotent(vs: seq<RequestValue>, defaultModel: Option<string>)
    ensures PrepareAll(PrepareAll(vs, defaultModel), defaultModel) == PrepareAll(vs, defaultModel)
  {
    forall i | 0 <= i < |vs|
      ensures Prepared(Prepared(vs[i], defaultModel), defaultModel) == Prepared(vs[i], defaultModel)
    {
      PreparedIdempotent(vs[i], defaultModel);
    }
  }

  /** After `structure()`, a request that had a model id keeps it, one without takes the default when
      there is one, and an implicitly identified individual request is bound to its generated id. */
  lemma StructureBackfills(vs: seq<RequestValue>, defaultModel: Option<string>, i: nat)
    requires i < |vs|
    ensures var p := PrepareAll(vs, defaultModel)[i];
      && (HasModel(vs[i].arguments) ==> Lookup(p.arguments, "model-id") == Lookup(vs[i].arguments, "model-id"))
      && (!HasModel(vs[i].arguments) && Truthy(defaultModel) ==>
            Lookup(p.arguments, "model-id") == Some(Str(defaultModel.value)))
      && (Binds(vs[i]) ==> Lookup(p.arguments, "assign-to-variable") == Some(Str(vs[i].id)))
      && p.entity == vs[i].entity && p.operation == vs[i].operation
  {
  }
}
