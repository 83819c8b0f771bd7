/** `request_set`: the ordered queue of requests of one batch, its intention, and the builders that
    validate their input and enqueue requests. */
module RequestSets {
  import opened Base
  import opened Ids
  import opened RequestModel
  import opened Requests
  import opened RequestSetModel

  class RequestSet {
    /** `_user_token`: a falsy token is kept as null. */
    const token: Option<string>
    /** `_model_id`: the default model id `structure()` back-fills, null when falsy. */
    const defaultModel: Option<string>
    /** Where the requests built here draw their generated ids. */
    const ids: IdSupply
    /** `_requests`, in the order they were added. */
    var requests: seq<Request>
    /** `_intention`. */
    var intention: Intention

    ghost predicate Valid()
      reads this, ids, requests, set r | r in requests :: r.variable
    {
      ids.Valid() && forall r :: r in requests ==> r.Valid() && Issued(r)
    }

    /** Since the previous state, the request objects queued before are still queued, in the same order,
        and every request queued after them is a new object. */
    twostate predicate Grew()
      reads this
    {
      && |old(requests)| <= |requests|
      && requests[..|old(requests)|] == old(requests)
      && forall i :: |old(requests)| <= i < |requests| ==> fresh(requests[i])
    }

    /** Growth composes: a queue that grew into `mid` and then from `mid` to the current one grew. */
    twostate lemma GrewThrough(new mid: seq<Request>)
      requires |old(requests)| <= |mid| && mid[..|old(requests)|] == old(requests)
      requires forall i :: |old(requests)| <= i < |mid| ==> fresh(mid[i])
      requires |mid| <= |requests| && requests[..|mid|] == mid
      requires forall i :: |mid| <= i < |requests| ==> fresh(requests[i])
      ensures Grew()
    {
      assert requests[..|old(requests)|] == mid[..|old(requests)|];
      forall i | |old(requests)| <= i < |requests|
        ensures fresh(requests[i])
      {
        if i < |mid| {
          assert requests[i] == mid[i];
        }
      }
    }

    /** A request whose id was not set explicitly drew it from this set's id supply. */
    ghost predicate Issued(r: Request)
      reads r.variable, ids
    {
      !r.variable.useVar ==> r.variable.val in ids.issued
    }

    /** The queue as values. */
    ghost function Contents(): seq<RequestValue>
      reads this, requests, set r | r in requests :: r.variable
    {
      Values(requests)
    }

    constructor (userToken: Option<string>, modelId: Option<string>, ids: IdSupply)
      requires ids.Valid()
      ensures Valid() && this.ids == ids
      ensures token == (if Truthy(userToken) then userToken else None)
      ensures defaultModel == (if Truthy(modelId) then modelId else None)
      ensures requests == [] && intention == Query
    {
      token := if Truthy(userToken) then userToken else None;
      defaultModel := if Truthy(modelId) then modelId else None;
      this.ids := ids;
      requests := [];
      intention := Query;
    }

    /** `add(req, intention)`: append `req`; no hint or 'action' makes the batch an action, 'query'
        (or anything else) leaves the intention as it is. */
    method Add(req: Request, hint: Option<string>)
      requires Valid() && req.Valid() && Issued(req)
      modifies this
      ensures Valid()
      ensures requests == old(requests) + [req]
      ensures Contents() == old(Contents()) + [req.Value()]
      ensures intention == NextIntention(old(intention), hint)
    {
      if !Truthy(hint) {
        intention := Action;
      } else if hint.value == "action" {
        intention := Action;
      } else if hint.value == "query" {
      }
      requests := requests + [req];
    }

    /** `add(req, 'action')` for a request built to match `x`. */
    method Enqueue(req: Request, ghost x: Expected)
      requires Valid() && req.Valid() && Issued(req) && Matches(req.Value(), x)
      modifies this
      ensures Valid() && intention == Action
      ensures requests == old(requests) + [req]
      ensures Enqueued(old(Contents()), Contents(), [x])
    {
      Add(req, Some("action"));
      EnqueuedOne(old(Contents()), req.Value(), x);
    }

    /** `last_individual_id(number_to_skip)`: scan back from the newest request, skipping
        `numberToSkip` individual requests. */
    method LastIndividualId(numberToSkip: int) returns (r: Option<string>)
      requires Valid()
      ensures r == LastIndividual(Contents(), numberToSkip)
    {
      var skip := numberToSkip;
      var n := |requests|;
      assert Contents()[..n] == Contents();
      while n > 0
        invariant 0 <= n <= |requests|
        invariant Lookback(Contents()[..n], "individual", skip) == Lookback(Contents(), "individual", numberToSkip)
      {
        var req := requests[n - 1];
        assert Contents()[..n][..n - 1] == Contents()[..n - 1];
        if req.entity == "individual" {
          if skip > 0 {
            skip := skip - 1;
          } else {
            return Some(req.IndividualId());
          }
        }
        n := n - 1;
      }
      return None;
    }

    /** `last_fact_triple(number_to_skip)`: the same scan over edge requests, reading back subject,
        object and predicate. */
    method LastFactTriple(numberToSkip: int) returns (r: Option<Triple>)
      requires Valid()
      ensures AllWellFormed(Contents())
      ensures r == LastFact(Contents(), numberToSkip)
    {
      AllWellFormedContents();
      var skip := numberToSkip;
      var n := |requests|;
      assert Contents()[..n] == Contents();
      while n > 0
        invariant 0 <= n <= |requests|
        invariant Lookback(Contents()[..n], "edge", skip) == Lookback(Contents(), "edge", numberToSkip)
      {
        var req := requests[n - 1];
        assert Contents()[..n][..n - 1] == Contents()[..n - 1];
        if req.entity == "edge" {
          if skip > 0 {
            skip := skip - 1;
          } else {
            assert req.Valid();
            return Some(TripleOf(req.arguments));
          }
        }
        n := n - 1;
      }
      return None;
    }

    /** A new request, given the "model-id" argument when `modelId` is truthy. */
    method Build(entity: string, op: string, modelId: Option<string>) returns (req: Request)
      requires Valid()
      modifies ids
      ensures Valid() && req.Valid() && Issued(req) && fresh(req) && fresh(req.variable)
      ensures req.Value() == RequestValue(entity, op, req.variable.val, false, ModelArgs(modelId))
      ensures req.variable.val != ""
      ensures req.variable.val !in old(ids.issued) && ids.issued == old(ids.issued) + {req.variable.val}
    {
      req := new Request(entity, op, ids);
      if Truthy(modelId) {
        var _ := req.Model(modelId);
      }
    }

    /** A new request with "model-id" when `modelId` is truthy, and one class expression. */
    method BuildTyped(entity: string, op: string, c: ClassExpr, modelId: Option<string>) returns (req: Request)
      requires Valid()
      modifies ids
      ensures Valid() && req.Valid() && Issued(req) && fresh(req)
      ensures Matches(req.Value(), Expected(entity, op, None, WithExpression(ModelArgs(modelId), Plain(c))))
      ensures req.variable.val != ""
      ensures req.variable.val !in old(ids.issued) && ids.issued == old(ids.issued) + {req.variable.val}
    {
      req := Build(entity, op, modelId);
      PushOntoAbsent(ModelArgs(modelId), "expressions", [Expression(Plain(c))]);
      var _ := req.AddClassExpression(c);
    }

    /** A new request with "model-id" when `modelId` is truthy, addressed to the individual `id`. */
    method BuildAddressed(entity: string, op: string, id: string, modelId: Option<string>) returns (req: Request)
      requires Valid() && id != ""
      modifies ids
      ensures old(ids.issued) <= ids.issued
      ensures Valid() && req.Valid() && Issued(req) && fresh(req)
      ensures Matches(req.Value(), Expected(entity, op, Some(id), Addressed(ModelArgs(modelId), id)))
    {
      req := Build(entity, op, modelId);
      var _ := req.Individual(Some(id));
    }

    /** A new edge request with "model-id" when `modelId` is truthy, holding a proper fact. */
    method BuildFact(op: string, t: Triple, modelId: Option<string>) returns (req: Request)
      requires Valid() && ProperFact(Some(t))
      modifies ids
      ensures old(ids.issued) <= ids.issued
      ensures Valid() && req.Valid() && Issued(req) && fresh(req)
      ensures Matches(req.Value(), Expected("edge", op, None, FactArgs(ModelArgs(modelId), t)))
    {
      req := Build("edge", op, modelId);
      req.Fact(t.sub, t.obj, t.pred);
    }

    /** `add_individual(class_expr, model_id)`: with a truthy class expression, enqueue an
        'individual'/'add' request typed by it and return its new generated id. */
    method AddIndividual(classExpr: Option<ClassExpr>, modelId: Option<string>) returns (r: Option<string>)
      requires Valid()
      modifies this, ids
      ensures old(ids.issued) <= ids.issued
      ensures Valid()
      ensures Grew()
      ensures !ClassTruthy(classExpr) ==>
        r == None && requests == old(requests) && intention == old(intention) && ids.issued == old(ids.issued)
      ensures ClassTruthy(classExpr) ==>
        && r.Some? && r.value !in old(ids.issued) && r.value in ids.issued
        && intention == Action
        && Enqueued(old(Contents()), Contents(),
                    [Expected("individual", "add", None, WithExpression(ModelArgs(modelId), Plain(classExpr.value)))])
        && LastIndividual(Contents(), 0) == r
      ensures ClassTruthy(classExpr) ==> forall v :: v in old(Contents()) && !v.explicit ==> v.id != r.value
    {
      r := None;
      if ClassTruthy(classExpr) {
        GeneratedIssued();
        var id := EnqueueIndividual(classExpr.value, modelId);
        r := Some(id);
      }
    }

    /** The request of `add_individual` for a truthy class expression, enqueued as an action; its id is
        new to the supply, and the individual lookback then finds it first. */
    method EnqueueIndividual(c: ClassExpr, modelId: Option<string>) returns (id: string)
      requires Valid()
      modifies this, ids
      ensures Valid() && intention == Action
      ensures Grew()
      ensures id !in old(ids.issued) && ids.issued == old(ids.issued) + {id}
      ensures Enqueued(old(Contents()), Contents(),
                       [Expected("individual", "add", None, WithExpression(ModelArgs(modelId), Plain(c)))])
      ensures LastIndividual(Contents(), 0) == Some(id)
    {
      var req := BuildTyped("individual", "add", c, modelId);
      id := req.IndividualId();
      ghost var v := req.Value();
      Add(req, Some("action"));
      assert req.Value() == v;
      EnqueuedOne(old(Contents()), v, Expected("individual", "add", None, WithExpression(ModelArgs(modelId), Plain(c))));
      LastIndividualOfAppended(old(Contents()), v, 0);
    }

    /** `remove_individual(individual_id, model_id)`. */
    method RemoveIndividual(individualId: Option<string>, modelId: Option<string>)
      requires Valid()
      modifies this, ids
      ensures old(ids.issued) <= ids.issued
      ensures Valid()
      ensures Grew()
      ensures !Truthy(individualId) ==>
        requests == old(requests) && intention == old(intention) && ids.issued == old(ids.issued)
      ensures Truthy(individualId) ==>
        && intention == Action
        && Enqueued(old(Contents()), Contents(),
                    [Expected("individual", "remove", individualId, Addressed(ModelArgs(modelId), individualId.value))])
    {
      if Truthy(individualId) {
        var req := BuildAddressed("individual", "remove", individualId.value, modelId);
        Add(req, Some("action"));
        EnqueuedOne(old(Contents()), req.Value(),
                    Expected("individual", "remove", individualId, Addressed(ModelArgs(modelId), individualId.value)));
      }
    }

    /** The '<op>-type' request of `_op_type_to_individual`: individual first, then model, then the class
        expression. */
    method BuildTypeChange(op: string, c: ClassExpr, id: string, modelId: Option<string>) returns (req: Request)
      requires Valid() && id != ""
      modifies ids
      ensures old(ids.issued) <= ids.issued
      ensures Valid() && req.Valid() && Issued(req) && fresh(req)
      ensures Matches(req.Value(), Expected("individual", op + "-type", Some(id),
                                            WithExpression(Put(Addressed(map[], id), "model-id", modelId), Plain(c))))
    {
      req := new Request("individual", op + "-type", ids);
      var _ := req.Individual(Some(id));
      if Truthy(modelId) {
        var _ := req.Model(modelId);
      }
      PushOntoAbsent(Put(Addressed(map[], id), "model-id", modelId), "expressions", [Expression(Plain(c))]);
      var _ := req.AddClassExpression(c);
    }

    /** `_op_type_to_individual(op, class_expr, individual_id, model_id)`: only when all three are
        truthy is the operation checked and an '<op>-type' request enqueued. */
    method OpTypeToIndividual(op: Option<string>, classExpr: Option<ClassExpr>, individualId: Option<string>,
                              modelId: Option<string>) returns (o: Outcome)
      requires Valid()
      modifies this, ids
      ensures old(ids.issued) <= ids.issued
      ensures Valid()
      ensures Grew()
      ensures !(Truthy(op) && ClassTruthy(classExpr) && Truthy(individualId) && KnownOp(op)) ==>
        requests == old(requests) && intention == old(intention) && ids.issued == old(ids.issued)
      ensures o == (if Truthy(op) && ClassTruthy(classExpr) && Truthy(individualId) && !KnownOp(op)
                    then Failed(UnknownTypeOperation) else Done)
      ensures Truthy(op) && ClassTruthy(classExpr) && Truthy(individualId) && KnownOp(op) ==>
        && intention == Action
        && Enqueued(old(Contents()), Contents(),
                    [Expected("individual", op.value + "-type", individualId,
                              WithExpression(Put(Addressed(map[], individualId.value), "model-id", modelId),
                                             Plain(classExpr.value)))])
    {
      o := Done;
      if Truthy(op) && ClassTruthy(classExpr) && Truthy(individualId) {
        if op.value != "add" && op.value != "remove" {
          return Failed(UnknownTypeOperation);
        } else {
          var req := BuildTypeChange(op.value, classExpr.value, individualId.value, modelId);
          Add(req, Some("action"));
          EnqueuedOne(old(Contents()), req.Value(),
                      Expected("individual", op.value + "-type", individualId,
                               WithExpression(Put(Addressed(map[], individualId.value), "model-id", modelId),
                                              Plain(classExpr.value))));
        }
      }
    }

    /** `add_type_to_individual(class_expr, individual_id, model_id)`. */
    method AddTypeToIndividual(classExpr: Option<ClassExpr>, individualId: Option<string>, modelId: Option<string>)
      requires Valid()
      modifies this, ids
      ensures old(ids.issued) <= ids.issued
      ensures Valid()
      ensures Grew()
      ensures !(ClassTruthy(classExpr) && Truthy(individualId)) ==>
        requests == old(requests) && intention == old(intention) && ids.issued == old(ids.issued)
      ensures ClassTruthy(classExpr) && Truthy(individualId) ==>
        && intention == Action
        && Enqueued(old(Contents()), Contents(),
                    [Expected("individual", "add-type", individualId,
                              WithExpression(Put(Addressed(map[], individualId.value), "model-id", modelId),
                                             Plain(classExpr.value)))])
    {
      assert "add" + "-type" == "add-type";
      var _ := OpTypeToIndividual(Some("add"), classExpr, individualId, modelId);
    }

    /** `remove_type_from_individual(class_expr, individual_id, model_id)`. */
    method RemoveTypeFromIndividual(classExpr: Option<ClassExpr>, individualId: Option<string>, modelId: Option<string>)
      requires Valid()
      modifies this, ids
      ensures old(ids.issued) <= ids.issued
      ensures Valid()
      ensures Grew()
      ensures !(ClassTruthy(classExpr) && Truthy(individualId)) ==>
        requests == old(requests) && intention == old(intention) && ids.issued == old(ids.issued)
      ensures ClassTruthy(classExpr) && Truthy(individualId) ==>
        && intention == Action
        && Enqueued(old(Contents()), Contents(),
                    [Expected("individual", "remove-type", individualId,
                              WithExpression(Put(Addressed(map[], individualId.value), "model-id", modelId),
                                             Plain(classExpr.value)))])
    {
      assert "remove" + "-type" == "remove-type";
      var _ := OpTypeToIndividual(Some("remove"), classExpr, individualId, modelId);
    }

    /** `add_fact(triple, model_id)`: reject an improper fact before building anything; otherwise
        enqueue one 'edge'/'add' request for it, which the fact lookback then finds first. */
    method AddFact(triple: Option<Triple>, modelId: Option<string>) returns (r: Result<Triple>)
      requires Valid()
      modifies this, ids
      ensures old(ids.issued) <= ids.issued
      ensures Valid()
      ensures Grew()
      ensures !ProperFact(triple) ==>
        r == Err(ImproperFact) && requests == old(requests) && intention == old(intention) && ids.issued == old(ids.issued)
      ensures ProperFact(triple) ==>
        && r == Ok(triple.value)
        && intention == Action
        && Enqueued(old(Contents()), Contents(), [Expected("edge", "add", None, FactArgs(ModelArgs(modelId), triple.value))])
        && AllWellFormed(Contents())
        && LastFact(Contents(), 0) == triple
    {
      if !ProperFact(triple) {
        return Err(ImproperFact);
      }
      EnqueueFact("add", triple.value, modelId);
      r := Ok(triple.value);
    }

    /** The request of `add_fact` or `remove_fact` for a proper fact, enqueued as an action; the fact
        lookback then finds it first. */
    method EnqueueFact(op: string, t: Triple, modelId: Option<string>)
      requires Valid() && ProperFact(Some(t))
      modifies this, ids
      ensures old(ids.issued) <= ids.issued
      ensures Valid() && intention == Action
      ensures Grew()
      ensures Enqueued(old(Contents()), Contents(), [Expected("edge", op, None, FactArgs(ModelArgs(modelId), t))])
      ensures AllWellFormed(Contents()) && LastFact(Contents(), 0) == Some(t)
    {
      AllWellFormedContents();
      var req := BuildFact(op, t, modelId);
      Add(req, Some("action"));
      EnqueuedOne(old(Contents()), req.Value(), Expected("edge", op, None, FactArgs(ModelArgs(modelId), t)));
      LastFactOfAppended(old(Contents()), req.Value(), t);
    }

    /** `remove_fact(triple, model_id)`. */
    method RemoveFact(triple: Option<Triple>, modelId: Option<string>) returns (o: Outcome)
      requires Valid()
      modifies this, ids
      ensures old(ids.issued) <= ids.issued
      ensures Valid()
      ensures Grew()
      ensures !ProperFact(triple) ==>
        o == Failed(ImproperFact) && requests == old(requests) && intention == old(intention) && ids.issued == old(ids.issued)
      ensures ProperFact(triple) ==>
        && o == Done
        && intention == Action
        && Enqueued(old(Contents()), Contents(), [Expected("edge", "remove", None, FactArgs(ModelArgs(modelId), triple.value))])
    {
      if !ProperFact(triple) {
        return Failed(ImproperFact);
      }
      EnqueueFact("remove", triple.value, modelId);
      o := Done;
    }

    /** Every request in the queue whose id was not set explicitly carries an id the supply has issued. */
    lemma GeneratedIssued()
      requires Valid()
      ensures forall v :: v in Contents() && !v.explicit ==> v.id in ids.issued
    {
      forall v | v in Contents() && !v.explicit ensures v.id in ids.issued {
        var j :| 0 <= j < |Contents()| && Contents()[j] == v;
        assert Issued(requests[j]);
      }
    }

    lemma AllWellFormedContents()
      requires Valid()
      ensures AllWellFormed(Contents())
    {
      forall v | v in Contents() ensures WellFormed(v.arguments) {
        var j :| 0 <= j < |Contents()| && Contents()[j] == v;
        assert requests[j].Valid();
      }
    }

    /** The source annotations of `add_evidence`, on the floating individual: sources that are neither
        string nor array make `add_annotation` throw. */
    method BuildSources(floating: string, sourceIds: AnnotationArg, modelId: Option<string>)
      returns (req: Request, res: Result<nat>)
      requires Valid() && floating != ""
      modifies ids
      ensures old(ids.issued) <= ids.issued
      ensures Valid() && req.Valid() && Issued(req) && fresh(req)
      ensures sourceIds.Other? ==> res == Err(UnknownArgument)
      ensures !sourceIds.Other? ==> res.Ok? && Matches(req.Value(), EvidenceSources(floating, Normalized(sourceIds), modelId))
    {
      req := Build("individual", "add-annotation", modelId);
      var _ := req.Individual(Some(floating));
      ghost var args := Addressed(ModelArgs(modelId), floating);
      assert req.arguments == args;
      if !sourceIds.Other? {
        PushOntoAbsent(args, "values", Pairs("source", Normalized(sourceIds)));
      }
      res := req.AddAnnotation("source", sourceIds);
    }

    /** The link of `add_evidence`: an 'evidence' annotation naming the floating individual, on the target
        individual or on the target fact. */
    method BuildLink(floating: string, target: Target, modelId: Option<string>) returns (req: Request)
      requires Valid() && TargetTruthy(target) && (target.FactTarget? ==> ProperFact(Some(target.triple)))
      modifies ids
      ensures old(ids.issued) <= ids.issued
      ensures Valid() && req.Valid() && Issued(req) && fresh(req)
      ensures Matches(req.Value(), EvidenceLink(floating, target, modelId))
    {
      ghost var x: Expected;
      match target {
        case IndividualTarget(tid) =>
          req := BuildAddressed("individual", "add-annotation", tid, modelId);
          x := Expected("individual", "add-annotation", Some(tid), Addressed(ModelArgs(modelId), tid));
        case FactTarget(t) =>
          req := BuildFact("add-annotation", t, modelId);
          x := Expected("edge", "add-annotation", None, FactArgs(ModelArgs(modelId), t));
      }
      var _ := AnnotateNew(req, "evidence", Text(floating), x);
    }

    /** `add_evidence(evidence_id, source_ids, target_identifier, model_id)`: with truthy evidence and
        sources, enqueue the floating evidence individual, then its sources, then the link from the
        target; a bad source list or target throws after the requests already enqueued. */
    method AddEvidence(evidenceId: Option<string>, sourceIds: AnnotationArg, target: Target, modelId: Option<string>)
      returns (o: Outcome)
      requires Valid()
      modifies this, ids
      ensures old(ids.issued) <= ids.issued
      ensures Valid()
      ensures Grew()
      ensures !(Truthy(evidenceId) && ArgTruthy(sourceIds)) ==> ids.issued == old(ids.issued)
      ensures EvidenceEffect(old(Contents()), Contents(), old(intention), intention, o, evidenceId, sourceIds, target, modelId)
    {
      o := Done;
      if Truthy(evidenceId) && ArgTruthy(sourceIds) {
        var floating := EnqueueFloating(evidenceId.value, modelId);
        ghost var one := Contents();
        ghost var mid := requests;
        o := AddEvidenceTail(floating, sourceIds, target, modelId);
        GrewThrough(mid);
        EnqueuedConcat(old(Contents()), one, Contents(), [EvidenceFloating(evidenceId.value, modelId)],
                       EvidenceTail(floating, sourceIds, target, modelId));
        assert Contents()[|old(Contents())|] == one[|old(Contents())|];
      }
    }

    /** The first request of `add_evidence`: the floating evidence individual, typed by the evidence class
        and enqueued as an action; its generated id is returned. */
    method EnqueueFloating(evidenceId: string, modelId: Option<string>) returns (floating: string)
      requires Valid()
      modifies this, ids
      ensures old(ids.issued) <= ids.issued
      ensures Valid()
      ensures Grew()
      ensures intention == Action
      ensures Enqueued(old(Contents()), Contents(), [EvidenceFloating(evidenceId, modelId)])
      ensures floating != "" && floating == Contents()[|old(Contents())|].id
    {
      var evInd := BuildTyped("individual", "add", ClassId(evidenceId), modelId);
      Add(evInd, Some("action"));
      EnqueuedOne(old(Contents()), evInd.Value(), EvidenceFloating(evidenceId, modelId));
      floating := evInd.IndividualId();
    }

    /** The rest of `add_evidence` once the floating individual `floating` is enqueued: its sources, then
        the target check, then the link. */
    method AddEvidenceTail(floating: string, sourceIds: AnnotationArg, target: Target, modelId: Option<string>)
      returns (o: Outcome)
      requires Valid() && floating != ""
      modifies this, ids
      ensures old(ids.issued) <= ids.issued
      ensures Valid()
      ensures Grew()
      ensures o == EvidenceOutcome(sourceIds, target)
      ensures Enqueued(old(Contents()), Contents(), EvidenceTail(floating, sourceIds, target, modelId))
      ensures intention == if sourceIds.Other? then old(intention) else Action
    {
      o := AddEvidenceSources(floating, sourceIds, modelId);
      if o != Done {
        assert Contents()[..|Contents()|] == Contents();
        return;
      }
      ghost var one := Contents();
      ghost var mid := requests;
      o := AddEvidenceTarget(floating, sourceIds, target, modelId);
      GrewThrough(mid);
      if o != Done {
        EvidenceTailFailed(old(Contents()), one, floating, sourceIds, target, modelId);
      } else {
        EvidenceTailDone(old(Contents()), one, Contents(), floating, sourceIds, target, modelId);
      }
    }

    /** The target check of `add_evidence` and, when it passes, the link to the target. */
    method AddEvidenceTarget(floating: string, sourceIds: AnnotationArg, target: Target, modelId: Option<string>)
      returns (o: Outcome)
      requires Valid() && !sourceIds.Other?
      modifies this, ids
      ensures old(ids.issued) <= ids.issued
      ensures Valid()
      ensures Grew()
      ensures o == EvidenceOutcome(sourceIds, target)
      ensures o != Done ==>
        requests == old(requests) && Contents() == old(Contents()) && intention == old(intention)
      ensures o == Done ==>
        intention == Action && Enqueued(old(Contents()), Contents(), [EvidenceLink(floating, target, modelId)])
    {
      if !TargetTruthy(target) {
        return Failed(NoEvidenceTarget);
      }
      if target.FactTarget? && !ProperFact(Some(target.triple)) {
        return Failed(ImproperFact);
      }
      AddEvidenceLink(floating, target, modelId);
      o := Done;
    }

    /** The source annotations of `add_evidence`, enqueued unless `add_annotation` throws. */
    method AddEvidenceSources(floating: string, sourceIds: AnnotationArg, modelId: Option<string>) returns (o: Outcome)
      requires Valid() && floating != ""
      modifies this, ids
      ensures old(ids.issued) <= ids.issued
      ensures Valid()
      ensures Grew()
      ensures sourceIds.Other? ==>
        o == Failed(UnknownArgument) && requests == old(requests) && Contents() == old(Contents()) && intention == old(intention)
      ensures !sourceIds.Other? ==>
        && o == Done
        && intention == Action
        && Enqueued(old(Contents()), Contents(), [EvidenceSources(floating, Normalized(sourceIds), modelId)])
    {
      var req, res := BuildSources(floating, sourceIds, modelId);
      if res.Err? {
        return Failed(res.error);
      }
      Add(req, Some("action"));
      EnqueuedOne(old(Contents()), req.Value(), EvidenceSources(floating, Normalized(sourceIds), modelId));
      o := Done;
    }

    /** The link request of `add_evidence`, for a target already checked. */
    method AddEvidenceLink(floating: string, target: Target, modelId: Option<string>)
      requires Valid() && TargetTruthy(target) && (target.FactTarget? ==> ProperFact(Some(target.triple)))
      modifies this, ids
      ensures old(ids.issued) <= ids.issued
      ensures Valid()
      ensures Grew()
      ensures intention == Action
      ensures Enqueued(old(Contents()), Contents(), [EvidenceLink(floating, target, modelId)])
    {
      var req := BuildLink(floating, target, modelId);
      Add(req, Some("action"));
      EnqueuedOne(old(Contents()), req.Value(), EvidenceLink(floating, target, modelId));
    }

    /** `remove_evidence(evidence_individual_id, model_id)`: removing the evidence individual. */
    method RemoveEvidence(evidenceIndividualId: Option<string>, modelId: Option<string>)
      requires Valid()
      modifies this, ids
      ensures old(ids.issued) <= ids.issued
      ensures Valid()
      ensures Grew()
      ensures !Truthy(evidenceIndividualId) ==>
        requests == old(requests) && intention == old(intention) && ids.issued == old(ids.issued)
      ensures Truthy(evidenceIndividualId) ==>
        && intention == Action
        && Enqueued(old(Contents()), Contents(),
                    [Expected("individual", "remove", evidenceIndividualId,
                              Addressed(ModelArgs(modelId), evidenceIndividualId.value))])
    {
      if Truthy(evidenceIndividualId) {
        RemoveIndividual(evidenceIndividualId, modelId);
      }
    }

    /** `add_evidence_to_last_individual(evidence_id, source_ids, model_id)`: `add_evidence` aimed at
        the individual the lookback finds, and nothing when there is none. */
    method AddEvidenceToLastIndividual(evidenceId: Option<string>, sourceIds: AnnotationArg, modelId: Option<string>)
      returns (o: Outcome)
      requires Valid()
      modifies this, ids
      ensures old(ids.issued) <= ids.issued
      ensures Valid()
      ensures Grew()
      ensures var last := LastIndividual(old(Contents()), 0);
        if last.Some? && last.value != "" then
          EvidenceEffect(old(Contents()), Contents(), old(intention), intention, o, evidenceId, sourceIds,
                         IndividualTarget(last.value), modelId)
        else requests == old(requests) && intention == old(intention) && o == Done && ids.issued == old(ids.issued)
    {
      ghost var before, i0 := Contents(), intention;
      var last := LastIndividualId(0);
      assert last == LastIndividual(before, 0);
      o := Done;
      if last.Some? && last.value != "" {
        o := AddEvidence(evidenceId, sourceIds, IndividualTarget(last.value), modelId);
        assert EvidenceEffect(before, Contents(), i0, intention, o, evidenceId, sourceIds,
                              IndividualTarget(last.value), modelId);
      }
    }

    /** `add_evidence_to_last_fact(evidence_id, source_ids, model_id)`: `add_evidence` aimed at the
        triple the fact lookback finds, and nothing when there is none. */
    method AddEvidenceToLastFact(evidenceId: Option<string>, sourceIds: AnnotationArg, modelId: Option<string>)
      returns (o: Outcome)
      requires Valid()
      modifies this, ids
      ensures old(ids.issued) <= ids.issued
      ensures Valid()
      ensures Grew()
      ensures AllWellFormed(old(Contents()))
      ensures var last := LastFact(old(Contents()), 0);
        if last.Some? then
          EvidenceEffect(old(Contents()), Contents(), old(intention), intention, o, evidenceId, sourceIds,
                         FactTarget(last.value), modelId)
        else requests == old(requests) && intention == old(intention) && o == Done && ids.issued == old(ids.issued)
    {
      ghost var before, i0 := Contents(), intention;
      var last := LastFactTriple(0);
      assert last == LastFact(before, 0);
      o := Done;
      if last.Some? {
        o := AddEvidence(evidenceId, sourceIds, FactTarget(last.value), modelId);
        assert EvidenceEffect(before, Contents(), i0, intention, o, evidenceId, sourceIds,
                              FactTarget(last.value), modelId);
      }
    }

    /** The first half of `_op_annotation_to_target`: a new request for `op` on `target`, identifying
        the target, or the error thrown on an improper fact or an unknown target. */
    method BuildAnnotationTarget(op: Option<string>, target: string, individualId: Option<string>,
                                 triple: Option<Triple>, modelId: Option<string>) returns (req: Request, o: Outcome)
      requires Valid() && KnownOp(op)
      modifies ids
      ensures old(ids.issued) <= ids.issued
      ensures Valid()
      ensures o == AnnotationOutcome(op, target, triple, None, Other(false))
      ensures o == Done ==>
        && fresh(req) && req.Valid() && Issued(req)
        && Matches(req.Value(), AnnotationTarget(op, target, individualId, triple, modelId))
    {
      req := Build(target, op.value + "-annotation", modelId);
      if target == "model" {
      } else if target == "individual" {
        var _ := req.Individual(individualId);
      } else if target == "edge" {
        if !ProperFact(triple) {
          return req, Failed(ImproperFact);
        }
        req.Fact(triple.value.sub, triple.value.obj, triple.value.pred);
      } else {
        return req, Failed(UnknownAnnotationTarget);
      }
      o := Done;
    }

    /** `_op_annotation_to_target` up to the enqueue: the request, its target and its annotation. */
    method BuildAnnotation(op: Option<string>, target: string, individualId: Option<string>, triple: Option<Triple>,
                           key: Option<string>, value: AnnotationArg, modelId: Option<string>)
      returns (req: Request, o: Outcome)
      requires Valid() && KnownOp(op)
      modifies ids
      ensures old(ids.issued) <= ids.issued
      ensures Valid() && Contents() == old(Contents())
      ensures o == AnnotationOutcome(op, target, triple, key, value)
      ensures AnnotationEnqueues(op, target, triple, key, value) ==>
        fresh(req) && req.Valid() && Issued(req) && Matches(req.Value(), AnnotationRequest(op, target, individualId, triple, key, value, modelId))
    {
      AnnotationStages(op, target, individualId, triple, key, value, modelId);
      req, o := BuildAnnotationTarget(op, target, individualId, triple, modelId);
      if o != Done {
        return;
      }
      if Truthy(key) && ArgTruthy(value) {
        o := AnnotateNew(req, key.value, value, AnnotationTarget(op, target, individualId, triple, modelId));
      }
    }

    /** `add_annotation(key, value)` on a request that holds no annotation yet. */
    static method AnnotateNew(req: Request, key: string, value: AnnotationArg, ghost x: Expected) returns (o: Outcome)
      requires req.Valid() && Matches(req.Value(), x) && "values" !in x.arguments
      modifies req
      ensures req.Valid()
      ensures o == if value.Other? then Failed(UnknownArgument) else Done
      ensures o == Done ==> Matches(req.Value(), x.(arguments := WithAnnotations(x.arguments, key, Normalized(value))))
    {
      if !value.Other? {
        PushOntoAbsent(x.arguments, "values", Pairs(key, Normalized(value)));
      }
      var res := req.AddAnnotation(key, value);
      o := if res.Err? then Failed(res.error) else Done;
    }

    /** `_op_annotation_to_target(op, target, target_identifier, key, value, model_id)`, with the
        identifier given as an individual id or as a triple. */
    method OpAnnotationToTarget(op: Option<string>, target: string, individualId: Option<string>,
                                triple: Option<Triple>, key: Option<string>, value: AnnotationArg,
                                modelId: Option<string>) returns (o: Outcome)
      requires Valid()
      modifies this, ids
      ensures old(ids.issued) <= ids.issued
      ensures Valid()
      ensures Grew()
      ensures !KnownOp(op) ==> ids.issued == old(ids.issued)
      ensures AnnotationEffect(old(Contents()), Contents(), old(intention), intention, o,
                               op, target, individualId, triple, key, value, modelId)
    {
      if !KnownOp(op) {
        return Failed(UnknownAnnotationOperation);
      }
      var req;
      req, o := BuildAnnotation(op, target, individualId, triple, key, value, modelId);
      if AnnotationEnqueues(op, target, triple, key, value) {
        Enqueue(req, AnnotationRequest(op, target, individualId, triple, key, value, modelId));
      }
    }

    /** `add_annotation_to_model(key, value, model_id)`. */
    method AddAnnotationToModel(key: Option<string>, value: AnnotationArg, modelId: Option<string>) returns (o: Outcome)
      requires Valid()
      modifies this, ids
      ensures old(ids.issued) <= ids.issued
      ensures Valid()
      ensures Grew()
      ensures AnnotationEffect(old(Contents()), Contents(), old(intention), intention, o,
                               Some("add"), "model", None, None, key, value, modelId)
    {
      o := OpAnnotationToTarget(Some("add"), "model", None, None, key, value, modelId);
    }

    /** `remove_annotation_from_model(key, value, model_id)`. */
    method RemoveAnnotationFromModel(key: Option<string>, value: AnnotationArg, modelId: Option<string>)
      returns (o: Outcome)
      requires Valid()
      modifies this, ids
      ensures old(ids.issued) <= ids.issued
      ensures Valid()
      ensures Grew()
      ensures AnnotationEffect(old(Contents()), Contents(), old(intention), intention, o,
                               Some("remove"), "model", None, None, key, value, modelId)
    {
      o := OpAnnotationToTarget(Some("remove"), "model", None, None, key, value, modelId);
    }

    /** `add_annotation_to_individual(key, value, individual_id, model_id)`. */
    method AddAnnotationToIndividual(key: Option<string>, value: AnnotationArg, individualId: Option<string>,
                                     modelId: Option<string>) returns (o: Outcome)
      requires Valid()
      modifies this, ids
      ensures old(ids.issued) <= ids.issued
      ensures Valid()
      ensures Grew()
      ensures AnnotationEffect(old(Contents()), Contents(), old(intention), intention, o,
                               Some("add"), "individual", individualId, None, key, value, modelId)
    {
      o := OpAnnotationToTarget(Some("add"), "individual", individualId, None, key, value, modelId);
    }

    /** `remove_annotation_from_individual(key, value, individual_id, model_id)`. */
    method RemoveAnnotationFromIndividual(key: Option<string>, value: AnnotationArg, individualId: Option<string>,
                                          modelId: Option<string>) returns (o: Outcome)
      requires Valid()
      modifies this, ids
      ensures old(ids.issued) <= ids.issued
      ensures Valid()
      ensures Grew()
      ensures AnnotationEffect(old(Contents()), Contents(), old(intention), intention, o,
                               Some("remove"), "individual", individualId, None, key, value, modelId)
    {
      o := OpAnnotationToTarget(Some("remove"), "individual", individualId, None, key, value, modelId);
    }

    /** `add_annotation_to_fact(key, value, triple, model_id)`: the fact is checked up front, then again
        by `_op_annotation_to_target`. */
    method AddAnnotationToFact(key: Option<string>, value: AnnotationArg, triple: Option<Triple>,
                               modelId: Option<string>) returns (o: Outcome)
      requires Valid()
      modifies this, ids
      ensures old(ids.issued) <= ids.issued
      ensures Valid()
      ensures Grew()
      ensures !ProperFact(triple) ==> ids.issued == old(ids.issued)
      ensures AnnotationEffect(old(Contents()), Contents(), old(intention), intention, o,
                               Some("add"), "edge", None, triple, key, value, modelId)
    {
      if !ProperFact(triple) {
        return Failed(ImproperFact);
      }
      o := OpAnnotationToTarget(Some("add"), "edge", None, triple, key, value, modelId);
    }

    /** `remove_annotation_from_fact(key, value, triple, model_id)`. */
    method RemoveAnnotationFromFact(key: Option<string>, value: AnnotationArg, triple: Option<Triple>,
                                    modelId: Option<string>) returns (o: Outcome)
      requires Valid()
      modifies this, ids
      ensures old(ids.issued) <= ids.issued
      ensures Valid()
      ensures Grew()
      ensures !ProperFact(triple) ==> ids.issued == old(ids.issued)
      ensures AnnotationEffect(old(Contents()), Contents(), old(intention), intention, o,
                               Some("remove"), "edge", None, triple, key, value, modelId)
    {
      if !ProperFact(triple) {
        return Failed(ImproperFact);
      }
      o := OpAnnotationToTarget(Some("remove"), "edge", None, triple, key, value, modelId);
    }

    /** `undo_last_model_batch(model_id)`. */
    method UndoLastModelBatch(modelId: Option<string>)
      requires Valid()
      modifies this, ids
      ensures old(ids.issued) <= ids.issued
      ensures Valid()
      ensures Grew()
      ensures intention == Action
      ensures Enqueued(old(Contents()), Contents(), [Expected("model", "undo", None, ModelArgs(modelId))])
    {
      var req := Build("model", "undo", modelId);
      Add(req, Some("action"));
    }

    /** `redo_last_model_batch(model_id)`. */
    method RedoLastModelBatch(modelId: Option<string>)
      requires Valid()
      modifies this, ids
      ensures old(ids.issued) <= ids.issued
      ensures Valid()
      ensures Grew()
      ensures intention == Action
      ensures Enqueued(old(Contents()), Contents(), [Expected("model", "redo", None, ModelArgs(modelId))])
    {
      var req := Build("model", "redo", modelId);
      Add(req, Some("action"));
    }

    /** `get_meta()`: a query, so the intention is left as it was. */
    method GetMeta()
      requires Valid()
      modifies this, ids
      ensures old(ids.issued) <= ids.issued
      ensures Valid()
      ensures Grew()
      ensures intention == old(intention)
      ensures Enqueued(old(Contents()), Contents(), [Expected("meta", "get", None, map[])])
    {
      var req := Build("meta", "get", None);
      Add(req, Some("query"));
    }

    /** `get_model(model_id)`: a query. */
    method GetModel(modelId: Option<string>)
      requires Valid()
      modifies this, ids
      ensures old(ids.issued) <= ids.issued
      ensures Valid()
      ensures Grew()
      ensures intention == old(intention)
      ensures Enqueued(old(Contents()), Contents(), [Expected("model", "get", None, ModelArgs(modelId))])
    {
      var req := Build("model", "get", modelId);
      Add(req, Some("query"));
    }

    /** `get_undo_redo(model_id)`: a query. */
    method GetUndoRedo(modelId: Option<string>)
      requires Valid()
      modifies this, ids
      ensures old(ids.issued) <= ids.issued
      ensures Valid()
      ensures Grew()
      ensures intention == old(intention)
      ensures Enqueued(old(Contents()), Contents(), [Expected("model", "get-undo-redo", None, ModelArgs(modelId))])
    {
      var req := Build("model", "get-undo-redo", modelId);
      Add(req, Some("query"));
    }

    /** The request of `add_model`. */
    method BuildModel(classId: Option<string>, taxonId: Option<string>) returns (req: Request)
      requires Valid()
      modifies ids
      ensures old(ids.issued) <= ids.issued
      ensures Valid() && req.Valid() && Issued(req) && fresh(req)
      ensures Matches(req.Value(), Expected("model", "add", None, NewModelArgs(classId, taxonId)))
    {
      req := new Request("model", "add", ids);
      if Truthy(classId) {
        var _ := req.Special("class-id", classId);
      }
      if Truthy(taxonId) {
        var _ := req.Special("taxon-id", taxonId);
      }
    }

    /** `add_model(argument_hash)`, given the hash's "class-id" and "taxon-id" entries (none when the
        hash or the entry is missing). */
    method AddModel(classId: Option<string>, taxonId: Option<string>)
      requires Valid()
      modifies this, ids
      ensures old(ids.issued) <= ids.issued
      ensures Valid()
      ensures Grew()
      ensures intention == Action
      ensures Enqueued(old(Contents()), Contents(), [Expected("model", "add", None, NewModelArgs(classId, taxonId))])
    {
      var req := BuildModel(classId, taxonId);
      Add(req, Some("action"));
      EnqueuedOne(old(Contents()), req.Value(), Expected("model", "add", None, NewModelArgs(classId, taxonId)));
    }

    /** `store_model(model_id)`: a query, as it concerns no other client. */
    method StoreModel(modelId: Option<string>)
      requires Valid()
      modifies this, ids
      ensures old(ids.issued) <= ids.issued
      ensures Valid()
      ensures Grew()
      ensures intention == old(intention)
      ensures Enqueued(old(Contents()), Contents(), [Expected("model", "store", None, ModelArgs(modelId))])
    {
      var req := Build("model", "store", modelId);
      Add(req, Some("query"));
    }

    /** `structure()`: back-fill the default model id into every request without one, objectify each
        request in place, and return token, intention and the rendered requests in queue order. */
    method Structure() returns (s: Structured)
      requires Valid()
      modifies requests
      ensures Valid()
      ensures Contents() == PrepareAll(old(Contents()), defaultModel)
      ensures s == Structured(token, intention, RenderAll(Contents()))
    {
      var reqs := PrepareEach(requests, defaultModel);
      s := Structured(token, intention, reqs);
    }

    /** `callable()`: `structure()` with the request list encoded by `encode` (JSON text, then URI
        component escaping). */
    method Callable(encode: seq<Rendered> -> string) returns (c: Encoded)
      requires Valid()
      modifies requests
      ensures Valid()
      ensures Contents() == PrepareAll(old(Contents()), defaultModel)
      ensures c == Encoded(token, intention, encode(RenderAll(Contents())))
    {
      var s := Structure();
      c := Encoded(s.token, s.intention, encode(s.requests));
    }
  }

  /** The loop of `structure()`: each request of `rs` is back-filled with `defaultModel` and objectified in
      place (a request that occurs twice is prepared twice, which changes nothing the second time), and
      the renderings are returned in order. */
  method PrepareEach(rs: seq<Request>, defaultModel: Option<string>) returns (reqs: seq<Rendered>)
    requires forall r :: r in rs ==> r.Valid()
    modifies rs
    ensures forall r :: r in rs ==> r.Valid()
    ensures Values(rs) == PrepareAll(old(Values(rs)), defaultModel)
    ensures reqs == RenderAll(Values(rs))
  {
    reqs := [];
    ghost var done: set<Request> := {};
    var i := 0;
    while i < |rs|
      invariant 0 <= i <= |rs|
      invariant forall r :: r in rs ==> r.Valid()
      invariant forall k :: 0 <= k < i ==> rs[k] in done
      invariant forall r :: r in rs ==>
        r.Value() == if r in done then Prepared(old(r.Value()), defaultModel) else old(r.Value())
      invariant |reqs| == i
      invariant forall k :: 0 <= k < i ==> reqs[k] == Render(Prepared(old(rs[k].Value()), defaultModel))
    {
      var req := rs[i];
      ghost var before := old(req.Value());
      if req in done {
        PreparedIdempotent(before, defaultModel);
      }
      var o := req.Prepare(defaultModel);
      done := done + {req};
      reqs := reqs + [o];
      i := i + 1;
    }
    assert reqs == RenderAll(Values(rs));
  }

  /** A builder followed by `structure()` on the same set, here `get_meta`: the builder leaves the earlier
      request objects queued and adds a new one, so `structure()` can follow it; the meta query comes out
      last, carrying only the back-filled default model id, and the intention is untouched. */
  method BuildThenStructure(rset: RequestSet) returns (s: Structured)
    requires rset.Valid()
    modifies rset, rset.ids, rset.requests
    ensures rset.Valid()
    ensures |s.requests| == |old(rset.requests)| + 1
    ensures s.requests[|s.requests| - 1] == Rendered("meta", "get", ModelArgs(rset.defaultModel))
    ensures s.intention == old(rset.intention)
  {
    rset.GetMeta();
    MetaLast(old(rset.Contents()), rset.Contents(), rset.defaultModel);
    s := rset.Structure();
  }

  /** A meta query just enqueued is rendered last by `structure()`, with only the default model id. */
  lemma MetaLast(before: seq<RequestValue>, after: seq<RequestValue>, defaultModel: Option<string>)
    requires Enqueued(before, after, [Expected("meta", "get", None, map[])])
    ensures |after| == |before| + 1
    ensures Render(Prepared(after[|before|], defaultModel)) == Rendered("meta", "get", ModelArgs(defaultModel))
  {
    var xs := [Expected("meta", "get", None, map[])];
    assert Matches(after[|before| + 0], xs[0]);
  }

  /** Calling `structure()` a second time returns what the first call returned. */
  method StructureTwice(rset: RequestSet) returns (first: Structured, second: Structured)
    requires rset.Valid()
    modifies rset.requests
    ensures first == second
  {
    first := rset.Structure();
    ghost var once := rset.Contents();
    second := rset.Structure();
    PrepareAllIdempotent(old(rset.Contents()), rset.defaultModel);
  }

  /** Every id `add_individual` hands out is new to the request set's id supply, so two individuals added
      to one set get different ids whatever ran in between (here, a `remove_individual`). */
  method AddedIndividualsDiffer(rset: RequestSet, c1: Option<ClassExpr>, c2: Option<ClassExpr>,
                                removed: Option<string>, modelId: Option<string>)
    returns (first: Option<string>, second: Option<string>)
    requires rset.Valid()
    modifies rset, rset.ids
    ensures first.Some? && second.Some? ==> first != second
  {
    first := rset.AddIndividual(c1, modelId);
    rset.RemoveIndividual(removed, modelId);
    second := rset.AddIndividual(c2, modelId);
  }
}
