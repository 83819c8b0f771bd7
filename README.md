# minerva-requests, modelled in Dafny

This project models the request builder of the minerva-requests JavaScript library (`lib/requests.js`).
A client uses it to assemble a batch of requests for a graph-model editing server. It has three
cooperating pieces of state, each a Dafny class:

- `RequestVariables.RequestVariable` is `request_variable`, a one-slot identifier. It starts from a
  generated id, and a truthy value overwrites it and marks it as set explicitly.
- `Requests.Request` is `request`: an entity, an operation, an implicit `request_variable` and an
  arguments dictionary. The getter/setters, `add_annotation`, the `add_*_expression` methods and
  `objectify` edit that dictionary in place.
- `RequestSets.RequestSet` is `request_set`, an ordered queue of requests with an intention
  ('query' or 'action') that `add` only ever raises. Its parts:
  - two backward lookbacks with a skip count;
  - the builders, which validate their input and then construct and enqueue requests;
  - `structure()`, which back-fills the default model id into the requests and objectifies them in place.

The value-level meaning of these operations lives in two modules of functions and lemmas:

- `RequestModel` covers one request: the arguments dictionary, `_get_set`, the list pushes of
  `add_annotation`, `individual`, `objectify`, and the back-fill of `structure()`.
- `RequestSetModel` covers the queue:
  - the intention aggregate;
  - the lookbacks as a function over the queue, with the (k+1)-th-from-the-end characterisation;
  - the request every builder is meant to enqueue (`Expected`, `Matches`, `Enqueued`);
  - the outcome of each builder's validation;
  - `structure()` over the whole queue.

Each method that changes state is proved against these functions. Its postcondition gives:

- the request objects: those queued before stay queued in the same order, and every request after them is a
  new object (`RequestSet.Grew`), so `structure()` may follow any sequence of builders;
- the queue's values: the old values followed by values that match the expected requests;
- the new intention;
- the outcome (normal return, or which error is thrown).

JavaScript truthiness is explicit:

- a string argument is an `Option<string>`, and `Truthy` means present and non-empty;
- class expressions, annotation values and evidence targets each have their own truthiness predicate.

Thrown errors are `Failed(error)` / `Err(error)` outcomes. The error tags name the source's messages.

The generated id (`bbop.core.uuid`) comes from an injected `Ids.IdSupply`. It hands out decimal
numerals from a counter, and `IdSupply.Fresh` proves that each id is non-empty and new. A request set
and every request it builds draw from one supply:

- `RequestSet.Valid()` requires every queued request with a generated id to hold an id the supply has issued;
- every builder lets the set of issued ids only grow, and leaves it as it was on the paths that build nothing.

So an id generated later never repeats a generated id already in the queue.

## Model

| member | source | states |
|---|---|---|
| Ids.IdSupply.Fresh | lib/requests.js:33-35 | the generated id is non-empty and was never handed out before, and is recorded as issued |
| Ids.DecimalInjective | lib/requests.js:33-35 | different counter values give different ids, so the supply never repeats an id |
| RequestVariables.RequestVariable.constructor | lib/requests.js:29-47 | a generated id is drawn; a truthy argument overwrites it and marks the variable set, a falsy one leaves the fresh generated id with the flag clear |
| RequestVariables.RequestVariable.Value | lib/requests.js:38-44 | a truthy value becomes the value and sets the flag; a falsy or missing one changes neither; the value in force is returned |
| RequestVariables.RequestVariable.IsSet | lib/requests.js:74-76 | `set_p()` answers with the flag that the constructor and `value` raise exactly when given a truthy value |
| RequestModel.Put | lib/requests.js:155-160 | only a truthy value is stored under its key, every other key reads as before, and well-formedness is kept |
| RequestModel.StrAt | lib/requests.js:145-152 | reading a string-valued key gives its string, and null exactly when the key is absent |
| RequestModel.PushAppends | lib/requests.js:132-136 | after `_ensure_list`, pushing onto a list slot appends the items in order after the existing ones, counts the whole list, and leaves every other key unchanged |
| RequestModel.Pairs | lib/requests.js:362-366 | one `{key, value}` pair per value, in the order of the values |
| RequestModel.AnnotateSpec | lib/requests.js:354-369 | `add_annotation` throws exactly on values that are neither string nor array, or on a push onto a non-empty string slot; otherwise the pairs follow the existing ones and the count is the old count plus the number of values |
| RequestModel.WithIndividual | lib/requests.js:244-253 | a truthy id becomes the explicit identity and the "individual" argument; a falsy one changes nothing |
| RequestModel.Objectified | lib/requests.js:213-230 | an individual request with a generated id gains "assign-to-variable" equal to that id; every other request and every other key is unchanged |
| RequestModel.ObjectifiedIdempotent | lib/requests.js:213-230 | objectifying twice gives what objectifying once gives |
| RequestModel.Backfilled | lib/requests.js:1345-1347 | a request whose model id is truthy is unchanged; one without takes a truthy default; with no default nothing changes |
| RequestModel.PreparedIdempotent | lib/requests.js:1331-1353 | back-filling and objectifying a request a second time changes nothing |
| Requests.Request.constructor | lib/requests.js:101-125 | a new request has the given entity and operation, no arguments, and a fresh generated identity not set explicitly |
| Requests.Request.GetSet | lib/requests.js:155-160 | the dictionary becomes `Put(old, key, v)` and the stored value (or null) is returned |
| Requests.Request.Special | lib/requests.js:195-197 | a truthy value is stored and returned; otherwise the old value is returned and nothing changes |
| Requests.Request.Subject | lib/requests.js:266-268 | "subject" is set when the value is truthy, and the subject in force is returned |
| Requests.Request.Object | lib/requests.js:282-284 | "object" is set when the value is truthy, and the object in force is returned |
| Requests.Request.Predicate | lib/requests.js:298-300 | "predicate" is set when the value is truthy, and the predicate in force is returned |
| Requests.Request.Model | lib/requests.js:317-319 | "model-id" is set when the value is truthy, and the model id in force is returned |
| Requests.Request.Individual | lib/requests.js:244-253 | the request becomes `WithIndividual(old, id)`, and the identity in force is returned; a truthy id is now explicitly set |
| Requests.Request.IndividualId | lib/requests.js:244-253 | `individual()` without an argument reads the identity the request carries, generated or explicit |
| Requests.Request.Fact | lib/requests.js:335-340 | subject, object and predicate are each stored when truthy |
| Requests.Request.AddAnnotation | lib/requests.js:354-369 | the dictionary and the result are exactly those of `Annotate`, which `AnnotateSpec` characterises; on an error nothing changes |
| Requests.Request.PushPairs | lib/requests.js:362-366 | the push loop appends one pair per value after the existing pairs and returns the new length |
| Requests.Request.Annotations | lib/requests.js:382-384 | the "values" slot is returned when present, and null when no annotation was ever added |
| Requests.Request.AddClassExpression | lib/requests.js:398-406 | the class expression's structure is appended to "expressions" after `_ensure_list`, and the new count is returned |
| Requests.Request.AddSvfExpression | lib/requests.js:422-431 | the some-values-from structure is appended to "expressions", and the new count is returned |
| Requests.Request.AddSetClassExpression | lib/requests.js:445-454 | the intersection/union structure is appended to "expressions", and the new count is returned |
| Requests.Request.Expressions | lib/requests.js:467-469 | the "expressions" slot is returned when present, and null when no expression was ever added |
| Requests.Request.Objectify | lib/requests.js:213-230 | the live request becomes `Objectified(old)` and the returned record shows exactly the new state |
| Requests.Request.Prepare | lib/requests.js:1345-1348 | one step of `structure()`: the request becomes `Prepared(old, default)`, and its rendering is returned |
| RequestSetModel.NextIntention | lib/requests.js:615-632 | after `add`, the intention is 'action' exactly when it was 'action' already or the hint is missing or 'action' |
| RequestSetModel.ActionIsSticky | lib/requests.js:615-632 | after any sequence of `add` calls the intention is 'action' exactly when it started so or some hint forced it, so it never returns to 'query' |
| RequestSetModel.Lookback | lib/requests.js:540-558 | the request found is in the queue and has the entity looked for |
| RequestSetModel.LookbackIsKthFromEnd | lib/requests.js:540-599 | the lookback returns the (k+1)-th most recent request of the entity, with a non-positive skip count read as 0, and null when there are at most k of them |
| RequestSetModel.LastIndividualOfAppended | lib/requests.js:649-666 | the individual request just enqueued is the one `last_individual_id()` returns, and skipping one more reaches the earlier ones |
| RequestSetModel.ProperFactStoresWhole | lib/requests.js:764-770 | `_ensure_fact` accepts a triple exactly when `fact(s, o, p)` would store all three of its components, and an accepted triple reads back unchanged |
| RequestSetModel.TripleOf | lib/requests.js:589-592 | each component of the triple read back is present exactly when its key is |
| RequestSetModel.FactArgs | lib/requests.js:335-340 | the arguments of a request built from a proper fact read back as exactly that fact |
| RequestSetModel.LastFactOfAppended | lib/requests.js:787-798 | the fact just enqueued is the triple `last_fact_triple()` returns |
| RequestSetModel.ModelArgs | lib/requests.js:1156-1164 | a new request's arguments hold at most "model-id" |
| RequestSetModel.AnnotationReadsBack | lib/requests.js:990-1021 | the request `_op_annotation_to_target` enqueues is an '<op>-annotation' on the target entity; its "values" are one pair per value in the order given; it names a truthy individual id explicitly, holds a fact's triple so that it reads back unchanged, and has "model-id" exactly when a truthy one was given |
| RequestSetModel.EvidenceLinksFloating | lib/requests.js:843-896 | a completed `add_evidence` enqueues exactly three requests: the floating individual with its generated id, its sources on that id, and a last request whose only annotation is ('evidence', that id); with a missing target it stops after two |
| RequestSetModel.PrepareAllIdempotent | lib/requests.js:1331-1353 | a second `structure()` leaves the queue as the first one left it |
| RequestSetModel.StructureBackfills | lib/requests.js:1345-1348 | after `structure()`, a request keeps its truthy model id, one without takes the default, and an implicit individual request is bound to its generated id |
| RequestSets.RequestSet.constructor | lib/requests.js:503-523 | the set starts empty, as a 'query', with falsy token and default model kept as null |
| RequestSets.RequestSet.Add | lib/requests.js:615-632 | the request is appended after the unchanged earlier ones, and the intention becomes `NextIntention(old, hint)` |
| RequestSets.RequestSet.LastIndividualId | lib/requests.js:540-558 | the backward scan returns the identity `LastIndividual` gives for the skip count, and changes nothing |
| RequestSets.RequestSet.LastFactTriple | lib/requests.js:578-599 | the backward scan returns the triple `LastFact` gives for the skip count, and changes nothing |
| RequestSets.RequestSet.GeneratedIssued | lib/requests.js:101-125 | every queued request whose id was not set explicitly carries an id the set's supply has handed out |
| RequestSets.RequestSet.AddIndividual | lib/requests.js:649-666 | with a truthy class expression, one 'individual'/'add' request typed by it is enqueued as an action and its new generated id is returned; that id differs from the generated id of every request queued before, and the individual lookback then finds it first; otherwise nothing changes, no id is drawn and null is returned |
| RequestSets.RequestSet.EnqueueIndividual | lib/requests.js:652-661 | the typed 'individual'/'add' request is enqueued as an action; its id is newly drawn from the supply and is the one the individual lookback finds first |
| RequestSets.RequestSet.RemoveIndividual | lib/requests.js:682-695 | with a truthy id, one 'individual'/'remove' request addressed to it is enqueued as an action; otherwise nothing changes |
| RequestSets.RequestSet.OpTypeToIndividual | lib/requests.js:699-720 | it throws only when operation, class expression and id are all truthy and the operation is neither 'add' nor 'remove'; when all are truthy and the operation is known, one '<op>-type' request is enqueued; otherwise nothing changes |
| RequestSets.RequestSet.AddTypeToIndividual | lib/requests.js:737-741 | with a truthy class expression and id, one 'add-type' request is enqueued; otherwise nothing changes |
| RequestSets.RequestSet.RemoveTypeFromIndividual | lib/requests.js:756-760 | with a truthy class expression and id, one 'remove-type' request is enqueued; otherwise nothing changes |
| RequestSets.RequestSet.AddFact | lib/requests.js:764-798 | an improper fact throws with the queue untouched; otherwise one 'edge'/'add' request holding the triple is enqueued, the triple is returned, and the fact lookback then finds it first |
| RequestSets.RequestSet.RemoveFact | lib/requests.js:815-826 | an improper fact throws with the queue untouched; otherwise one 'edge'/'remove' request holding the triple is enqueued |
| RequestSets.RequestSet.EnqueueFact | lib/requests.js:790-795 | for a proper fact, one 'edge' request of the operation holding the triple is enqueued as an action, and the fact lookback then finds that triple first |
| RequestSets.RequestSet.AddEvidence | lib/requests.js:843-896 | with a falsy evidence id or sources nothing changes; otherwise the floating individual and what `EvidenceTail` prescribes are enqueued, and the errors are those of `EvidenceOutcome`, thrown after the requests already enqueued |
| RequestSets.RequestSet.EnqueueFloating | lib/requests.js:850-853 | the floating evidence individual, typed by the evidence class, is enqueued as a new request object and an action, and its generated id is returned |
| RequestSets.RequestSet.AddEvidenceTail | lib/requests.js:857-893 | after the floating individual: the sources, then the target check, then the link, as `EvidenceTail` prescribes |
| RequestSets.RequestSet.AddEvidenceSources | lib/requests.js:857-863 | sources that are neither string nor array throw before anything is enqueued; otherwise one 'source' annotation request on the floating individual is enqueued |
| RequestSets.RequestSet.AddEvidenceTarget | lib/requests.js:867-892 | a missing target throws, and a non-string target that is not a proper triple throws, both before anything more is enqueued (the outcome is `EvidenceOutcome`); otherwise exactly the link request is enqueued and the intention becomes an action |
| RequestSets.RequestSet.AddEvidenceLink | lib/requests.js:870-892 | one 'evidence' annotation request naming the floating individual is enqueued, on the target individual or on the target fact |
| RequestSets.RequestSet.RemoveEvidence | lib/requests.js:914-923 | with a truthy id, one 'individual'/'remove' request for the evidence individual is enqueued; otherwise nothing changes |
| RequestSets.RequestSet.AddEvidenceToLastIndividual | lib/requests.js:942-951 | `add_evidence` aimed at the individual the lookback finds first, and nothing when there is none |
| RequestSets.RequestSet.AddEvidenceToLastFact | lib/requests.js:969-978 | `add_evidence` aimed at the triple the fact lookback finds first, and nothing when there is none |
| RequestSets.RequestSet.BuildAnnotationTarget | lib/requests.js:994-1014 | the '<op>-annotation' request identifies its target, or the call throws on an improper fact or an unknown target |
| RequestSets.RequestSet.BuildAnnotation | lib/requests.js:994-1018 | the outcome is `AnnotationOutcome`, and when the request is to be enqueued it matches `AnnotationRequest` |
| RequestSets.RequestSet.AnnotateNew | lib/requests.js:1017-1018 | on a request without annotations, values that are neither string nor array throw; otherwise the pairs become its only annotations |
| RequestSets.RequestSet.OpAnnotationToTarget | lib/requests.js:990-1021 | an unknown operation or target, or an improper fact, throws; a falsy key or value enqueues nothing; otherwise exactly one annotation request on the target is enqueued as an action |
| RequestSets.RequestSet.AddAnnotationToModel | lib/requests.js:1036-1040 | `_op_annotation_to_target('add', 'model', …)` |
| RequestSets.RequestSet.RemoveAnnotationFromModel | lib/requests.js:1055-1059 | `_op_annotation_to_target('remove', 'model', …)` |
| RequestSets.RequestSet.AddAnnotationToIndividual | lib/requests.js:1075-1080 | `_op_annotation_to_target('add', 'individual', id, …)` |
| RequestSets.RequestSet.RemoveAnnotationFromIndividual | lib/requests.js:1096-1101 | `_op_annotation_to_target('remove', 'individual', id, …)` |
| RequestSets.RequestSet.AddAnnotationToFact | lib/requests.js:1117-1122 | an improper fact throws with the queue untouched; otherwise `_op_annotation_to_target('add', 'edge', triple, …)` |
| RequestSets.RequestSet.RemoveAnnotationFromFact | lib/requests.js:1138-1143 | an improper fact throws with the queue untouched; otherwise `_op_annotation_to_target('remove', 'edge', triple, …)` |
| RequestSets.RequestSet.UndoLastModelBatch | lib/requests.js:1156-1164 | one 'model'/'undo' request is enqueued, as an action |
| RequestSets.RequestSet.RedoLastModelBatch | lib/requests.js:1177-1185 | one 'model'/'redo' request is enqueued, as an action |
| RequestSets.RequestSet.GetMeta | lib/requests.js:1198-1206 | one 'meta'/'get' request without arguments is enqueued, and the intention is unchanged |
| RequestSets.RequestSet.GetModel | lib/requests.js:1221-1230 | one 'model'/'get' request is enqueued, and the intention is unchanged |
| RequestSets.RequestSet.GetUndoRedo | lib/requests.js:1245-1254 | one 'model'/'get-undo-redo' request is enqueued, and the intention is unchanged |
| RequestSets.RequestSet.AddModel | lib/requests.js:1271-1293 | one 'model'/'add' request carrying the truthy "class-id" and "taxon-id" and nothing else is enqueued, as an action |
| RequestSets.RequestSet.StoreModel | lib/requests.js:1307-1317 | one 'model'/'store' request is enqueued, and the intention is unchanged |
| RequestSets.RequestSet.Structure | lib/requests.js:1331-1353 | every request in the queue is back-filled and objectified in place, even one added twice; the result carries token, intention and the renderings in queue order |
| RequestSets.PrepareEach | lib/requests.js:1340-1349 | each request is back-filled and objectified in place, in queue order, a request queued twice ending as if prepared once, and the renderings come back in order |
| RequestSets.RequestSet.Callable | lib/requests.js:1366-1376 | `structure()` with the request list passed through the encoder |
| RequestSets.AddedIndividualsDiffer | lib/requests.js:649-666 | two individuals added to one set get different ids, whatever runs between the two calls |
| RequestSets.BuildThenStructure | lib/requests.js:1331-1353 | `structure()` can follow a builder (`get_meta`) on the same set; it renders one more request than was queued before, the last being the meta query with only the back-filled default model id, and the intention is unchanged |
| RequestSets.StructureTwice | lib/requests.js:1331-1353 | calling `structure()` twice returns the same result both times |

## Left out

- Callable: JSON stringification and `encodeURIComponent` are foreign encoding primitives. They are an injected `encode` function, so the model only states which list is encoded. The arguments dictionary is a map, so the order in which keys were inserted, which `JSON.stringify` follows, is not kept.
- `bbop.core.uuid` is foreign randomness. It is replaced by a counter whose ids are decimal numerals. The properties above hold for any source of never-repeated non-empty ids.
- Explicit ids: an id a caller passes to `individual()` or a builder is not checked against the supply, so it may equal a generated id (here a numeral such as "0"; in the source, a uuid-shaped string). Uniqueness is promised only among generated ids.
- The class-expression library (`class_expression`, `as_svf`, `as_set`) is not part of this model. Its `structure()` output is an opaque `ExprStructure` recording the constructor and its inputs.
- OpAnnotationToTarget: the untyped `target_identifier` is split into an individual id and a triple. Each target reads only its own.
- AddEvidence: a target is a string or a triple of optional strings. Other non-string targets, such as an array-like object or an array longer than three, are not modelled.
- AddFact, RemoveFact, OpAnnotationToTarget, AddAnnotationToFact, RemoveAnnotationFromFact: a triple given as a string of three or more characters passes `_ensure_fact`, and its first three characters become subject, object and predicate. (`add_evidence` treats a string target as an individual, so it is not affected.) A triple is an `Option<Triple>` here, so that case is not modelled.
- Structure: the returned records share the live arguments dictionaries with the requests. The model returns values, so later edits to a request do not show up in an earlier result.
- The doc-only note that `get_model` and `get_undo_redo` cannot be combined with other requests is not enforced by the source, and not modelled.
- `_last_entity_id` of `request_set` and `_model_id` of `request` are never read or written after construction, so they are not modelled.
- LastIndividualId: the skip count is an integer. A non-numeric count in JavaScript compares false with 0, like the non-positive counts the model covers.
- Triple components and `add_model`'s hash entries are strings or absent. Non-string values for these are not modelled.
- A builder that throws after creating its request has already consumed a generated id. The contracts state that the issued ids only grow, and are unchanged where nothing is built, but not how many ids each builder draws.
- Annotations, Expressions: the source returns the live list, so a caller's later push shows up in the request. The model returns a value.
- `doc/scripts/jsdoc-toc.js` is documentation navigation and `tests/core.tests.js` is the test suite. Neither is modelled; the properties above follow the behaviour the tests check.
