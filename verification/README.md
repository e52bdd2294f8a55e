# Verified model of the plan engine

This project models the core of a service that publishes Arazzo plans as tools
and runs them under policy, and proves properties of the model with Dafny. It
stands beside the Go sources and does not replace them; paths below are relative
to the repository root.

Five parts are modelled.

- **The singleflight TTL cache.** `Singleflight` is the locking protocol of one
  cache as a transition system over any number of concurrent `Get` calls.
  `SingleflightRuns` proves what holds of whole runs: which value a `Get` can
  return, that it returns, and how often a key is loaded. `TtlCache` is the same
  cache as an object on the heap, one method per section of `Get`, each proved to
  be a step of the protocol. `PolicyCache` stacks two such caches, with a plan
  load that calls into the shared level, and proves that the stack fails closed;
  `PolicyCacheProgress` proves that it does not deadlock and finishes, and
  `PolicyCacheTraces` that each level on its own is a run of the protocol.
- **Redaction.** `Pointers` has the JSON Pointer codecs (RFC 6901, sections 3 to
  5), `Redact` the functional effect of masking a list of pointers,
  `PointerTexts` which places the texts of pointers name, and `RedactHeap` the cloning and in-place writing over mutable nodes, proved to
  refine it. Two details of the code are kept: an index token may start with
  `+`, and an index that overflows is malformed rather than missing.
- **The governed run.** `Inputs` is the machinery of reserved input names,
  `HintOrders` what the order of ranging over hints can change, `Policy` the use of
  policy decisions, `Security` the scope check, and `Runner` the pipeline of gates
  with the workflow engine behind it; `CachedRun` puts the policy cache behind its
  policy gate. Policies, the secrets
  provider, the query matcher and the engine are arbitrary functions. Wherever Go
  ranges over a map the model takes the keys in an arbitrary order.
- **Consumer schemas and REST.** `Schema` has the three recursive passes,
  `PassMeanings` what they do member by member, `SourcePlaces` where x-source may
  stand, `Lift` the split of a schema into body and parameters, `Bind` the run-time
  binder that undoes the split and the placement of outputs in headers and body,
  and `RequestBinding` what becomes of a property from its x-source to a request.
- **The catalog.** `SemVer` is version precedence, `Catalog` the plan index and
  its latest versions, `OpenApi` the generated path maps and the references
  between documents; `DocumentedRun` proves that a request made from a document
  is bound to the inputs it was made of.

Some things the code does not quite do, with the exact condition under which it
does them:

- Redaction success depends on the order of the pointers, although the result
  does not (`Redact.SuccessDependsOnOrder`; the exact condition is in
  `Redact.RedactAllMasks`).
- With dots in policy hint keys the flattened inputs, and with them the run, can
  depend on Go's map order (`HintOrders.OrderShowsIffAmbiguous` has the condition,
  `HintOrders.DottedKeysCollide` an instance, `Runners.ClashShows` the run).
- A version text with a NUL can find another plan (`Catalogs.NulFindsAnotherPlan`,
  `Catalog.GetFindsWhatWasAsked`), and a plan id with a NUL has its policy loaded
  under a shorter id (`PolicyCache.SplitUndoesJoin`).
- References write ids as they are: a plan id with `/`, `?`, `#` or `%`, or a
  workflow id with `%`, makes references that do not resolve (`OpenApi.RefResolves`).

## Model

| member | source | states |
|---|---|---|
| Singleflight.ApplyKeepsInv | internal/ttlcache/cache.go:70-115 | every step of any call keeps the protocol invariant: one leader per key, the table holds exactly the unfinished flights, a leader's stale snapshot is the entry until it stores, a published flight delivers what the key holds |
| SingleflightRuns.ReachableInv | internal/ttlcache/cache.go:70-115 | the invariant holds in every state of every interleaving of any number of calls |
| SingleflightRuns.SingleLoadPerKey | internal/ttlcache/cache.go:72-112 | in every reachable state at most one call per key is between its miss and its delete, the flight it deletes is the one it created, and the stale snapshot it carries is the entry |
| SingleflightRuns.EntryFrozen | internal/ttlcache/cache.go:72-112 | over every run, the entry of a key stays as it is from its leader's miss, at the stale snapshot the leader took, until that leader's own store: while it loads and between the load's return and the store |
| SingleflightRuns.WaiterHeld | internal/ttlcache/cache.go:76-79 | a waiter on a finished flight, even one that joined between wg.Done and the delete, has lived through an instant at which its key held what the flight delivers |
| SingleflightRuns.GetReturnsHeldValue | internal/ttlcache/cache.go:70-115 | under every interleaving a Get returns the value its key held at some instant inside the call, or the zero value with an error at an instant with no entry |
| SingleflightRuns.HelperCanStep | internal/ttlcache/cache.go:76-92 | no deadlock: for every unfinished call, it or the leader it waits for can take a step |
| SingleflightRuns.StepApproaches | internal/ttlcache/cache.go:76-115 | no step of any call moves an unfinished Get away from its return, and each step of the call it depends on moves it closer |
| SingleflightRuns.GetCompletes | internal/ttlcache/cache.go:76-115 | a Get has returned once the calls it depends on have taken eight steps, whatever the others do |
| SingleflightRuns.StoresAreSpaced | internal/ttlcache/cache.go:94-112 | with a positive TTL successive stores of a key lie at least a TTL apart |
| SingleflightRuns.LoadRate | internal/ttlcache/cache.go:43-66 | n successful loads of one key have store times spanning at least (n-1) TTLs |
| SingleflightRuns.HitsAreYoung | internal/ttlcache/cache.go:61-75 | a hit happens only with a positive TTL and returns a value stored less than a TTL ago |
| SingleflightRuns.HitsExactly | internal/ttlcache/cache.go:61-75 | a call is answered by the first locked section exactly when the TTL is positive and its key was last stored less than a TTL ago |
| SingleflightRuns.StaleOnError | internal/ttlcache/cache.go:94-104 | a failed load delivers the entry the key still holds, for every TTL including 0, together with the error |
| TtlCache.Cache.constructor | internal/ttlcache/cache.go:43-59 | a new cache is an initial state of the protocol, with a negative TTL stored as 0 |
| TtlCache.Cache.Consult | internal/ttlcache/cache.go:71-85 | the first locked section on the heap is exactly the protocol's consult step: hit, join the flight in the table, or lead with a fresh one |
| TtlCache.Cache.StoreEntry | internal/ttlcache/cache.go:106-112 | the second locked section is the protocol's store step |
| TtlCache.Cache.PublishTo | internal/ttlcache/cache.go:96-114 | writing the flight's value and error is the protocol's publish step |
| TtlCache.Cache.ReleaseWaiters | internal/ttlcache/cache.go:88 | wg.Done is the protocol's release step |
| TtlCache.Cache.DeleteFlight | internal/ttlcache/cache.go:89-91 | the third locked section is the protocol's delete step |
| TtlCache.Cache.WakeUp | internal/ttlcache/cache.go:78-79 | a waiter's return is the protocol's wake step |
| TtlCache.Cache.Get | internal/ttlcache/cache.go:70-115 | a call nobody interferes with returns a fresh entry, or else the load's value and stores it, or else the stale value or zero with the error, and leaves no flight behind |
| PolicyCache.SplitUndoesJoin | internal/plans/policy.go:126-133 | splitting a cache key gives back plan and version if and only if the plan id holds no NUL |
| PolicyCache.NextKeepsInv | internal/plans/policy.go:94-167 | every step of the two-level system keeps both caches' invariants, the provenance of every cached value, and the stage of every get |
| PolicyCache.FailsClosed | internal/plans/policy.go:111-167 | over every run, a get succeeds only with the policies of a compilation for its key (for exactly its plan and version when the plan id has no NUL) of what the loader delivered for them, and with a shared source both the modules that compilation was given and the shared policies are what that source delivered, not the empty ones if the shared load at hand had failed |
| PolicyCache.LoadNeedsLoader | internal/plans/policy.go:111-116 | over every run, a plan load whose loader fails fails, and one whose loader delivers asks the shared cache |
| PolicyCache.LoadNeedsShared | internal/plans/policy.go:117-120 | over every run, a plan load whose own getShared comes back goes on to compile with what that handed over when there was no error or the value is one the source delivered and not the empty one, and otherwise fails |
| PolicyCache.CompilesWithShared | internal/plans/policy.go:117-121 | over every run, whenever a plan load compiles, its own call of the shared cache has returned with no error or with a delivered value that is not the empty one, and that value is what the compilation is given |
| PolicyCache.SharedFallsBack | internal/plans/policy.go:135-148 | a get goes on past the shared level exactly when the shared cache reported no error or handed over a value that the source delivered and that is not the empty one, and records which |
| PolicyCache.PlanFallsBack | internal/plans/policy.go:150-167 | get succeeds exactly when the plan cache reported no error or handed over a value that a load of the key delivered, with modules or without, and returns it with the shared modules |
| PolicyCache.PlanStaysAvailable | internal/plans/policy.go:155-166 | over every run, a get whose key has a plan entry before it comes gets past the plan level, whatever later loads do |
| PolicyCache.SharedStaysAvailable | internal/plans/policy.go:135-148 | over every run, a get that comes while the shared cache holds modules, and finds it so throughout, gets past the shared level, whatever later loads do |
| PolicyCache.LaterGetsSucceed | internal/plans/policy.go:111-167 | over every run, once a key has been loaded, and as long as the shared cache, if any, holds modules, every get of that key that begins later succeeds |
| PolicyCacheTraces.ViewIsTrace | internal/ttlcache/cache.go:70-115 | a view of one cache whose moves are protocol steps or pauses is, without its pauses, a run of the protocol, with every state of the view in it |
| PolicyCacheTraces.PolicyLoadRates | internal/plans/policy.go:92-125 | over every run of the two levels, each level is such a view, and n stored loads of one key at either level span at least (n-1) TTLs; the configured 0 means the default TTL |
| PolicyCacheTraces.NegativeTtlNeverHits | internal/plans/policy.go:92-125 | with a negative TTL neither level ever answers from its cache |
| PolicyCacheTraces.PlanHandsHeld | internal/plans/policy.go:150-167 | what the plan cache hands to a get was held by its key at some instant inside the get's own call, or is nothing with an error at an instant without entry |
| PolicyCacheTraces.SharedHandsHeld | internal/plans/policy.go:135-148 | the same of the shared cache, for gets and for plan loads that come to it |
| PolicyCacheProgress.NoDeadlock | internal/plans/policy.go:111-166 | in every reachable state of the two levels somebody can take a step for every unfinished get |
| PolicyCacheProgress.GetApproaches | internal/plans/policy.go:111-166 | no step sets a get back, and each step taken for it, also by the leader it waits for and inside that leader's load, brings it closer |
| PolicyCacheProgress.GetFinishes | internal/plans/policy.go:111-166 | a policy get is done once 28 steps have been taken for it, since waits go only from the plan level to the shared level |
| CachedRun.GateFailsClosed | internal/plans/runner.go:140-145 | a run under the cache gets past the policy gate only with the four policies of a compilation for the key of the plan and version it was asked for, for exactly these when the plan id has no NUL, and of the shared source; the modules of both were delivered by that source |
| CachedRun.EntryUnderItsPolicies | internal/plans/runner.go:104-163 | for NUL-free plan ids and versions, the plan policies a run evaluates are those of a compilation for the very entry that the engine is invoked on |
| CachedRun.FailedGetEnds | internal/plans/runner.go:142-145 | a cache that fails ends the run before the engine |
| Pointers.UnescapeToken | internal/plans/redact.go:112-130 | the byte loop with its builder computes the recursive decoder, including the bad-escape error |
| Pointers.ParsePointer | internal/plans/redact.go:93-110 | the loop over the split parts computes the recursive parser, including the malformed-pointer error |
| Pointers.UnescapeEscape | internal/plans/openapi.go:314-318 | decoding an escaped token gives the token back, for every token |
| Pointers.EscapeUnescape | internal/plans/redact.go:112-130 | escaping a decoded token gives the token back, for every valid slash-free token |
| Pointers.TwoPassAgrees | examples/petstore/mcp-server/executor.go:339-342 | the executor's two replacements decode every valid token as the one-pass decoder does |
| Pointers.ParseFormat | internal/plans/redact.go:93-110 | parsing the pointer made of a token list returns the list |
| Pointers.FormatParse | internal/plans/redact.go:93-110 | every pointer that parses is the one made of its tokens |
| Pointers.ParseOperationPathInverts | examples/petstore/mcp-server/executor.go:323-337 | an operation path built from a document, an escaped path and a method is taken apart into that path and method |
| Redact.SetPointerAdds | internal/plans/redact.go:132-168 | writing one pointer into an already masked document equals masking one more location of the original |
| Redact.RedactAllMasks | internal/plans/redact.go:50-82 | redaction succeeds exactly when no pointer is malformed where it is read, and then equals masking all resolved locations of the original at once |
| Redact.RedactOrderIndependent | internal/plans/redact.go:50-82 | any two orderings of the same pointers that both succeed give the same document |
| Redact.SuccessDependsOnOrder | internal/plans/redact.go:132-168 | an instance in which one order succeeds and the other fails: a bad index below a location masked first is never read |
| Redact.OutsideUnchanged | internal/plans/redact.go:132-168 | nothing outside the masked locations changes |
| Redact.PointersMaskedOrMissing | internal/plans/redact.go:50-82 | after redaction every listed pointer is missing or holds the mask |
| PointerTexts.SpelledIndex | internal/plans/redact.go:170-182 | the decimal text of i, or that behind a plus sign and any zeros, is slot i of the array, missing past its end, and malformed past the 64-bit integers |
| PointerTexts.OnlySpelled | internal/plans/redact.go:170-182 | every other text is malformed |
| PointerTexts.PlaceMasked | internal/plans/redact.go:50-82 | redaction by the pointer that spells a place of the document leaves the mask there and every place neither above nor below it as it was |
| PointerTexts.ElementMasked | internal/plans/redact.go:132-182 | the pointer made of a key and a text of i replaces element i of the array at that key, and nothing else |
| PointerTexts.NoElement | internal/plans/redact.go:132-182 | an index past the end leaves the document alone, and one past the integers refuses the redaction |
| PointerTexts.NotAnIndex | internal/plans/redact.go:132-182 | a text that spells no index refuses the redaction |
| RedactHeap.CloneValue | internal/plans/redact.go:12-46 | the clone is a fresh tree with the value of the original, which may share subtrees |
| RedactHeap.SetInPlace | internal/plans/redact.go:132-168 | the in-place write changes the tree's value as the functional one does, inside the tree's own footprint |
| RedactHeap.ApplyRedact | internal/plans/redact.go:50-65 | redaction on the heap terminates, returns a fresh tree whose value is the functional result, and writes to no node that existed before |
| Inputs.StripPrefixed | internal/plans/policy.go:471-481 | whatever the range order, the result is a new map holding exactly the entries not reserved under the key |
| Inputs.Flatten | internal/plans/policy.go:504-512 | the map ends as some order of ranging over the object, and over every map below it, leaves it write by write |
| Inputs.FollowFlattens | internal/plans/policy.go:504-512 | whatever the order, the map gains exactly the flat keys of the nested paths, each with the value of a path so spelled, and nothing else changes |
| Inputs.FlattenRefinesNested | internal/plans/policy.go:504-512 | with dot-free hint keys, for every list of dot-free names the flat key holds the nested value if that path exists and is as before if not, so a new flat key exists exactly when the nested path does |
| HintOrders.FlattenDeterministic | internal/plans/policy.go:504-512 | with dot-free hint keys every visiting order gives the same map |
| HintOrders.LastWins | internal/plans/policy.go:504-512 | for every nested path there is a visiting order that leaves its value under its flat key |
| HintOrders.OrderShowsIffAmbiguous | internal/plans/policy.go:504-512 | two visiting orders give different maps if and only if two paths with different values are spelled alike |
| HintOrders.DottedKeysCollide | internal/plans/policy.go:504-512 | an instance: two orders of one object with a dotted key, and their two results |
| Inputs.NamedIsReserved | internal/plans/policy.go:504-512 | every key that flattening writes lies strictly under the prefix and its dot |
| Inputs.InjectSecrets | internal/plans/policy.go:483-502 | the map gains exactly the part built from the provider's answers, and is unchanged when any answer is an error |
| Inputs.SecretArrives | internal/plans/policy.go:483-502 | each secret asked for is under its flat key with the text the provider gave |
| Inputs.SecretsNested | internal/plans/policy.go:483-502 | and in the nested bag, which holds exactly the names asked for |
| Inputs.ReservedNames | arazzo/inputs.go:8-16 | the reserved names are policyHints, secrets, and what follows either after a dot |
| Policy.ApplyInbound | internal/plans/policy.go:407-428 | the outcome is one the decision allows, in a new map; the caller's map is only read |
| Policy.InboundKeepsOthers | internal/plans/policy.go:407-428 | a policy decision can add or change hint keys only |
| Policy.ForgedHintsIgnored | internal/plans/policy.go:407-428 | inputs that differ only in hint keys have the same outcomes |
| Policy.InboundDeterministic | internal/plans/policy.go:407-428 | unless the decision's hints clash there is one outcome, whatever the map iteration order |
| Policy.InboundOrderShows | internal/plans/policy.go:407-428 | two outcomes are possible if and only if the decision allows with hints two of whose paths are spelled alike |
| Policy.SharedGate | internal/plans/policy.go:396-405 | a shared policy lets a run go on, in either phase, exactly when its answer is a decision whose member allow is true; otherwise the error names the phase and the decision's reason |
| Policy.InboundDecides | internal/plans/policy.go:407-428 | a plan policy lets a run in exactly when its answer has allow true and hints that are absent, null or an object, with the matching errors |
| Policy.HintsArrive | internal/plans/policy.go:407-428 | the inputs gain the decision's hints under policyHints and, where names hold no dot, each nested value under its dotted path |
| Policy.OutboundDelivers | internal/plans/policy.go:430-461 | outputs leave exactly when the answer has allow true and its members can be applied: as its outputs object, or with every pointer that redact lists masked at once by a text or null mask |
| Policy.OutboundRefuses | internal/plans/policy.go:430-461 | otherwise the error is that of the evaluation, or names the phase and, where the policy refused, the decision's reason |
| Policy.ReservedApart | arazzo/inputs.go:8-16 | no name is reserved both as a hint and as a secret |
| Security.ScopesSatisfied | internal/plans/security.go:520-550 | true exactly when some group has all its non-blank scopes held |
| Security.SatisfiedMonotone | internal/plans/security.go:520-550 | holding more scopes never loses access |
| Security.CheckWorkflowScopes | internal/plans/security.go:552-572 | passes exactly when the security parses and is empty or satisfied by a present client's scopes, with the matching errors |
| Runners.Runner.Run | internal/plans/runner.go:104-192 | a run passes its gates in order until one refuses, delivers outputs only past the last, fails with the error of the gate that refused, and writes to none of the caller's maps |
| Runners.EngineBehindGates | internal/plans/runner.go:104-166 | the workflow engine is invoked in a run exactly when find, scopes, binding, closed inputs, secrets and policy load let it through, the shared and the plan inbound policies answer the prepared inputs with allow true and fitting hints, and there is an executor |
| Runners.InboundAllows | internal/plans/runner.go:147-160 | past each inbound gate its policy has answered the prepared inputs with allow true |
| Runners.InboundDenies | internal/plans/runner.go:147-160 | a run that gets to an inbound policy which does not answer so ends there |
| Runners.OutputsAllowed | internal/plans/runner.go:167-192 | outputs are returned only if every present outbound policy answered them with allow true, and are what the plan decision makes of the outputs of the engine |
| Runners.OutboundDenies | internal/plans/runner.go:178-190 | a run whose engine succeeded ends without outputs at an outbound policy that does not allow them |
| Runners.SecretsReachEngine | internal/plans/runner.go:133-140 | every secret asked for is among the engine's inputs with the provider's text |
| Runners.DeliversIfAllowed | internal/plans/runner.go:104-192 | a run that delivers had scopes held, listed inputs, the secrets, an engine that succeeded on them, and all four policies allowing; what it delivers is what the plan policy makes of the engine's outputs |
| Runners.Runner.CallIsOwn | internal/plans/runner.go:104-160 | what a run depends on are the runner's own policy, secrets and executor, the entry the catalog finds, and its first workflow with that id |
| Runners.Runner.FoundIsAsked | internal/plans/runner.go:104-120 | for versions without a NUL that entry is of the plan and version asked for |
| Runners.WorkflowSees | internal/plans/runner.go:133-163 | the inputs handed to the engine are three parts without a common key: the accepted bound inputs unchanged, secrets from the provider alone, hints from the inbound decision alone |
| Runners.RunDeterministic | internal/plans/runner.go:104-192 | unless the run reaches an inbound decision whose hints clash, every finished run of the same call has the same events and outputs, whatever the iteration orders |
| Runners.ClashShows | internal/plans/runner.go:104-192 | a run that reaches such a decision can be finished in two different ways |
| Runners.TransportsAgree | internal/plans/runner.go:121-135 | inputs sent by REST, lifted ones in the request and the rest in the body, give exactly the runs, outputs and errors of the call made with the inputs directly |
| Runners.Runner.RunsAlike | internal/plans/runner.go:104-192 | the same, for the calls a runner makes of its own catalog, policies and secrets |
| Runners.Runner.LoadedParses | internal/plans/catalog.go:105-115 | the security and the inputs of a loaded workflow always decode in a run |
| Runners.Accept | internal/plans/runner.go:105-131 | find, scopes, REST binding and the closed-input check, in that order; ends exactly where no continuation exists |
| Runners.Govern | internal/plans/runner.go:133-157 | secrets, policy load, shared and plan inbound, in that order; ends exactly where no continuation exists |
| Runners.Execute | internal/plans/runner.go:159-192 | executor, engine, shared and plan outbound, in that order; ends exactly where no continuation exists |
| Runners.BindCall | internal/plans/runner.go:121-127 | without a request the caller's inputs are used; with one, binding succeeds exactly when the request can be bound, in any order of the parameters |
| Runners.Runner.Query | internal/plans/runner.go:222-272 | without a usable match nothing runs; with one it is a run of the matched entry under its own id and version that gets past the find gate |
| Runners.Runner.QueryRuns | internal/plans/runner.go:222-265 | a query is run exactly when it is not blank and the matcher names a plan and a workflow of an entry it means: the one under its own version or, where that is blank, the first loaded of highest precedence |
| Runners.Runner.QueryRunsMeant | internal/plans/runner.go:243-271 | the run is of the entry meant, of the matched workflow, on the inputs of the match or else the data |
| Runners.Runner.ResolvedIsFound | internal/plans/runner.go:243-271 | Run's lookup finds the entry Query resolved, by latest version or by name |
| Schema.PassesAgree | internal/plans/schema.go:493-560 | the reserved, closing and vendor passes are each idempotent and commute pairwise on all schema trees |
| PassMeanings.PassMeans | internal/plans/schema.go:493-567 | each pass does to every schema it reaches exactly what it is for: the closing pass sets additionalProperties to false where the schema may describe an object, the vendor pass drops x-source, the reserved pass drops reserved properties and required names; no other member changes |
| PassMeanings.ConsumersSeeClosed | internal/plans/schema.go:77-94 | the inputs schema of a tool and the body schema left by the split allow no further properties wherever the closing pass reaches a schema that may describe an object, and hold no x-source |
| SourcePlaces.PlacementExact | internal/plans/schema.go:654-719 | the placement check passes exactly when every x-source at a place it visits is on a property of the schema itself |
| Schema.RunPass | internal/plans/schema.go:493-560 | the loops over a schema's members compute the pass |
| Schema.ConsumerInputKeys | internal/plans/schema.go:569-590 | collects exactly the property names of the schema and of its alternatives, recursively |
| Schema.PassKeepsKeys | internal/plans/schema.go:493-560 | closing and vendor passes keep the consumer keys; the reserved pass removes exactly the reserved ones |
| Schema.ConsumerKeys | internal/plans/schema.go:77-94 | the keys callers may send are the author's minus the reserved ones |
| Schema.SourceFreeWalks | internal/plans/schema.go:654-719 | a schema without x-source where the check looks passes the placement check everywhere |
| Schema.VendorRemovesSources | internal/plans/schema.go:98-141 | after the vendor pass no x-source is left at any position the placement check visits |
| Lift.SplitInputs | internal/plans/schema.go:145-199 | for any key order the split lifts each liftable property once and leaves the body schema |
| Lift.SplitConserves | internal/plans/schema.go:145-232 | lifted parameters and body partition the consumer properties, each with its own schema less the vendor members, and the required list is conserved between them |
| Lift.NothingLeftEmpty | internal/plans/schema.go:185-199 | the split leaves no empty properties and no empty required list behind |
| Lift.LiftExact | internal/plans/schema.go:201-257 | a property is lifted exactly when its x-source, trimmed and in lower case, reads interface rest, protocol http or none, and in header, cookie or query; its place is that text and its name the trimmed name, or the key if that is blank |
| Lift.LiftOutputExact | internal/plans/schema.go:875-915 | an output is lifted exactly when its x-source says so of a response header, under the name it gives |
| Lift.OutputStays | internal/plans/schema.go:875-891 | an output stays in the body exactly when it has no x-source or one for MCP |
| Lift.SplitOutputs | internal/plans/schema.go:773-873 | succeeds exactly when the schema speaks only of declared outputs, every x-source lifts and no header is used twice; the headers are the lifted outputs and the body is the schema of the others |
| Lift.OutputsConserve | internal/plans/schema.go:773-873 | headers and body partition the outputs, each output keeps its own schema less the vendor members, and a required output is required on the side it went to |
| Bind.MergeInputs | internal/plans/bind.go:34-53 | binds exactly when no body key is a parameter and no required parameter is missing, and then to the union of the two |
| Bind.BindInputs | internal/plans/bind.go:23-32 | binds against the parameters lifted from the consumer schema, and otherwise names a parameter that is in the body or required and missing |
| Bind.RestRebuildsInputs | internal/plans/bind.go:23-79 | sending the lifted keys in the request and the rest in the body rebuilds exactly the MCP inputs |
| Bind.RestMatchesMcp | internal/plans/schema.go:145-232 | whatever texts the transport can carry, REST reaches exactly the inputs maps that can travel: lifted values are trimmed non-empty text that fits its slot, required ones are present, and no two values conflict over a slot |
| RequestBinding.RequestBinds | internal/plans/bind.go:34-82 | a property whose author says it comes from a header, cookie or query parameter is bound to the text the request holds under that name, trimmed; where it holds none or a blank the property is not bound, and nothing is if the author requires it |
| RequestBinding.OutputTravels | internal/plans/bind.go:84-128 | text of an output whose author says it goes in a header leaves in the header of that name, trimmed, and not in the body |
| Bind.LiftedKeysAccepted | internal/plans/runner.go:279-287 | a lifted parameter is always an input the author listed and not a reserved one |
| Bind.ClosedByBody | internal/plans/runner.go:129-131 | over REST the rebuilt inputs pass the closed-input check exactly when the body alone does |
| Bind.RejectUnexpected | internal/plans/runner.go:274-289 | passes exactly when every key is one the author listed and none is reserved |
| Bind.SplitRESTOutputs | internal/plans/bind.go:84-120 | succeeds exactly when no output is refused, and places every output in exactly one of body and header, dropping only optional values that format to blank |
| SemVer.PrecedenceIsTotalOrder | internal/plans/catalog.go:201-220 | precedence of parsed versions is total, antisymmetric up to equal meaning, and transitive (section 11 of Semantic Versioning 2.0.0) |
| SemVer.PrecedenceRule | internal/plans/catalog.go:211-218 | the comparison puts one version below another exactly by section 11's rule: by the first difference, numeric below alphanumeric, longer above its prefix, prerelease below release |
| SemVer.ParsesExactlyTexts | internal/plans/catalog.go:229-244 | a string is a valid version with that meaning exactly when it is one of its texts: the short forms, or three numbers without leading zeros with an optional prerelease and any build metadata |
| SemVer.ValidChars | internal/plans/catalog.go:239-244 | a valid version holds no NUL and only version characters after its v |
| Catalogs.PlanVersions | internal/plans/catalog.go:239-244 | a plan version is accepted exactly when, behind a v, it is a text of a semantic version |
| Catalogs.CheckWorkflows | internal/plans/catalog.go:105-115 | passes exactly when every workflow with an id decodes, has x-source only where it is allowed, and has outputs that can be split and security that parses |
| Catalogs.Catalog.AddSource | internal/plans/catalog.go:80-132 | adds an entry exactly when the source is worth one and that plan version is not loaded, keeps byKey in bijection with entries, and otherwise changes nothing and reports the matching error |
| Catalogs.FoundIffLoaded | internal/plans/catalog.go:247-250 | a key is in the index exactly when that plan version is loaded, for every NUL-free version text |
| Catalogs.Catalog.GetFindsWhatWasAsked | internal/plans/catalog.go:247-250 | a found entry is the one asked for exactly when the version text holds no NUL |
| Catalogs.NulFindsAnotherPlan | internal/plans/catalog.go:49-51 | the failing family: a plan whose id holds a NUL is found under the shorter id |
| Catalogs.Catalog.SegmentFindsEntry | internal/plans/catalog.go:253-259 | the version segment of an entry leads back to it |
| Catalogs.Catalog.SegmentFindsWhatWasAsked | internal/plans/catalog.go:253-259 | an entry found by segment has that plan id and segment exactly when the segment holds no NUL |
| Catalogs.PickLatest | internal/plans/catalog.go:201-227 | the first version of highest precedence when all have a canonical form, the last in string order otherwise, empty for none |
| Catalogs.FallbackUnreachable | internal/plans/catalog.go:201-244 | every version of a loaded plan has a canonical form, so the string-order fallback is never reached |
| Catalogs.Catalog.ComputeLatest | internal/plans/catalog.go:191-199 | latest names, for exactly the loaded plans, the first loaded version that no other outranks |
| Catalogs.Catalog.LatestFindsNewest | internal/plans/catalog.go:268-274 | Latest answers exactly for loaded plans, with an entry no other version of the plan outranks |
| Catalogs.Catalog.LatestIsHighest | internal/plans/catalog.go:191-227 | by the texts of the versions, no loaded version of the plan stands above the latest one in the order of section 11, and one that stands beside it was loaded later |
| Catalogs.Load | internal/plans/catalog.go:54-78 | a catalog is returned only when every loader answered and no source was an error, and holds what the sources in order leave behind; an error is that of the first failing source |
| Catalogs.OrderBarelyMatters | internal/plans/catalog.go:54-78 | two catalogs of the same entries answer every lookup alike, and name latest versions of equal precedence |
| OpenApi.OpenAPIPaths | internal/plans/openapi.go:116-170 | the document is built exactly when every workflow's schemas can be split; it has exactly the plan's execute paths, each with an operation that says of every input and output of the last workflow with that path where it travels |
| OpenApi.LoadedBuilds | internal/plans/catalog.go:105-115 | what addSource checks is what the document needs: the document of a loaded plan can always be built |
| OpenApi.CatalogPaths | internal/plans/openapi.go:265-286 | every path a latest version offers is a reference into the last such plan in id order; everything else is the process's own |
| OpenApi.OwnPathsStand | internal/plans/openapi.go:265-286 | no plan takes the place of the process's own operations: the list of tools is always there, and the query exactly when it is enabled |
| OpenApi.RefsHaveTargets | internal/plans/openapi.go:265-286 | every reference names a loaded plan whose latest document can be built and has the path the reference stands at |
| OpenApi.PrefixIsAbsolute | internal/plans/openapi.go:47-56 | the prefix is the configured one behind a slash, less the slashes at its end; the default is /api |
| OpenApi.VersionedPathLeads | internal/plans/openapi.go:307-312 | with slash-free ids the segments of a versioned execute path name the plan, lead by the version segment back to the entry, and name the workflow |
| OpenApi.LatestPathLeads | internal/plans/openapi.go:307-312 | with slash-free ids the segments of a latest path name the plan and the workflow |
| OpenApi.RefResolves | internal/plans/openapi.go:83-85 | a reader that cuts at '#' and '?', takes one path segment and percent-decodes is led to the plan and path if and only if the plan id is a plain segment (not empty, not a dot segment, without '/', '?', '#' or '%') and the path holds no '%' |
| OpenApi.RefsDiffer | internal/plans/openapi.go:83-85 | references to different plans or paths differ |
| OpenApi.OwnReference | internal/plans/openapi.go:265-286 | the reference at a workflow's path is to its own plan if and only if no later plan id offers the same path |
| OpenApi.OneReferenceEach | internal/plans/openapi.go:307-312 | with slash-free ids every latest workflow has exactly one reference, to its own plan |
| DocumentedRun.SameParameters | internal/plans/schema.go:145-199 | the parameters a document lists for a workflow and those the binder reads are the same, in whatever order each was lifted |
| DocumentedRun.DocumentedRequestRuns | internal/plans/bind.go:23-53 | a request made from the document, the listed parameters in their slots and the other inputs in the body, binds to the inputs it was made of and has exactly their outcomes |
| DocumentedRun.DocumentedPlaces | internal/plans/openapi.go:116-170 | an input travels in the body exactly when the document lists no parameter for it, and then the document has a body schema that lists it |
| DocumentedRun.DocumentedBody | internal/plans/schema.go:478-488 | a document has no request body exactly when it lists parameters for all inputs; otherwise the body schema is what the split left |
| DocumentedRun.DocumentedParameter | internal/plans/schema.go:201-232 | the document lists a property that comes by HTTP under the place and name its author gives, required if the author requires it |
| DocumentedRun.DocumentedBodyClosed | internal/plans/schema.go:532-560 | the body schema a document shows is closed and holds no x-source |

## Left out

- A load that panics, context cancellation, logging, and errors' texts beyond the cases told apart above.
- The loader, OPA, libopenapi, YAML decoding, JSON Schema validation and the workflow engine are arbitrary functions; decoded documents are JSON trees with a key order.
- `PolicyCache` is modelled as a transition system on values; the two cache objects on the heap are those of `TtlCache`, and the loads inside are single steps that may answer anything.
- The schema passes and `applyOutbound` are modelled on values: subtrees shared between schemas and updated in place are not captured. `RedactHeap` is the heap form of redaction.
- TtlCache.Cache.Get: is the call that nobody interferes with; calls that meet a flight or interleave are sequences of the class's other methods, each a protocol step, and `SingleflightRuns` is about those.
- Catalog entries are values: an entry is never changed after it is added, so object identity is not modelled.
- The runner's history is that of runs one after another; its fields are not changed during a run.
- The answers of policy source, provider, matcher and engine are functions of their arguments for the run at hand.
- The policy's input holds the workflow inputs and outputs only; plan, version, workflow and request context are fixed for a run and part of the arbitrary query.
- Strings are sequences of characters; `strings.ToLower` is modelled on ASCII letters, and header names are compared by lower case instead of canonical form.
- A request is the first value in each header, cookie or query slot; parsing of HTTP is not modelled, and which texts a slot can carry is an arbitrary predicate, of which only this is assumed: a slot that carries a text carries it trimmed.
- Percent-decoding in references gives one character per escape; UTF-8 sequences of escapes are not put together.
- Workflow summaries, the common parameters of the deployment and their collision checks.
- `nativeOutputs` is the identity here, since outputs are JSON values already.
- Of the generated documents, execute paths, parameters, body schemas, response headers and references are modelled; titles, summaries, security and servers are not.
- golang.org/x/mod/semver is not part of the repository; `SemVer` follows Semantic Versioning 2.0.0 and the short forms.
- `sort.Strings` in the string-order fallback is modelled by its last element, and in the catalog document by insertion into an ascending list.
- HTTP server, MCP gateway, controllers, templates, OAuth field validation, file loaders and the executor's requests: plumbing, or members of one branch each.
