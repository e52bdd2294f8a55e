// A run of internal/plans/runner.go under the cache of internal/plans/policy.go:
// what the policy gate lets through is what the cache compiled.
module CachedRun {
  import opened Outcomes
  import Inputs
  import Policy
  import PolicyCache
  import Runners

  // What a prepared query means when it is evaluated.
  type Meaning = PolicyCache.Query -> Policy.Query

  function Meant(meaning: Meaning, q: Option<PolicyCache.Query>): Option<Policy.Query> {
    match q case None => None case Some(prepared) => Some(meaning(prepared))
  }

  // compiledPolicy, as Run evaluates it.
  function BundleOf(meaning: Meaning, cp: PolicyCache.Compiled): Runners.Bundle {
    Runners.Bundle(Meant(meaning, cp.sharedInbound), Meant(meaning, cp.sharedOutbound),
                   Meant(meaning, cp.inbound), Meant(meaning, cp.outbound))
  }

  // The answer a run gets from get g of the cache, which is done.
  function Answer(meaning: Meaning, get: PolicyCache.Get): Result<Runners.Bundle, ()>
    requires get.Done?
  {
    match get.result case Err(_) => Err(()) case Ok(cp) => Ok(BundleOf(meaning, cp))
  }

  // The run asked the cache, by get g, for the plan and version it was asked for.
  ghost predicate Asked(s: PolicyCache.Sys, g: nat, meaning: Meaning, call: Runners.Call) {
    && g in s.gets && s.gets[g].Done?
    && s.gets[g].planID == call.planID && s.gets[g].version == call.version
    && call.policy == Some(Answer(meaning, s.gets[g]))
  }

  // The run evaluates exactly the prepared query, if there is one.
  ghost predicate Evaluates(meaning: Meaning, prepared: Option<PolicyCache.Query>, q: Option<Policy.Query>) {
    (prepared.None? <==> q.None?) && (prepared.Some? ==> q == Some(meaning(prepared.value)))
  }

  // A run under the cache gets past the policy gate only with the plan policies
  // of a compilation for the key of the plan and version it was asked for - for
  // exactly these when the plan id holds no NUL - of what the loader delivered
  // for them, and with shared policies. Both those and the modules of the
  // compilation were delivered by the shared source, if there is one, and are
  // not the empty ones if the shared load at hand had failed.
  lemma GateFailsClosed(run: PolicyCache.Run, ttl: int, n: nat, g: nat, meaning: Meaning,
                        call: Runners.Call, es: seq<Runners.Event>)
    returns (made: PolicyCache.Compilation)
    requires PolicyCache.ValidRun(run, ttl) && n < |run.states|
    requires Asked(run.states[n], g, meaning, call)
    requires Runners.Chain(call, es) && |es| > 5
    ensures var s := run.states[n];
            var get := s.gets[g];
            var bundle := Runners.BundleOf(call);
            && made in s.compilations && (made.of, made.fetched) in s.fetches
            && made.of == PolicyCache.SplitKey(PolicyCache.Key(call.planID, call.version))
            && ('\0' !in call.planID ==> made.of == (call.planID, call.version))
            && Evaluates(meaning, made.compiled.inbound, bundle.inbound)
            && Evaluates(meaning, made.compiled.outbound, bundle.outbound)
            && Evaluates(meaning, get.sh.inbound, bundle.sharedInbound)
            && Evaluates(meaning, get.sh.outbound, bundle.sharedOutbound)
            && PolicyCache.SharedOk(s, made.modules, made.stale) && PolicyCache.SharedOk(s, get.sh, get.stale)
  {
    Runners.ChainAt(call, es, 5);
    made := PolicyCache.FailsClosed(run, ttl, n, g);
  }

  // For NUL-free plan ids and versions, the entry a run executes is the one its
  // policies were compiled for.
  lemma EntryUnderItsPolicies(run: PolicyCache.Run, ttl: int, n: nat, g: nat, meaning: Meaning,
                              r: Runners.Runner, ctx: Runners.Context, planID: string, version: string,
                              workflowID: string, inputs: Inputs.Fields, es: seq<Runners.Event>)
    returns (made: PolicyCache.Compilation)
    requires PolicyCache.ValidRun(run, ttl) && n < |run.states| && r.catalog.Indexed()
    requires '\0' !in planID && '\0' !in version
    requires var call := r.CallOf(ctx, planID, version, workflowID, inputs);
             Asked(run.states[n], g, meaning, call) && Runners.Chain(call, es) && |es| > 8
    ensures var bundle := Runners.BundleOf(r.CallOf(ctx, planID, version, workflowID, inputs));
            && es[8].Invoked? && made in run.states[n].compilations && made.of == (es[8].e.planID, es[8].e.version)
            && Evaluates(meaning, made.compiled.inbound, bundle.inbound)
            && Evaluates(meaning, made.compiled.outbound, bundle.outbound)
  {
    var call := r.CallOf(ctx, planID, version, workflowID, inputs);
    Runners.ChainAt(call, es, 8);
    made := GateFailsClosed(run, ttl, n, g, meaning, call, es);
    r.catalog.GetFindsWhatWasAsked(planID, version);
  }

  // A cache that fails ends the run before the engine.
  lemma FailedGetEnds(get: PolicyCache.Get, meaning: Meaning, call: Runners.Call, es: seq<Runners.Event>)
    requires get.Done? && get.result.Err? && call.policy == Some(Answer(meaning, get))
    requires Runners.Chain(call, es)
    ensures |es| <= 5 && forall i :: 0 <= i < |es| ==> !es[i].Invoked?
  {
    if |es| > 5 {
      Runners.ChainAt(call, es, 5);
    }
    forall i | 0 <= i < |es| && es[i].Invoked?
      ensures i == 8
    {
      Runners.InvokedIsNinth(call, es, i);
    }
  }
}
