/**
  The parts of a configuration that decide which account may serve a request.
 */
module Accounts {
  // What an account declares, what a route asks for, and how a route target resolves to a
  // model of an account.  Selection, readiness and continuation build on the same resolution.

  import opened GoText

  /** `features` holds the status recorded under each capability feature key. */
  datatype Capability = Capability(
    model: string, upstreamModel: string, status: string, efforts: seq<string>, features: map<string, string>)

  datatype Account = Account(
    id: string, kind: string, adapterId: string, enabled: bool, models: seq<string>, modelMap: map<string, string>,
    capabilities: seq<Capability>, operations: seq<string>, priority: int, weight: int, concurrency: int)

  datatype Target = Target(account: string, credential: string, model: string, effort: string)

  datatype Route = Route(
    strategy: string, targets: seq<Target>, accounts: seq<string>, allAccounts: bool, upstreamModel: string,
    model: string, effort: string)

  /** What a route that does not exist looks like to the code that reads it. */
  const NO_ROUTE := Route("", [], [], false, "", "", "")

  datatype Requirements = Requirements(features: seq<string>, effort: string, continuation: bool)

  const NOTHING_REQUIRED := Requirements([], "", false)

  const MESSAGES := "anthropic.messages"

  // ---- Operations ---------------------------------------------------------------------------

  function DefaultOperations(kind: string): seq<string> {
    if ToLower(TrimSpace(kind)) == "anthropic" then [MESSAGES]
    else ["openai.chat", "openai.responses", "openai.embeddings", "openai.images", "openai.rerank"]
  }

  function Operations(a: Account): seq<string> {
    if |a.operations| == 0 then DefaultOperations(a.kind) else a.operations
  }

  predicate SupportsOperation(a: Account, operation: string) {
    operation in Operations(a)
  }

  // ---- Models ---------------------------------------------------------------------------------

  predicate SupportsTargetModel(a: Account, model: string) {
    |a.models| == 0 || "*" in a.models || model in a.models || model in a.modelMap.Values
  }

  predicate SupportsModel(a: Account, model: string) {
    |a.models| == 0 || "*" in a.models || model in a.models || model in a.modelMap
    || exists c :: c in a.capabilities && c.model == model
  }

  /** The first capability that satisfies a condition. */
  function FirstCapability(cs: seq<Capability>, wanted: Capability -> bool): (r: Option<Capability>)
    ensures r.Some? ==> r.value in cs && wanted(r.value)
    ensures r.None? ==> forall c :: c in cs ==> !wanted(c)
  {
    if |cs| == 0 then None else if wanted(cs[0]) then Some(cs[0]) else FirstCapability(cs[1..], wanted)
  }

  const UNSUPPORTED := "unsupported"
  const UNKNOWN := "unknown"

  function MappedModel(a: Account, requested: string): string {
    if requested in a.modelMap then a.modelMap[requested] else ""
  }

  function UpstreamModel(a: Account, requested: string, routeModel: string): string {
    if routeModel != "" then routeModel
    else if MappedModel(a, requested) != "" then MappedModel(a, requested)
    else
      match FirstCapability(a.capabilities, (c: Capability) => c.model == requested && c.status != UNSUPPORTED)
      case None => requested
      case Some(c) => c.upstreamModel
  }

  function RequestUpstreamModel(a: Account, requested: string, routeModel: string, req: Requirements): string {
    if req.effort != "" && req.effort != "auto" && routeModel == "" && MappedModel(a, requested) == "" then
      match FirstCapability(a.capabilities, (c: Capability) => c.model == requested && c.status != UNSUPPORTED && req.effort in c.efforts)
      case None => UpstreamModel(a, requested, routeModel)
      case Some(c) => c.upstreamModel
    else UpstreamModel(a, requested, routeModel)
  }

  // ---- Features ---------------------------------------------------------------------------------

  function FeatureKey(operation: string, feature: string, effort: string, credential: string): string {
    operation + ":" + feature + (if effort != "" && effort != "auto" then "#" + effort else "")
    + (if credential != "" then "@" + credential else "")
  }

  predicate Denied(c: Capability, key: string) {
    key in c.features && c.features[key] == UNSUPPORTED
  }

  predicate FeatureDenied(c: Capability, operation: string, feature: string, effort: string, credential: string) {
    Denied(c, FeatureKey(operation, feature, "auto", "")) || Denied(c, FeatureKey(operation, feature, effort, ""))
    || Denied(c, FeatureKey(operation, feature, "auto", credential)) || Denied(c, FeatureKey(operation, feature, effort, credential))
  }

  /** requirementsCompatible: only explicit negative facts exclude an account. */
  predicate Compatible(a: Account, upstreamModel: string, operation: string, features: seq<string>, credential: string, effort: string) {
    forall c :: c in a.capabilities && c.upstreamModel == upstreamModel ==>
      c.status != UNSUPPORTED && !FeatureDenied(c, operation, "call", effort, credential)
      && forall f :: f in features ==> !FeatureDenied(c, operation, f, effort, credential)
  }

  /** The same, as the two loops that look for a negative fact. */
  method RequirementsCompatible(a: Account, upstreamModel: string, operation: string, features: seq<string>, credential: string, effort: string)
    returns (ok: bool)
    ensures ok == Compatible(a, upstreamModel, operation, features, credential, effort)
  {
    hide FeatureDenied;
    var i := 0;
    while i < |a.capabilities|
      invariant 0 <= i <= |a.capabilities|
      invariant forall j :: 0 <= j < i && a.capabilities[j].upstreamModel == upstreamModel ==> a.capabilities[j].status != UNSUPPORTED
    {
      if a.capabilities[i].upstreamModel == upstreamModel && a.capabilities[i].status == UNSUPPORTED { return false; }
      i := i + 1;
    }
    var wanted := ["call"] + features;
    var f := 0;
    while f < |wanted|
      invariant 0 <= f <= |wanted|
      invariant forall g, j :: 0 <= g < f && 0 <= j < |a.capabilities| && a.capabilities[j].upstreamModel == upstreamModel ==>
                  !FeatureDenied(a.capabilities[j], operation, wanted[g], effort, credential)
    {
      i := 0;
      while i < |a.capabilities|
        invariant 0 <= i <= |a.capabilities|
        invariant forall j :: 0 <= j < i && a.capabilities[j].upstreamModel == upstreamModel ==>
                    !FeatureDenied(a.capabilities[j], operation, wanted[f], effort, credential)
      {
        if a.capabilities[i].upstreamModel == upstreamModel && FeatureDenied(a.capabilities[i], operation, wanted[f], effort, credential) {
          NotCompatible(a, upstreamModel, operation, features, credential, effort, a.capabilities[i], wanted[f]);
          return false;
        }
        i := i + 1;
      }
      f := f + 1;
    }
    assert wanted[0] == "call" && forall k :: 0 <= k < |features| ==> wanted[k + 1] == features[k];
    return true;
  }

  lemma NotCompatible(a: Account, upstreamModel: string, operation: string, features: seq<string>, credential: string, effort: string,
                      c: Capability, feature: string)
    requires c in a.capabilities && c.upstreamModel == upstreamModel && (feature == "call" || feature in features)
    requires FeatureDenied(c, operation, feature, effort, credential)
    ensures !Compatible(a, upstreamModel, operation, features, credential, effort)
  {
    hide FeatureDenied;
  }

  // ---- Reasoning effort ---------------------------------------------------------------------------

  /** An account that is not known to declare efforts may be tried with any. */
  predicate EffortSupported(a: Account, upstreamModel: string, requested: string) {
    (exists c :: c in a.capabilities && c.upstreamModel == upstreamModel && requested in c.efforts)
    || forall c :: c in a.capabilities && c.upstreamModel == upstreamModel ==> c.status == UNKNOWN
  }

  /** supportsRequestedReasoning. */
  method SupportsRequestedReasoning(a: Account, upstreamModel: string, requested: string) returns (ok: bool)
    ensures ok == EffortSupported(a, upstreamModel, requested)
  {
    var known := false;
    var i := 0;
    while i < |a.capabilities|
      invariant 0 <= i <= |a.capabilities|
      invariant forall j :: 0 <= j < i && a.capabilities[j].upstreamModel == upstreamModel ==> requested !in a.capabilities[j].efforts
      invariant known <==> exists j :: 0 <= j < i && a.capabilities[j].upstreamModel == upstreamModel && a.capabilities[j].status != UNKNOWN
    {
      var c := a.capabilities[i];
      if c.upstreamModel == upstreamModel {
        if c.status != UNKNOWN { known := true; }
        if requested in c.efforts { return true; }
      }
      i := i + 1;
    }
    return !known;
  }

  function NormalEffort(effort: string): string {
    var e := ToLower(TrimSpace(effort));
    if e == "" then "auto" else e
  }

  /** ResolveRouteTarget: the model and effort a target stands for on its account. */
  function ResolveTarget(a: Account, route: Route, target: Target): Option<(string, string)> {
    if TrimSpace(route.model) == "" then
      var model := TrimSpace(target.model);
      if model == "" then None else Some((model, target.effort))
    else
      var effort, logical := NormalEffort(route.effort), TrimSpace(route.model);
      match FirstCapability(a.capabilities, (c: Capability) => c.status != UNSUPPORTED && c.model == logical && effort in c.efforts)
      case None => None
      case Some(c) => Some((c.upstreamModel, effort))
  }

  function RequestedEffort(req: Requirements): string {
    if req.effort == "auto" then "" else req.effort
  }

  /** resolveRequestedReasoning: the same, when the request asks for an effort of its own. */
  function ResolveRequested(a: Account, route: Route, target: Target, req: Requirements): Option<(string, string)> {
    var requested := RequestedEffort(req);
    var configured := if route.model == "" then target.effort else route.effort;
    if requested != "" && configured != "" && configured != "auto" && configured != requested then None
    else
      var asked := if requested != "" && route.model != "" then route.(effort := requested) else route;
      match ResolveTarget(a, asked, target)
      case None => None
      case Some(r) =>
        if requested == "" || route.model != "" then Some(r)
        else if EffortSupported(a, r.0, requested) then Some((r.0, requested)) else None
  }
}
