/** `NewCollectionWizard`, the component that owns the wizard's state, and
    `NewCollectionLaunch`, the last step that hands the request over. */
module CollectionWizard {
  import opened Values
  import opened Selection
  import opened Parameters
  import opened Requests

  /** The answer of the artifact lookup by name (`response.data`). */
  datatype LookupResponse = LookupResponse(items: Option<seq<Descriptor>>)

  /** The request of `baseFlow` when it has one with an artifact list; an
      empty list counts as present. */
  function HydrationRequest(baseFlow: Option<Flow>): (q: Option<FlowRequest>)
    ensures q.Some? ==> q.value.artifacts.Some? && baseFlow.Some? && baseFlow.value.request == q
    ensures q.None? ==> baseFlow.None? || baseFlow.value.request.None? || baseFlow.value.request.value.artifacts.None?
  {
    if baseFlow.Some? && baseFlow.value.request.Some? && baseFlow.value.request.value.artifacts.Some?
    then baseFlow.value.request
    else None
  }

  /** The descriptors a lookup answer carries, when it carries at least one. */
  function ResolvedItems(response: Option<LookupResponse>): (items: Option<seq<Descriptor>>)
    ensures items.Some? <==> response.Some? && response.value.items.Some? && |response.value.items.value| > 0
    ensures items.Some? ==> items == response.value.items
  {
    if response.Some? && response.value.items.Some? && |response.value.items.value| > 0
    then response.value.items
    else None
  }

  class Wizard {
    var originalFlow: Option<Flow>
    var initializedFromParent: bool
    /** The selected artifact descriptors. */
    var artifacts: seq<Descriptor>
    /** The parameter object edited in place by the configuration page. */
    var parameters: ParamMap
    /** The limits last committed by the resources page. */
    var resources: Resources

    constructor ()
      ensures originalFlow.None? && !initializedFromParent
      ensures artifacts == [] && fresh(parameters) && parameters.entries == [] && resources == NoResources
    {
      originalFlow := None;
      initializedFromParent := false;
      artifacts := [];
      parameters := new ParamMap();
      resources := NoResources;
    }

    method SetArtifacts(a: seq<Descriptor>)
      modifies this
      ensures artifacts == a
      ensures parameters == old(parameters) && resources == old(resources)
      ensures originalFlow == old(originalFlow) && initializedFromParent == old(initializedFromParent)
    {
      artifacts := a;
    }

    method SetParameters(p: ParamMap)
      modifies this
      ensures parameters == p
      ensures artifacts == old(artifacts) && resources == old(resources)
      ensures originalFlow == old(originalFlow) && initializedFromParent == old(initializedFromParent)
    {
      parameters := p;
    }

    method SetResources(r: Resources)
      modifies this
      ensures resources == r
      ensures artifacts == old(artifacts) && parameters == old(parameters)
      ensures originalFlow == old(originalFlow) && initializedFromParent == old(initializedFromParent)
    {
      resources := r;
    }

    /** `initializeFromBaseFlow`: without a request carrying an artifact list,
        nothing happens. Otherwise the flow is recorded and the names to look
        up are returned; the answer arrives later at `OnArtifactsResolved`. */
    method InitializeFromBaseFlow(baseFlow: Option<Flow>) returns (lookup: Option<seq<string>>)
      modifies this
      ensures lookup.Some? <==> HydrationRequest(baseFlow).Some?
      ensures lookup.None? ==> unchanged(this)
      ensures lookup.Some? ==>
                lookup == HydrationRequest(baseFlow).value.artifacts && originalFlow == baseFlow && initializedFromParent
      ensures artifacts == old(artifacts) && parameters == old(parameters) && resources == old(resources)
    {
      var request := if baseFlow.Some? then baseFlow.value.request else None;
      if request.None? || request.value.artifacts.None? {
        return None;
      }
      originalFlow := baseFlow;
      initializedFromParent := true;
      lookup := request.value.artifacts;
    }

    /** The completion of the lookup started for `request`: a non-empty
        list of descriptors replaces the selection, and the request's
        parameters replace the parameter object; any other answer is
        ignored. */
    method OnArtifactsResolved(request: FlowRequest, response: Option<LookupResponse>)
      modifies this
      ensures ResolvedItems(response).None? ==> unchanged(this)
      ensures ResolvedItems(response).Some? ==>
                artifacts == ResolvedItems(response).value
                && fresh(parameters) && parameters.entries == request.parameters
      ensures resources == old(resources)
      ensures originalFlow == old(originalFlow) && initializedFromParent == old(initializedFromParent)
    {
      if response.Some? && response.value.items.Some? && |response.value.items.value| > 0 {
        artifacts := response.value.items.value;
        parameters := new ParamMap.FromEntries(request.parameters);
      }
    }

    /** `componentDidUpdate`: hydration is retried only while no flow has
        been recorded and a base flow is present. */
    method ComponentDidUpdate(baseFlow: Option<Flow>) returns (lookup: Option<seq<string>>)
      modifies this
      ensures old(originalFlow).Some? || baseFlow.None? ==> lookup.None? && unchanged(this)
      ensures lookup.None? ==> unchanged(this)
      ensures lookup.Some? ==>
                old(originalFlow).None? && originalFlow == baseFlow && initializedFromParent
                && HydrationRequest(baseFlow).Some? && lookup == HydrationRequest(baseFlow).value.artifacts
      ensures old(originalFlow).None? ==> (lookup.Some? <==> HydrationRequest(baseFlow).Some?)
      ensures artifacts == old(artifacts) && parameters == old(parameters) && resources == old(resources)
    {
      if originalFlow.None? && baseFlow.Some? {
        lookup := InitializeFromBaseFlow(baseFlow);
      } else {
        lookup := None;
      }
    }

    /** `prepareRequest`: the request the wizard's current state stands for. */
    method PrepareRequest() returns (r: Request)
      ensures r == AssembleRequest(artifacts, parameters.entries, resources)
    {
      var names: seq<string> := [];
      for i := 0 to |artifacts|
        invariant |names| == i
        invariant forall k :: 0 <= k < i ==> names[k] == artifacts[k].name
      {
        names := names + [artifacts[i].name];
      }

      var params := parameters.entries;
      var env: seq<KeyValue> := [];
      for i := 0 to |params|
        invariant |env| == i
        invariant forall k :: 0 <= k < i ==> env[k] == KeyValue(params[k].0, params[k].1)
      {
        env := env + [KeyValue(params[i].0, params[i].1)];
      }

      var ops, timeout, rows := None, None, None;
      var uploadBytes: Option<real> := None;
      if TruthyInt(resources.opsPerSecond) {
        ops := resources.opsPerSecond;
      }
      if TruthyInt(resources.timeout) {
        timeout := resources.timeout;
      }
      if TruthyInt(resources.maxRows) {
        rows := resources.maxRows;
      }
      if TruthyReal(resources.maxMbytes) {
        uploadBytes := Some(resources.maxMbytes.value * 1024.0 * 1024.0);
      }
      r := Request(names, RequestParameters(env), ops, timeout, rows, uploadBytes);
    }

    /** `launch`: the request handed to `onResolve`. */
    method Launch() returns (r: Request)
      ensures r == AssembleRequest(artifacts, parameters.entries, resources)
    {
      r := PrepareRequest();
    }
  }

  /** The launch step fires when it goes from inactive to active. */
  function Fires(wasActive: bool, isActive: bool): (fires: bool)
    ensures fires ==> isActive != wasActive
    ensures isActive != wasActive ==> (fires <==> isActive)
  {
    isActive && !wasActive
  }

  /** `NewCollectionLaunch`: remembers the previous `isActive` and launches on
      a rising edge. */
  class LaunchStep {
    var wasActive: bool

    /** Mounting does not launch; it only records the first `isActive`. */
    constructor (isActive: bool)
      ensures wasActive == isActive
    {
      wasActive := isActive;
    }

    /** `componentDidUpdate`: a request is delivered exactly when the step
        has just become active, and it is the one the wizard's state stands
        for. */
    method DidUpdate(w: Wizard, isActive: bool) returns (delivered: Option<Request>)
      modifies this
      ensures wasActive == isActive
      ensures delivered.Some? <==> Fires(old(wasActive), isActive)
      ensures delivered.Some? ==> delivered.value == AssembleRequest(w.artifacts, w.parameters.entries, w.resources)
    {
      delivered := None;
      if isActive && !wasActive {
        var r := w.Launch();
        delivered := Some(r);
      }
      wasActive := isActive;
    }
  }

  /** Successive renders of the launch step with the `isActive` values of
      `trace`: the step delivers `Launches` requests, each the one the
      wizard's state stands for. */
  method Replay(step: LaunchStep, w: Wizard, trace: seq<bool>) returns (delivered: seq<Request>)
    modifies step
    ensures |delivered| == Launches(old(step.wasActive), trace)
    ensures forall k :: 0 <= k < |delivered| ==>
              delivered[k] == AssembleRequest(w.artifacts, w.parameters.entries, w.resources)
    ensures trace != [] ==> step.wasActive == trace[|trace| - 1]
    ensures trace == [] ==> step.wasActive == old(step.wasActive)
  {
    ghost var start := step.wasActive;
    delivered := [];
    for i := 0 to |trace|
      invariant |delivered| + Launches(step.wasActive, trace[i..]) == Launches(start, trace)
      invariant forall k :: 0 <= k < |delivered| ==>
                  delivered[k] == AssembleRequest(w.artifacts, w.parameters.entries, w.resources)
      invariant i > 0 ==> step.wasActive == trace[i - 1]
      invariant i == 0 ==> step.wasActive == start
    {
      assert trace[i..][1..] == trace[i + 1..];
      var d := step.DidUpdate(w, trace[i]);
      if d.Some? {
        delivered := delivered + [d.value];
      }
    }
  }

  /** The number of launches over successive `isActive` values, starting
      from `wasActive`. */
  function Launches(wasActive: bool, trace: seq<bool>): (n: nat)
    ensures n <= |trace|
    ensures n > 0 ==> true in trace
    decreases |trace|
  {
    if trace == [] then 0
    else (if Fires(wasActive, trace[0]) then 1 else 0) + Launches(trace[0], trace[1..])
  }

  /** Starting inactive, some launch happens exactly when the step is active
      at some point. */
  lemma {:induction false} LaunchIffActivated(trace: seq<bool>)
    ensures Launches(false, trace) > 0 <==> true in trace
  {
    if trace != [] {
      if !trace[0] {
        LaunchIffActivated(trace[1..]);
        assert trace == [trace[0]] + trace[1..];
      }
    }
  }

  /** Once active the step stays active: then it launches at most once. */
  lemma {:induction false} MonotoneLaunchesOnce(wasActive: bool, trace: seq<bool>)
    requires forall i, j :: 0 <= i < j < |trace| && trace[i] ==> trace[j]
    ensures Launches(wasActive, trace) <= 1
    ensures wasActive && trace != [] && trace[0] ==> Launches(wasActive, trace) == 0
    decreases |trace|
  {
    if trace != [] {
      MonotoneLaunchesOnce(trace[0], trace[1..]);
      if trace[0] {
        StaysActiveNoLaunch(trace[1..]);
      }
    }
  }

  /** Staying active never launches again. */
  lemma {:induction false} StaysActiveNoLaunch(trace: seq<bool>)
    requires forall i :: 0 <= i < |trace| ==> trace[i]
    ensures Launches(true, trace) == 0
  {
    if trace != [] {
      StaysActiveNoLaunch(trace[1..]);
    }
  }

  /** Being inactive never launches, whatever came before. */
  lemma {:induction false} InactiveNoLaunch(wasActive: bool, trace: seq<bool>)
    requires forall i :: 0 <= i < |trace| ==> !trace[i]
    ensures Launches(wasActive, trace) == 0
  {
    if trace != [] {
      InactiveNoLaunch(false, trace[1..]);
    }
  }
}
