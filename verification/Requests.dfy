/** The flow request in both directions: the inbound request of a flow being
    edited, and the outbound request the wizard assembles. */
module Requests {
  import opened Values
  import opened Selection
  import opened Parameters

  /** Bytes in one mebibyte (`1024 * 1024`). */
  const MiB: int := 1048576

  /** The request stored with an existing flow. `timeout` is already parsed;
      `None` stands for a missing value and for `NaN`. */
  datatype FlowRequest = FlowRequest(
    artifacts: Option<seq<string>>,
    parameters: Dict,
    opsPerSecond: Option<int>,
    timeout: Option<int>,
    maxRows: Option<int>,
    maxUploadBytes: Option<int>)

  /** An existing flow, as passed in as `baseFlow`. */
  datatype Flow = Flow(request: Option<FlowRequest>)

  /** The four resource limits of the resources step. */
  datatype Resources = Resources(
    opsPerSecond: Option<int>,
    timeout: Option<int>,
    maxRows: Option<int>,
    maxMbytes: Option<real>)

  /** The wizard's resources before the resources step commits (`{}`). */
  const NoResources := Resources(None, None, None, None)

  datatype KeyValue = KeyValue(key: string, value: string)

  datatype RequestParameters = RequestParameters(env: seq<KeyValue>)

  /** The outbound request; an absent optional field is `None`. */
  datatype Request = Request(
    artifacts: seq<string>,
    parameters: RequestParameters,
    opsPerSecond: Option<int>,
    timeout: Option<int>,
    maxRows: Option<int>,
    maxUploadBytes: Option<real>)

  /** The parameter object flattened to `{key, value}` pairs. */
  function Env(es: seq<(string, string)>): (env: seq<KeyValue>)
    ensures |env| == |es| && forall i :: 0 <= i < |es| ==> env[i] == KeyValue(es[i].0, es[i].1)
    ensures forall kv :: kv in env <==> (kv.key, kv.value) in es
  {
    var env := seq(|es|, i requires 0 <= i < |es| => KeyValue(es[i].0, es[i].1));
    assert forall kv :: kv in env ==> (kv.key, kv.value) in es by {
      forall kv | kv in env ensures (kv.key, kv.value) in es {
        var i :| 0 <= i < |env| && env[i] == kv;
        assert es[i] == (kv.key, kv.value);
      }
    }
    assert forall e :: e in es ==> KeyValue(e.0, e.1) in env by {
      forall e | e in es ensures KeyValue(e.0, e.1) in env {
        var i :| 0 <= i < |es| && es[i] == e;
        assert env[i] == KeyValue(e.0, e.1);
      }
    }
    env
  }

  /** A limit is emitted only when truthy. */
  function OmitFalsy(o: Option<int>): (r: Option<int>)
    ensures r.Some? <==> TruthyInt(o)
    ensures r.Some? ==> r == o
  {
    if TruthyInt(o) then o else None
  }

  /** `prepareRequest`, as a function of the wizard state. */
  function AssembleRequest(sel: seq<Descriptor>, params: seq<(string, string)>, res: Resources): (r: Request)
    ensures |r.artifacts| == |sel|
    ensures forall i :: 0 <= i < |sel| ==> r.artifacts[i] == sel[i].name
    ensures |r.parameters.env| == |params|
    ensures forall i :: 0 <= i < |params| ==> r.parameters.env[i] == KeyValue(params[i].0, params[i].1)
    ensures r.opsPerSecond.Some? <==> TruthyInt(res.opsPerSecond)
    ensures r.opsPerSecond.Some? ==> r.opsPerSecond == res.opsPerSecond
    ensures r.timeout.Some? <==> TruthyInt(res.timeout)
    ensures r.timeout.Some? ==> r.timeout == res.timeout
    ensures r.maxRows.Some? <==> TruthyInt(res.maxRows)
    ensures r.maxRows.Some? ==> r.maxRows == res.maxRows
    ensures r.maxUploadBytes.Some? <==> TruthyReal(res.maxMbytes)
    ensures r.maxUploadBytes.Some? ==> r.maxUploadBytes.value == res.maxMbytes.value * MiB as real
  {
    Request(
      Names(sel),
      RequestParameters(Env(params)),
      OmitFalsy(res.opsPerSecond),
      OmitFalsy(res.timeout),
      OmitFalsy(res.maxRows),
      if TruthyReal(res.maxMbytes) then Some(res.maxMbytes.value * MiB as real) else None)
  }

  /** The resource limits the resources step loads from a parent request:
      the upload limit in bytes, or 0 when absent, becomes mebibytes. */
  function ResourcesFromRequest(q: FlowRequest): (res: Resources)
    ensures res.opsPerSecond == q.opsPerSecond && res.timeout == q.timeout && res.maxRows == q.maxRows
    ensures res.maxMbytes.Some?
    ensures res.maxMbytes.value * MiB as real == (if q.maxUploadBytes.Some? then q.maxUploadBytes.value as real else 0.0)
  {
    var bytes := if q.maxUploadBytes.Some? then q.maxUploadBytes.value else 0;
    Resources(q.opsPerSecond, q.timeout, q.maxRows, Some(bytes as real / MiB as real))
  }

  /** Loading limits from a request and assembling a request again gives back
      each limit of the original request that is non-zero, the upload limit
      in bytes included, and drops the zero or missing ones. */
  lemma LimitsRoundTrip(sel: seq<Descriptor>, params: seq<(string, string)>, q: FlowRequest)
    ensures AssembleRequest(sel, params, ResourcesFromRequest(q)).opsPerSecond == OmitFalsy(q.opsPerSecond)
    ensures AssembleRequest(sel, params, ResourcesFromRequest(q)).timeout == OmitFalsy(q.timeout)
    ensures AssembleRequest(sel, params, ResourcesFromRequest(q)).maxRows == OmitFalsy(q.maxRows)
    ensures AssembleRequest(sel, params, ResourcesFromRequest(q)).maxUploadBytes
         == if TruthyInt(q.maxUploadBytes) then Some(q.maxUploadBytes.value as real) else None
  {
    var res := ResourcesFromRequest(q);
    var r := AssembleRequest(sel, params, res);
    if TruthyInt(q.maxUploadBytes) {
      assert res.maxMbytes.value != 0.0;
    } else {
      assert res.maxMbytes.value * MiB as real == 0.0;
    }
  }

  /** The upload limit of 10 MiB is 10485760 bytes in both directions. */
  lemma TenMebibytes(sel: seq<Descriptor>, params: seq<(string, string)>, q: FlowRequest)
    requires q.maxUploadBytes == Some(10485760)
    ensures ResourcesFromRequest(q).maxMbytes == Some(10.0)
    ensures AssembleRequest(sel, params, NoResources.(maxMbytes := Some(10.0))).maxUploadBytes == Some(10485760.0)
  {
  }

  /** The names sent are exactly those of the selection: a name is sent iff
      some selected artifact has it. */
  lemma ArtifactsAreSelection(sel: seq<Descriptor>, params: seq<(string, string)>, res: Resources, n: string)
    ensures n in AssembleRequest(sel, params, res).artifacts <==> HasName(sel, n)
  {
    var names := AssembleRequest(sel, params, res).artifacts;
    if n in names {
      var i :| 0 <= i < |names| && names[i] == n;
      assert sel[i].name == n;
    }
  }

  /** The environment has one entry per key of the parameter object, with
      the keys in the object's order and no key repeated. */
  lemma EnvMatchesParameters(sel: seq<Descriptor>, params: Dict, res: Resources, key: string)
    ensures (exists i :: 0 <= i < |AssembleRequest(sel, params, res).parameters.env|
               && AssembleRequest(sel, params, res).parameters.env[i].key == key)
         <==> HasKey(params, key)
    ensures forall i, j :: 0 <= i < j < |AssembleRequest(sel, params, res).parameters.env| ==>
              AssembleRequest(sel, params, res).parameters.env[i].key
              != AssembleRequest(sel, params, res).parameters.env[j].key
  {
    var env := AssembleRequest(sel, params, res).parameters.env;
    assert forall i :: 0 <= i < |params| ==> params[i].0 == env[i].key;
  }
}
