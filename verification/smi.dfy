/** The SMI conformance-test run (adapter/smi.go): a linear phase machine
    install -> connect -> run -> delete over a partially filled Response,
    and the mapping of the conformance tool's per-assertion results into
    Detail records. Every cluster, network and tool call is an outcome
    supplied by the caller; the calls actually made are recorded, with
    their arguments, in a trace. */
module Smi {
  import opened Wrappers
  import opened Errors
  import Decimal
  import Configure

  /** Name of the conformance tool's service, looked up when connecting. */
  const ServiceName: string := "smi-conformance"

  datatype Detail = Detail(
    smiSpecification: string, smiVersion: string, time: string, assertions: string,
    result: string, reason: string, capability: string, status: string)

  datatype Response = Response(
    id: string, date: string, meshName: string, meshVersion: string,
    casesPassed: string, passingPercentage: string, status: string,
    moreDetails: seq<Detail>)

  /** Go's zero-valued Response{}. */
  const EmptyResponse := Response("", "", "", "", "", "", "", [])

  /** One assertion outcome as the conformance tool reports it (the fields
      the adapter reads). */
  datatype RemoteDetail = RemoteDetail(
    smispec: string, time: string, assertions: string, result: string,
    reason: string, capability: string, status: string)

  datatype RemoteResult = RemoteResult(casespassed: string, passpercent: string, details: seq<RemoteDetail>)

  datatype Request = Request(
    annotations: map<string, string>, labels: map<string, string>,
    meshname: string, meshversion: string)

  datatype Endpoint = Endpoint(address: string, port: int)

  datatype ApplyOptions = ApplyOptions(namespace: string, delete: bool)

  datatype SmiTestOptions = SmiTestOptions(
    operationId: string, namespace: string, manifest: string,
    labels: map<string, string>, annotations: map<string, string>)

  /** What each collaborator call of one run answers, one field per call
      site (the manifest is fetched and applied twice, and the two answers
      may differ). */
  datatype Outcomes = Outcomes(
    kubeClient: bool,
    installFetch: Option<string>, installApply: bool,
    endpoint: Option<Endpoint>,
    createClient: bool, runTest: Option<RemoteResult>, close: bool,
    deleteFetch: Option<string>, deleteApply: bool)

  /** One collaborator call with its arguments. The two manifest fetches
      are identical calls in the code; `forDelete` records which phase
      issued one. */
  datatype Call =
    | NewKubeClient(kubeClient: Option<Configure.Clientset>, restConfig: Configure.RestConfig)
    | ReadRemoteFile(location: string, forDelete: bool)
    | ApplyManifest(manifest: string, options: ApplyOptions)
    | GetServiceEndpoint(name: string, namespace: string)
    | CreateClient(address: string)
    | RunTest(request: Request)
    | CloseClient

  datatype Phase = Installing | Connecting | Running | Deleting

  const Phases: seq<Phase> := [Installing, Connecting, Running, Deleting]

  /** Position of a phase in `Phases`. */
  function Ordinal(p: Phase): (i: nat)
    ensures i < |Phases| && Phases[i] == p
  {
    match p
    case Installing => 0
    case Connecting => 1
    case Running => 2
    case Deleting => 3
  }

  /** The status a failed phase leaves in the response. */
  function StatusOf(p: Phase): string {
    match p
    case Installing => "installing"
    case Connecting => "connecting"
    case Running => "running"
    case Deleting => "deleting"
  }

  /** The error a failed phase returns, wrapping the collaborator's failure. */
  function PhaseError(p: Phase, cause: Cause): Error {
    match p
    case Installing => ErrInstallSmi(External(cause))
    case Connecting => ErrConnectSmi(External(cause))
    case Running => ErrRunSmi(External(cause))
    case Deleting => ErrDeleteSmi(External(cause))
  }

  /** The state threaded from phase to phase. */
  datatype Session = Session(response: Response, address: string, calls: seq<Call>)

  datatype Step = Step(session: Session, failure: Option<Cause>)

  /** The Detail record for one remote assertion. The conformance tool's
      specification version is not copied, so smiVersion stays empty. */
  function ToDetail(d: RemoteDetail): Detail {
    Detail(d.smispec, "", d.time, d.assertions, d.result, d.reason, d.capability, d.status)
  }

  /** The remote assertion a Detail record was built from. */
  function FromDetail(d: Detail): RemoteDetail {
    RemoteDetail(d.smiSpecification, d.time, d.assertions, d.result, d.reason, d.capability, d.status)
  }

  /** The details list of the response, one record per remote assertion,
      in the order received. */
  function Aggregate(ds: seq<RemoteDetail>): (r: seq<Detail>)
    ensures |r| == |ds|
    ensures forall i :: 0 <= i < |ds| ==> r[i] == ToDetail(ds[i])
  {
    if |ds| == 0 then [] else Aggregate(ds[..|ds| - 1]) + [ToDetail(ds[|ds| - 1])]
  }

  /** The Go loop building the details slice by appending. */
  method CollectDetails(ds: seq<RemoteDetail>) returns (details: seq<Detail>)
    ensures |details| == |ds|
    ensures forall i :: 0 <= i < |ds| ==> details[i].smiVersion == "" && FromDetail(details[i]) == ds[i]
  {
    details := [];
    var i := 0;
    while i < |ds|
      invariant 0 <= i <= |ds|
      invariant |details| == i
      invariant forall j :: 0 <= j < i ==> details[j] == ToDetail(ds[j])
    {
      details := details + [ToDetail(ds[i])];
      i := i + 1;
    }
  }

  /** Reading the remote assertions back from the aggregated details gives
      the list the tool sent: nothing is dropped, added or reordered. */
  lemma {:induction false} AggregateRoundTrip(ds: seq<RemoteDetail>)
    ensures Unaggregate(Aggregate(ds)) == ds
  {
    if |ds| > 0 {
      var prefix := ds[..|ds| - 1];
      AggregateRoundTrip(prefix);
      var r := Aggregate(ds);
      assert r[..|r| - 1] == Aggregate(prefix);
      assert ds == prefix + [ds[|ds| - 1]];
    }
  }

  function Unaggregate(details: seq<Detail>): (r: seq<RemoteDetail>)
    ensures |r| == |details|
  {
    if |details| == 0 then [] else Unaggregate(details[..|details| - 1]) + [FromDetail(details[|details| - 1])]
  }

  /** `%s:%d` of the service endpoint. */
  function Address(e: Endpoint): string {
    e.address + ":" + Decimal.FromInt(e.port)
  }

  /** Index of the last occurrence of `c` in `s`. */
  function LastIndex(s: string, c: char): (r: Option<nat>)
    ensures r.Some? ==> r.value < |s| && s[r.value] == c && forall j :: r.value < j < |s| ==> s[j] != c
    ensures r.None? ==> forall j :: 0 <= j < |s| ==> s[j] != c
  {
    if |s| == 0 then None
    else if s[|s| - 1] == c then Some(|s| - 1)
    else LastIndex(s[..|s| - 1], c)
  }

  /** Split an address at its last colon and read the port back. */
  function ParseAddress(s: string): Option<Endpoint> {
    match LastIndex(s, ':')
    case None => None
    case Some(i) =>
      if Decimal.IsIntText(s[i + 1..]) then Some(Endpoint(s[..i], Decimal.ToInt(s[i + 1..]))) else None
  }

  /** The connect address determines the endpoint it was formatted from,
      even when the host part itself contains colons. */
  lemma AddressRoundTrip(e: Endpoint)
    ensures ParseAddress(Address(e)) == Some(e)
  {
    var s := Address(e);
    var port := Decimal.FromInt(e.port);
    var n := |e.address|;
    assert s[n] == ':';
    assert forall j :: n < j < |s| ==> s[j] == port[j - n - 1];
    var li := LastIndex(s, ':');
    assert li == Some(n);
    assert s[n + 1..] == port;
    assert s[..n] == e.address;
    Decimal.IntRoundTrip(e.port);
  }

  function InstallConformanceTool(s: Session, opts: SmiTestOptions, o: Outcomes): (r: Step)
    ensures r.session.response == s.response && r.session.address == s.address
    ensures r.failure.None? <==> o.installFetch.Some? && o.installApply
    ensures |r.session.calls| > |s.calls| && r.session.calls[..|s.calls|] == s.calls
    ensures r.session.calls[|s.calls|] == ReadRemoteFile(opts.manifest, false)
    ensures o.installFetch.None? ==>
      r.session.calls == s.calls + [ReadRemoteFile(opts.manifest, false)] && r.failure == Some(ReadRemoteFileFailed)
    ensures o.installFetch.Some? ==>
      r.session.calls == s.calls + [ReadRemoteFile(opts.manifest, false), ApplyManifest(o.installFetch.value, ApplyOptions(opts.namespace, false))]
  {
    match o.installFetch
    case None => Step(s.(calls := s.calls + [ReadRemoteFile(opts.manifest, false)]), Some(ReadRemoteFileFailed))
    case Some(manifest) =>
      var calls := s.calls + [ReadRemoteFile(opts.manifest, false), ApplyManifest(manifest, ApplyOptions(opts.namespace, false))];
      Step(s.(calls := calls), if o.installApply then None else Some(ApplyManifestFailed))
  }

  function ConnectConformanceTool(s: Session, opts: SmiTestOptions, o: Outcomes): (r: Step)
    ensures r.session.response == s.response
    ensures r.failure.None? <==> o.endpoint.Some?
    ensures r.session.calls == s.calls + [GetServiceEndpoint(ServiceName, opts.namespace)]
    ensures o.endpoint.Some? ==> r.session.address == Address(o.endpoint.value)
    ensures o.endpoint.Some? ==> ParseAddress(r.session.address) == o.endpoint
    ensures o.endpoint.None? ==> r.session.address == s.address
  {
    match o.endpoint
    case None => Step(s.(calls := s.calls + [GetServiceEndpoint(ServiceName, opts.namespace)]), Some(ServiceEndpointFailed))
    case Some(e) =>
      AddressRoundTrip(e);
      Step(s.(address := Address(e), calls := s.calls + [GetServiceEndpoint(ServiceName, opts.namespace)]), None)
  }

  function RunConformanceTest(s: Session, test: Request, o: Outcomes): (r: Step)
    ensures r.failure.None? <==> o.createClient && o.runTest.Some? && o.close
    ensures r.session.address == s.address
    ensures o.createClient && o.runTest.Some? ==>
      var res := o.runTest.value;
      r.session.response == s.response.(casesPassed := res.casespassed, passingPercentage := res.passpercent, moreDetails := Aggregate(res.details))
    ensures !(o.createClient && o.runTest.Some?) ==> r.session.response == s.response
    ensures !o.createClient ==> r.session.calls == s.calls + [CreateClient(s.address)]
    ensures o.createClient && o.runTest.None? ==> r.session.calls == s.calls + [CreateClient(s.address), RunTest(test)]
    ensures o.createClient && o.runTest.Some? ==> r.session.calls == s.calls + [CreateClient(s.address), RunTest(test), CloseClient]
  {
    var dialled := s.calls + [CreateClient(s.address)];
    if !o.createClient then Step(s.(calls := dialled), Some(CreateClientFailed))
    else
      var ran := dialled + [RunTest(test)];
      match o.runTest
      case None => Step(s.(calls := ran), Some(RunTestFailed))
      case Some(res) =>
        var response := s.response.(casesPassed := res.casespassed, passingPercentage := res.passpercent, moreDetails := Aggregate(res.details));
        Step(Session(response, s.address, ran + [CloseClient]), if o.close then None else Some(CloseFailed))
  }

  function DeleteConformanceTool(s: Session, opts: SmiTestOptions, o: Outcomes): (r: Step)
    ensures r.session.response == s.response && r.session.address == s.address
    ensures r.failure.None? <==> o.deleteFetch.Some? && o.deleteApply
    ensures |r.session.calls| > |s.calls| && r.session.calls[..|s.calls|] == s.calls
    ensures r.session.calls[|s.calls|] == ReadRemoteFile(opts.manifest, true)
    ensures o.deleteFetch.None? ==>
      r.session.calls == s.calls + [ReadRemoteFile(opts.manifest, true)] && r.failure == Some(ReadRemoteFileFailed)
    ensures o.deleteFetch.Some? ==>
      r.session.calls == s.calls + [ReadRemoteFile(opts.manifest, true), ApplyManifest(o.deleteFetch.value, ApplyOptions(opts.namespace, true))]
  {
    match o.deleteFetch
    case None => Step(s.(calls := s.calls + [ReadRemoteFile(opts.manifest, true)]), Some(ReadRemoteFileFailed))
    case Some(manifest) =>
      var calls := s.calls + [ReadRemoteFile(opts.manifest, true), ApplyManifest(manifest, ApplyOptions(opts.namespace, true))];
      Step(s.(calls := calls), if o.deleteApply then None else Some(ApplyManifestFailed))
  }

  /** Each phase appends exactly its reference calls. */
  lemma InstallCalls(s: Session, opts: SmiTestOptions, test: Request, o: Outcomes)
    ensures InstallConformanceTool(s, opts, o).session.calls == s.calls + PhaseCalls(Installing, opts, test, o)
  {
  }

  lemma ConnectCalls(s: Session, opts: SmiTestOptions, test: Request, o: Outcomes)
    ensures ConnectConformanceTool(s, opts, o).session.calls == s.calls + PhaseCalls(Connecting, opts, test, o)
  {
  }

  lemma RunCalls(s: Session, opts: SmiTestOptions, test: Request, o: Outcomes)
    requires o.endpoint.Some? && s.address == Address(o.endpoint.value)
    ensures RunConformanceTest(s, test, o).session.calls == s.calls + PhaseCalls(Running, opts, test, o)
  {
  }

  lemma DeleteCalls(s: Session, opts: SmiTestOptions, test: Request, o: Outcomes)
    ensures DeleteConformanceTool(s, opts, o).session.calls == s.calls + PhaseCalls(Deleting, opts, test, o)
  {
  }

  /** The result of a run: the response, the error if any, the phases
      entered, and every collaborator call made. */
  datatype Report = Report(response: Response, err: Option<Error>, phases: seq<Phase>, calls: seq<Call>)

  /** The response as it stands once the meshery client exists. */
  function InitialResponse(h: Configure.Adapter, opts: SmiTestOptions, now: string): Response {
    Response(opts.operationId, now, h.name, h.version, "0", "0", "deploying", [])
  }

  /** Close out a failed phase: stamp its status and wrap its failure. */
  function Abort(p: Phase, step: Step, entered: seq<Phase>): Report
    requires step.failure.Some?
  {
    Report(step.session.response.(status := StatusOf(p)), Some(PhaseError(p, step.failure.value)), entered, step.session.calls)
  }

  /** Whether a phase's collaborator calls all succeed under `o`. */
  predicate PhaseSucceeds(p: Phase, o: Outcomes) {
    match p
    case Installing => o.installFetch.Some? && o.installApply
    case Connecting => o.endpoint.Some?
    case Running => o.createClient && o.runTest.Some? && o.close
    case Deleting => o.deleteFetch.Some? && o.deleteApply
  }

  /** The cause a phase reports when it fails under `o`: the first of its
      collaborator calls that fails. */
  function PhaseCause(p: Phase, o: Outcomes): Cause {
    match p
    case Installing => if o.installFetch.None? then ReadRemoteFileFailed else ApplyManifestFailed
    case Connecting => ServiceEndpointFailed
    case Running =>
      if !o.createClient then CreateClientFailed
      else if o.runTest.None? then RunTestFailed
      else CloseFailed
    case Deleting => if o.deleteFetch.None? then ReadRemoteFileFailed else ApplyManifestFailed
  }

  /** The calls a phase makes under `o` once the phases before it have
      succeeded, listed call by call from the outcomes alone; `test` is the
      request the run phase sends. */
  function PhaseCalls(p: Phase, opts: SmiTestOptions, test: Request, o: Outcomes): seq<Call> {
    match p
    case Installing =>
      [ReadRemoteFile(opts.manifest, false)]
      + (if o.installFetch.Some? then [ApplyManifest(o.installFetch.value, ApplyOptions(opts.namespace, false))] else [])
    case Connecting => [GetServiceEndpoint(ServiceName, opts.namespace)]
    case Running =>
      [CreateClient(if o.endpoint.Some? then Address(o.endpoint.value) else "")]
      + (if o.createClient then [RunTest(test)] else [])
      + (if o.createClient && o.runTest.Some? then [CloseClient] else [])
    case Deleting =>
      [ReadRemoteFile(opts.manifest, true)]
      + (if o.deleteFetch.Some? then [ApplyManifest(o.deleteFetch.value, ApplyOptions(opts.namespace, true))] else [])
  }

  /** The calls of phases `j` up to, not including, `k`, in phase order. */
  function TraceOf(j: nat, k: nat, opts: SmiTestOptions, test: Request, o: Outcomes): seq<Call>
    requires j <= k <= |Phases|
    decreases k - j
  {
    if j == k then [] else PhaseCalls(Phases[j], opts, test, o) + TraceOf(j + 1, k, opts, test, o)
  }

  /** When every phase succeeds the reference trace lists each call once. */
  lemma CompletedTrace(first: Call, opts: SmiTestOptions, test: Request, o: Outcomes)
    requires PhaseSucceeds(Installing, o) && PhaseSucceeds(Connecting, o) && PhaseSucceeds(Running, o) && PhaseSucceeds(Deleting, o)
    ensures [first] + TraceOf(0, |Phases|, opts, test, o) == [
        first,
        ReadRemoteFile(opts.manifest, false),
        ApplyManifest(o.installFetch.value, ApplyOptions(opts.namespace, false)),
        GetServiceEndpoint(ServiceName, opts.namespace),
        CreateClient(Address(o.endpoint.value)),
        RunTest(test),
        CloseClient,
        ReadRemoteFile(opts.manifest, true),
        ApplyManifest(o.deleteFetch.value, ApplyOptions(opts.namespace, true))]
  {
    var install := [ReadRemoteFile(opts.manifest, false), ApplyManifest(o.installFetch.value, ApplyOptions(opts.namespace, false))];
    var connect := [GetServiceEndpoint(ServiceName, opts.namespace)];
    var run := [CreateClient(Address(o.endpoint.value)), RunTest(test), CloseClient];
    var delete := [ReadRemoteFile(opts.manifest, true), ApplyManifest(o.deleteFetch.value, ApplyOptions(opts.namespace, true))];
    assert PhaseCalls(Installing, opts, test, o) == install;
    assert PhaseCalls(Connecting, opts, test, o) == connect;
    assert PhaseCalls(Running, opts, test, o) == run;
    assert PhaseCalls(Deleting, opts, test, o) == delete;
    assert TraceOf(3, 4, opts, test, o) == delete + TraceOf(4, 4, opts, test, o) == delete;
    assert TraceOf(2, 4, opts, test, o) == run + delete;
    assert TraceOf(1, 4, opts, test, o) == connect + run + delete;
    assert TraceOf(0, 4, opts, test, o) == install + connect + run + delete;
  }

  /** Appending a phase's calls after the calls before it extends the
      reference trace by that phase. */
  lemma ExtendTrace(calls: seq<Call>, j: nat, k: nat, opts: SmiTestOptions, test: Request, o: Outcomes)
    requires j < k <= |Phases|
    ensures calls + PhaseCalls(Phases[j], opts, test, o) == calls + TraceOf(j, j + 1, opts, test, o)
    ensures (calls + PhaseCalls(Phases[j], opts, test, o)) + TraceOf(j + 1, k, opts, test, o) == calls + TraceOf(j, k, opts, test, o)
  {
    assert TraceOf(j, j + 1, opts, test, o) == PhaseCalls(Phases[j], opts, test, o) + [];
  }

  /** Index of the first phase of `ps` that fails under `o`, or |ps|
      when none does. */
  function FirstFailingIndex(ps: seq<Phase>, o: Outcomes): (i: nat)
    ensures i <= |ps|
    ensures forall j :: 0 <= j < i ==> PhaseSucceeds(ps[j], o)
    ensures i < |ps| ==> !PhaseSucceeds(ps[i], o)
  {
    if |ps| == 0 then 0
    else if !PhaseSucceeds(ps[0], o) then 0
    else 1 + FirstFailingIndex(ps[1..], o)
  }

  /** The phase a run stops in, judged from the outcomes alone by scanning
      the phases in order. */
  function FailingPhase(o: Outcomes): (r: Option<Phase>)
    ensures r.None? <==>
      PhaseSucceeds(Installing, o) && PhaseSucceeds(Connecting, o) && PhaseSucceeds(Running, o) && PhaseSucceeds(Deleting, o)
    ensures r.Some? ==> !PhaseSucceeds(r.value, o) && forall q :: Ordinal(q) < Ordinal(r.value) ==> PhaseSucceeds(q, o)
  {
    var i := FirstFailingIndex(Phases, o);
    if i < |Phases| then
      assert Ordinal(Phases[i]) == i;
      Some(Phases[i])
    else
      assert forall p :: PhaseSucceeds(p, o) by {
        forall p ensures PhaseSucceeds(p, o) {
          assert Phases[Ordinal(p)] == p;
        }
      }
      None
  }

  /** The phase a run stops in, case by case. */
  lemma FailingPhaseCases(o: Outcomes)
    ensures !PhaseSucceeds(Installing, o) ==> FailingPhase(o) == Some(Installing)
    ensures PhaseSucceeds(Installing, o) && !PhaseSucceeds(Connecting, o) ==> FailingPhase(o) == Some(Connecting)
    ensures PhaseSucceeds(Installing, o) && PhaseSucceeds(Connecting, o) && !PhaseSucceeds(Running, o)
      ==> FailingPhase(o) == Some(Running)
    ensures PhaseSucceeds(Installing, o) && PhaseSucceeds(Connecting, o) && PhaseSucceeds(Running, o)
      ==> FailingPhase(o) == if PhaseSucceeds(Deleting, o) then None else Some(Deleting)
  {
  }

  /** Whether the conformance tool answered the test request. */
  predicate ResultsReceived(o: Outcomes) {
    PhaseSucceeds(Installing, o) && PhaseSucceeds(Connecting, o) && o.createClient && o.runTest.Some?
  }

  /** What a run from some phase on promises about its report, relative
      to the session `s` it started from: the response's header fields are
      kept; the run errs iff some phase fails, and then stops in the first
      failing phase with that phase's status and the error of its first
      failing call; the counts and details are the tool's once it
      answered, and otherwise those `s` held. */
  predicate Continues(s: Session, o: Outcomes, r: Report) {
    && r.response.id == s.response.id && r.response.date == s.response.date
    && r.response.meshName == s.response.meshName && r.response.meshVersion == s.response.meshVersion
    && (r.err.None? <==> FailingPhase(o).None?)
    && (FailingPhase(o).None? ==> r.phases == Phases && r.response.status == "completed")
    && (FailingPhase(o).Some? ==>
      var p := FailingPhase(o).value;
      && r.phases == Phases[..Ordinal(p) + 1]
      && r.response.status == StatusOf(p)
      && r.err == Some(PhaseError(p, PhaseCause(p, o))))
    && (ResultsReceived(o) ==>
      var res := o.runTest.value;
      && r.response.casesPassed == res.casespassed && r.response.passingPercentage == res.passpercent
      && r.response.moreDetails == Aggregate(res.details))
    && (!ResultsReceived(o) ==>
      && r.response.casesPassed == s.response.casesPassed && r.response.passingPercentage == s.response.passingPercentage
      && r.response.moreDetails == s.response.moreDetails)
  }

  /** RunSMITest: build the meshery client, start the response, then run
      install, connect, run and delete in order, stopping at the first
      failing phase with that phase's status and error. */
  function RunSmiTest(h: Configure.Adapter, opts: SmiTestOptions, now: string, o: Outcomes): (r: Report)
    ensures !o.kubeClient ==> r == Report(EmptyResponse, Some(ErrSmiInit(External(MesheryClientFailed))), [], [NewKubeClient(h.kubeClient, h.restConfig)])
    ensures o.kubeClient ==>
      && r.response.id == opts.operationId && r.response.date == now
      && r.response.meshName == h.name && r.response.meshVersion == h.version
    ensures o.kubeClient ==> (r.err.None? <==> FailingPhase(o).None?)
    ensures o.kubeClient && FailingPhase(o).None? ==> r.phases == Phases && r.response.status == "completed"
    ensures o.kubeClient && FailingPhase(o).Some? ==>
      var p := FailingPhase(o).value;
      && r.phases == Phases[..Ordinal(p) + 1]
      && r.response.status == StatusOf(p)
      && r.err == Some(PhaseError(p, PhaseCause(p, o)))
    ensures o.kubeClient && ResultsReceived(o) ==>
      var res := o.runTest.value;
      && r.response.casesPassed == res.casespassed && r.response.passingPercentage == res.passpercent
      && r.response.moreDetails == Aggregate(res.details)
    ensures o.kubeClient && !ResultsReceived(o) ==>
      r.response.casesPassed == "0" && r.response.passingPercentage == "0" && r.response.moreDetails == []
    ensures o.kubeClient ==> 0 < |r.phases| <= |Phases| && r.phases == Phases[..|r.phases|]
    ensures o.kubeClient ==>
      r.calls == [NewKubeClient(h.kubeClient, h.restConfig)]
        + TraceOf(0, |r.phases|, opts, Request(opts.annotations, opts.labels, h.name, h.version), o)
    ensures o.kubeClient && FailingPhase(o).None? ==>
      r.calls == [
        NewKubeClient(h.kubeClient, h.restConfig),
        ReadRemoteFile(opts.manifest, false),
        ApplyManifest(o.installFetch.value, ApplyOptions(opts.namespace, false)),
        GetServiceEndpoint(ServiceName, opts.namespace),
        CreateClient(Address(o.endpoint.value)),
        RunTest(Request(opts.annotations, opts.labels, h.name, h.version)),
        CloseClient,
        ReadRemoteFile(opts.manifest, true),
        ApplyManifest(o.deleteFetch.value, ApplyOptions(opts.namespace, true))]
  {
    if !o.kubeClient then
      Report(EmptyResponse, Some(ErrSmiInit(External(MesheryClientFailed))), [], [NewKubeClient(h.kubeClient, h.restConfig)])
    else
      var test := Request(opts.annotations, opts.labels, h.name, h.version);
      var start := Session(InitialResponse(h, opts, now), "", [NewKubeClient(h.kubeClient, h.restConfig)]);
      FailingPhaseCases(o);
      FromInstallTrace(start, test, opts, o);
      if FailingPhase(o).Some? then FromInstall(start, test, opts, o)
      else
        CompletedTrace(NewKubeClient(h.kubeClient, h.restConfig), opts, test, o);
        FromInstall(start, test, opts, o)
  }

  /** The run from the installing phase on: install, then hand over to
      the connecting phase. */
  function FromInstall(s: Session, test: Request, opts: SmiTestOptions, o: Outcomes): (r: Report)
    ensures Continues(s, o, r)
    ensures 0 < |r.phases| <= |Phases|
  {
    FailingPhaseCases(o);
    var installed := InstallConformanceTool(s, opts, o);
    if installed.failure.Some? then Abort(Installing, installed, Phases[..1])
    else FromConnect(installed.session, test, opts, o)
  }

  /** The run from the connecting phase on, once installing succeeded. */
  function FromConnect(s: Session, test: Request, opts: SmiTestOptions, o: Outcomes): (r: Report)
    requires PhaseSucceeds(Installing, o)
    ensures Continues(s, o, r)
    ensures 1 < |r.phases| <= |Phases|
  {
    FailingPhaseCases(o);
    var connected := ConnectConformanceTool(s, opts, o);
    if connected.failure.Some? then Abort(Connecting, connected, Phases[..2])
    else FromRun(connected.session, test, opts, o)
  }

  /** The run from the running phase on, once installing and connecting
      succeeded and the session holds the endpoint's address: run the
      test, then delete the tool. */
  function FromRun(s: Session, test: Request, opts: SmiTestOptions, o: Outcomes): (r: Report)
    requires PhaseSucceeds(Installing, o) && PhaseSucceeds(Connecting, o)
    requires s.address == Address(o.endpoint.value)
    ensures Continues(s, o, r)
    ensures 2 < |r.phases| <= |Phases|
  {
    FailingPhaseCases(o);
    var ran := RunConformanceTest(s, test, o);
    if ran.failure.Some? then Abort(Running, ran, Phases[..3])
    else
      var deleted := DeleteConformanceTool(ran.session, opts, o);
      if deleted.failure.Some? then Abort(Deleting, deleted, Phases)
      else Report(deleted.session.response.(status := "completed"), None, Phases, deleted.session.calls)
  }

  /** From each phase on, the run appends the reference calls of the
      phases it enters. */
  lemma FromInstallTrace(s: Session, test: Request, opts: SmiTestOptions, o: Outcomes)
    ensures var r := FromInstall(s, test, opts, o);
      0 < |r.phases| <= |Phases| && r.calls == s.calls + TraceOf(0, |r.phases|, opts, test, o)
  {
    var installed := InstallConformanceTool(s, opts, o);
    InstallCalls(s, opts, test, o);
    if installed.failure.Some? {
      ExtendTrace(s.calls, 0, 1, opts, test, o);
    } else {
      var r := FromConnect(installed.session, test, opts, o);
      FromConnectTrace(installed.session, test, opts, o);
      ExtendTrace(s.calls, 0, |r.phases|, opts, test, o);
    }
  }

  lemma FromConnectTrace(s: Session, test: Request, opts: SmiTestOptions, o: Outcomes)
    requires PhaseSucceeds(Installing, o)
    ensures var r := FromConnect(s, test, opts, o);
      1 < |r.phases| <= |Phases| && r.calls == s.calls + TraceOf(1, |r.phases|, opts, test, o)
  {
    var connected := ConnectConformanceTool(s, opts, o);
    ConnectCalls(s, opts, test, o);
    if connected.failure.Some? {
      ExtendTrace(s.calls, 1, 2, opts, test, o);
    } else {
      var r := FromRun(connected.session, test, opts, o);
      FromRunTrace(connected.session, test, opts, o);
      ExtendTrace(s.calls, 1, |r.phases|, opts, test, o);
    }
  }

  lemma FromRunTrace(s: Session, test: Request, opts: SmiTestOptions, o: Outcomes)
    requires PhaseSucceeds(Installing, o) && PhaseSucceeds(Connecting, o)
    requires s.address == Address(o.endpoint.value)
    ensures var r := FromRun(s, test, opts, o);
      2 < |r.phases| <= |Phases| && r.calls == s.calls + TraceOf(2, |r.phases|, opts, test, o)
  {
    var ran := RunConformanceTest(s, test, o);
    RunCalls(s, opts, test, o);
    if ran.failure.Some? {
      ExtendTrace(s.calls, 2, 3, opts, test, o);
    } else {
      DeleteCalls(ran.session, opts, test, o);
      ExtendTrace(s.calls + PhaseCalls(Running, opts, test, o), 3, 4, opts, test, o);
      ExtendTrace(s.calls, 2, 4, opts, test, o);
    }
  }

  /** Whether a call carries the arguments RunSMITest derives from its
      options, its adapter and the answers of earlier calls. */
  predicate Faithful(c: Call, h: Configure.Adapter, opts: SmiTestOptions, o: Outcomes) {
    match c
    case NewKubeClient(kubeClient, restConfig) => kubeClient == h.kubeClient && restConfig == h.restConfig
    case ReadRemoteFile(location, _) => location == opts.manifest
    case ApplyManifest(manifest, options) =>
      && options.namespace == opts.namespace
      && (if options.delete then o.deleteFetch == Some(manifest) else o.installFetch == Some(manifest))
    case GetServiceEndpoint(name, namespace) => name == ServiceName && namespace == opts.namespace
    case CreateClient(address) => ParseAddress(address) == o.endpoint
    case RunTest(request) => request == Request(opts.annotations, opts.labels, h.name, h.version)
    case CloseClient => true
  }

  predicate AllFaithful(calls: seq<Call>, h: Configure.Adapter, opts: SmiTestOptions, o: Outcomes) {
    forall i :: 0 <= i < |calls| ==> Faithful(calls[i], h, opts, o)
  }

  /** Every call a phase makes carries the derived arguments. */
  lemma PhaseFaithful(p: Phase, h: Configure.Adapter, opts: SmiTestOptions, o: Outcomes)
    ensures AllFaithful(PhaseCalls(p, opts, Request(opts.annotations, opts.labels, h.name, h.version), o), h, opts, o)
  {
    if p == Running {
      RunPhaseFaithful(h, opts, o);
    }
  }

  lemma RunPhaseFaithful(h: Configure.Adapter, opts: SmiTestOptions, o: Outcomes)
    ensures AllFaithful(PhaseCalls(Running, opts, Request(opts.annotations, opts.labels, h.name, h.version), o), h, opts, o)
  {
    var calls := PhaseCalls(Running, opts, Request(opts.annotations, opts.labels, h.name, h.version), o);
    if o.endpoint.Some? {
      AddressRoundTrip(o.endpoint.value);
      assert calls[0] == CreateClient(Address(o.endpoint.value));
    } else {
      assert ParseAddress("") == None;
      assert calls[0] == CreateClient("");
    }
    assert Faithful(calls[0], h, opts, o);
  }

  lemma {:induction false} TraceFaithful(j: nat, k: nat, h: Configure.Adapter, opts: SmiTestOptions, o: Outcomes)
    requires j <= k <= |Phases|
    ensures AllFaithful(TraceOf(j, k, opts, Request(opts.annotations, opts.labels, h.name, h.version), o), h, opts, o)
    decreases k - j
  {
    if j < k {
      PhaseFaithful(Phases[j], h, opts, o);
      TraceFaithful(j + 1, k, h, opts, o);
    }
  }

  /** Install and delete fetch the same manifest location and apply into
      the same namespace, differing only in the delete flag; the endpoint
      lookup, the client address and the test request carry what the
      options, the adapter and the endpoint lookup supplied. */
  lemma CallArguments(h: Configure.Adapter, opts: SmiTestOptions, now: string, o: Outcomes)
    ensures AllFaithful(RunSmiTest(h, opts, now, o).calls, h, opts, o)
  {
    var r := RunSmiTest(h, opts, now, o);
    if o.kubeClient {
      TraceFaithful(0, |r.phases|, h, opts, o);
    }
  }

  /** Whether a call is one a run makes only after entering one of `ps`:
      the first fetch and the install belong to installing, the re-fetch
      and the delete-mode apply to deleting, the endpoint lookup to
      connecting and the tool session to running. */
  predicate Within(c: Call, ps: seq<Phase>) {
    match c
    case NewKubeClient(_, _) => true
    case ReadRemoteFile(_, forDelete) => if forDelete then Deleting in ps else Installing in ps
    case ApplyManifest(_, options) => if options.delete then Deleting in ps else Installing in ps
    case GetServiceEndpoint(_, _) => Connecting in ps
    case CreateClient(_) => Running in ps
    case RunTest(_) => Running in ps
    case CloseClient => Running in ps
  }

  predicate AllWithin(calls: seq<Call>, ps: seq<Phase>) {
    forall i :: 0 <= i < |calls| ==> Within(calls[i], ps)
  }

  /** The calls of the phases `j` up to `k` all belong to phases in `ps`
      when those phases are. */
  lemma {:induction false} TraceWithin(j: nat, k: nat, opts: SmiTestOptions, test: Request, o: Outcomes, ps: seq<Phase>)
    requires j <= k <= |Phases|
    requires forall i :: j <= i < k ==> Phases[i] in ps
    ensures AllWithin(TraceOf(j, k, opts, test, o), ps)
    decreases k - j
  {
    if j < k {
      assert Phases[j] in ps;
      TraceWithin(j + 1, k, opts, test, o, ps);
    }
  }

  /** A phase after the failing one never runs: no call belonging to a
      phase outside `phases` appears in the trace. */
  lemma LaterPhasesNeverRun(h: Configure.Adapter, opts: SmiTestOptions, now: string, o: Outcomes)
    ensures var r := RunSmiTest(h, opts, now, o); AllWithin(r.calls, r.phases)
  {
    var r := RunSmiTest(h, opts, now, o);
    if o.kubeClient {
      var n := |r.phases|;
      var trace := TraceOf(0, n, opts, Request(opts.annotations, opts.labels, h.name, h.version), o);
      assert r.calls == [NewKubeClient(h.kubeClient, h.restConfig)] + trace;
      assert r.phases == Phases[..n];
      forall i | 0 <= i < n ensures Phases[i] in r.phases {
        assert r.phases[i] == Phases[i];
      }
      TraceWithin(0, n, opts, Request(opts.annotations, opts.labels, h.name, h.version), o, r.phases);
    }
  }

  /** A manifest that cannot be fetched stops the run in the installing
      phase: no endpoint lookup, tool session or deletion follows. */
  lemma InstallFetchFailure(h: Configure.Adapter, opts: SmiTestOptions, now: string, o: Outcomes)
    requires o.kubeClient && o.installFetch.None?
    ensures var r := RunSmiTest(h, opts, now, o);
      && r.response == InitialResponse(h, opts, now).(status := "installing")
      && r.err == Some(ErrInstallSmi(External(ReadRemoteFileFailed)))
      && r.phases == [Installing]
      && r.calls == [NewKubeClient(h.kubeClient, h.restConfig), ReadRemoteFile(opts.manifest, false)]
  {
  }

  /** A session that fails to close after the test ran keeps the copied
      counts and details, while the status says the run phase failed. */
  lemma CloseFailureKeepsResults(h: Configure.Adapter, opts: SmiTestOptions, now: string, o: Outcomes)
    requires o.kubeClient && PhaseSucceeds(Installing, o) && PhaseSucceeds(Connecting, o)
    requires o.createClient && o.runTest.Some? && !o.close
    ensures var r := RunSmiTest(h, opts, now, o);
      && r.err == Some(ErrRunSmi(External(CloseFailed)))
      && r.response.status == "running"
      && r.response.casesPassed == o.runTest.value.casespassed
      && r.response.passingPercentage == o.runTest.value.passpercent
      && r.response.moreDetails == Aggregate(o.runTest.value.details)
  {
  }

  /** A run where every call succeeds and the tool reports eight cases
      passed with three assertions ends completed with the three details in
      the order the tool sent them. */
  lemma HappyPath(h: Configure.Adapter, opts: SmiTestOptions, now: string, a: RemoteDetail, b: RemoteDetail, c: RemoteDetail)
    ensures var o := Outcomes(true, Some("manifest"), true, Some(Endpoint("10.0.0.1", 8080)),
                              true, Some(RemoteResult("8", "100", [a, b, c])), true, Some("manifest"), true);
      var r := RunSmiTest(h, opts, now, o);
      && r.err == None
      && r.response.status == "completed"
      && r.response.casesPassed == "8"
      && r.response.moreDetails == [ToDetail(a), ToDetail(b), ToDetail(c)]
      && r.phases == Phases
  {
    var o := Outcomes(true, Some("manifest"), true, Some(Endpoint("10.0.0.1", 8080)),
                      true, Some(RemoteResult("8", "100", [a, b, c])), true, Some("manifest"), true);
    assert PhaseSucceeds(Installing, o) && PhaseSucceeds(Connecting, o);
    assert PhaseSucceeds(Running, o) && PhaseSucceeds(Deleting, o);
    assert ResultsReceived(o);
    assert Aggregate([a, b, c]) == [ToDetail(a)] + Aggregate([b, c]);
    assert Aggregate([b, c]) == [ToDetail(b)] + Aggregate([c]);
  }
}
