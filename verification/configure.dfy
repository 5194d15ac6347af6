/** Bootstrapping an adapter instance from a kubeconfig blob
    (adapter/configure.go): validate the document, build the cluster
    clients, record the document's top-level fields, build the meshery
    client, then adopt the caller's context name and channel. */
module Configure {
  import opened Wrappers
  import opened Errors
  import opened Kubeconfig

  /** Connection tuning createKubeClient applies to every rest config. */
  const QPS: int := 50
  const Burst: int := 100

  /** The low-level connection configuration; `host` stands for every
      field the adapter does not set itself. */
  datatype RestConfig = RestConfig(host: string, qps: int, burst: int)

  /** Client handles, each recording the configuration it was built from. */
  datatype Clientset = Clientset(config: RestConfig)
  datatype DynamicClient = DynamicClient(config: RestConfig)
  datatype MesheryKubeclient = MesheryKubeclient(kubeClient: Option<Clientset>, restConfig: RestConfig)

  /** The top-level fields createKubeconfig copies into the adapter's
      key-value store. */
  datatype KubeconfigSnapshot = KubeconfigSnapshot(
    kind: string, apiVersion: string, currentContext: string,
    preferences: string, clusters: string, users: string, contexts: string)

  datatype Channel = Channel(id: nat)

  datatype Adapter = Adapter(
    name: string,
    version: string,
    clientcmdConfig: Option<Config>,
    kubeClient: Option<Clientset>,
    dynamicKubeClient: Option<DynamicClient>,
    restConfig: RestConfig,
    kubeconfigStore: Option<KubeconfigSnapshot>,
    mesheryKubeclient: Option<MesheryKubeclient>,
    channel: Option<Channel>)

  /** The library and operating-system calls bootstrap relies on, each
      either producing a value or failing. */
  datatype ClientGo = ClientGo(
    load: seq<byte> -> Option<Config>,
    accessible: Path -> bool,
    flatten: Config -> Option<Config>,
    minify: Config -> Option<Config>,
    restConfigFromKubeConfig: seq<byte> -> Option<RestConfig>,
    inClusterConfig: Option<RestConfig>,
    newClientset: RestConfig -> bool,
    newDynamicClient: RestConfig -> bool,
    unmarshalKubeconfig: seq<byte> -> Option<KubeconfigSnapshot>,
    newMesheryKubeclient: (Option<Clientset>, RestConfig) -> bool)

  /** The config the adapter would store if every validation step
      succeeded: the loaded document with its auth-infos filtered, then
      flattened, then minified. */
  function Sanitized(kubeconfig: seq<byte>, go: ClientGo): Option<Config> {
    match go.load(kubeconfig)
    case None => None
    case Some(loaded) =>
      var kept := Retained(loaded.authInfos, go.accessible);
      if |kept| == 0 then None
      else match go.flatten(loaded.(authInfos := kept))
        case None => None
        case Some(flat) => go.minify(flat)
  }

  /** Parse and sanitize the kubeconfig; store it only when every step succeeds. */
  function ValidateKubeconfig(h: Adapter, kubeconfig: seq<byte>, go: ClientGo): (r: Result<Adapter, Error>)
    ensures r.Success? <==> Sanitized(kubeconfig, go).Some?
    ensures r.Success? ==> r.value == h.(clientcmdConfig := Sanitized(kubeconfig, go))
    ensures r.Failure? ==> r.error.ErrValidateKubeconfig?
    ensures go.load(kubeconfig).None? ==> r == Failure(ErrValidateKubeconfig(External(LoadFailed)))
    ensures go.load(kubeconfig).Some? && FilterAuthInfos(go.load(kubeconfig).value.authInfos, go.accessible).Failure?
      ==> r == Failure(ErrValidateKubeconfig(ErrAuthInfosInvalid))
    ensures go.load(kubeconfig).Some? && FilterAuthInfos(go.load(kubeconfig).value.authInfos, go.accessible).Success? ==>
      var filtered := go.load(kubeconfig).value.(authInfos := Retained(go.load(kubeconfig).value.authInfos, go.accessible));
      && (go.flatten(filtered).None? ==> r == Failure(ErrValidateKubeconfig(External(FlattenFailed))))
      && (go.flatten(filtered).Some? && go.minify(go.flatten(filtered).value).None? ==>
            r == Failure(ErrValidateKubeconfig(External(MinifyFailed))))
  {
    match go.load(kubeconfig)
    case None => Failure(ErrValidateKubeconfig(External(LoadFailed)))
    case Some(loaded) =>
      match FilterAuthInfos(loaded.authInfos, go.accessible)
      case Failure(e) => Failure(ErrValidateKubeconfig(e))
      case Success(kept) =>
        match go.flatten(loaded.(authInfos := kept))
        case None => Failure(ErrValidateKubeconfig(External(FlattenFailed)))
        case Some(flat) =>
          match go.minify(flat)
          case None => Failure(ErrValidateKubeconfig(External(MinifyFailed)))
          case Some(minified) => Success(h.(clientcmdConfig := Some(minified)))
  }

  /** The rest config before tuning: read from the kubeconfig bytes when
      there are any, the in-cluster configuration otherwise. */
  function BaseRestConfig(kubeconfig: seq<byte>, go: ClientGo): Option<RestConfig> {
    if |kubeconfig| > 0 then go.restConfigFromKubeConfig(kubeconfig) else go.inClusterConfig
  }

  /** A rest config with createKubeClient's rate limits applied. */
  function Tuned(rc: RestConfig): (t: RestConfig)
    ensures t.host == rc.host && t.qps == 50 && t.burst == 100
  {
    rc.(qps := QPS, burst := Burst)
  }

  /** Build the typed and dynamic clients from the kubeconfig bytes when
      there are any, from the in-cluster configuration otherwise. */
  function CreateKubeClient(h: Adapter, kubeconfig: seq<byte>, go: ClientGo): (r: Result<Adapter, Error>)
    ensures r.Success? <==>
      && BaseRestConfig(kubeconfig, go).Some?
      && go.newClientset(Tuned(BaseRestConfig(kubeconfig, go).value))
      && go.newDynamicClient(Tuned(BaseRestConfig(kubeconfig, go).value))
    ensures r.Failure? ==> r.error.ErrClientSet?
    ensures |kubeconfig| > 0 && go.restConfigFromKubeConfig(kubeconfig).None? ==> r == Failure(ErrClientSet(External(RestConfigFailed)))
    ensures |kubeconfig| == 0 && go.inClusterConfig.None? ==> r == Failure(ErrClientSet(External(InClusterConfigFailed)))
    ensures BaseRestConfig(kubeconfig, go).Some? && !go.newClientset(Tuned(BaseRestConfig(kubeconfig, go).value))
      ==> r == Failure(ErrClientSet(External(ClientsetFailed)))
    ensures BaseRestConfig(kubeconfig, go).Some? && go.newClientset(Tuned(BaseRestConfig(kubeconfig, go).value))
      && !go.newDynamicClient(Tuned(BaseRestConfig(kubeconfig, go).value))
      ==> r == Failure(ErrClientSet(External(DynamicClientFailed)))
    ensures r.Success? ==> r.value.restConfig.qps == 50 && r.value.restConfig.burst == 100
    ensures r.Success? && |kubeconfig| > 0 ==>
      go.restConfigFromKubeConfig(kubeconfig).Some? && r.value.restConfig.host == go.restConfigFromKubeConfig(kubeconfig).value.host
    ensures r.Success? && |kubeconfig| == 0 ==>
      go.inClusterConfig.Some? && r.value.restConfig.host == go.inClusterConfig.value.host
    ensures r.Success? ==>
      && r.value.kubeClient == Some(Clientset(r.value.restConfig))
      && r.value.dynamicKubeClient == Some(DynamicClient(r.value.restConfig))
      && r.value == h.(kubeClient := r.value.kubeClient, dynamicKubeClient := r.value.dynamicKubeClient, restConfig := r.value.restConfig)
  {
    match BaseRestConfig(kubeconfig, go)
    case None =>
      Failure(ErrClientSet(External(if |kubeconfig| > 0 then RestConfigFailed else InClusterConfigFailed)))
    case Some(rc) =>
      var tuned := Tuned(rc);
      if !go.newClientset(tuned) then Failure(ErrClientSet(External(ClientsetFailed)))
      else if !go.newDynamicClient(tuned) then Failure(ErrClientSet(External(DynamicClientFailed)))
      else Success(h.(kubeClient := Some(Clientset(tuned)), dynamicKubeClient := Some(DynamicClient(tuned)), restConfig := tuned))
  }

  /** Copy the document's top-level fields into the key-value store. */
  function CreateKubeconfig(h: Adapter, kubeconfig: seq<byte>, go: ClientGo): (r: Result<Adapter, Error>)
    ensures r.Failure? <==> go.unmarshalKubeconfig(kubeconfig).None?
    ensures r.Failure? ==> r.error == External(KubeconfigStoreFailed)
    ensures r.Success? ==> r.value == h.(kubeconfigStore := go.unmarshalKubeconfig(kubeconfig))
  {
    match go.unmarshalKubeconfig(kubeconfig)
    case None => Failure(External(KubeconfigStoreFailed))
    case Some(snapshot) => Success(h.(kubeconfigStore := Some(snapshot)))
  }

  /** Wrap the adapter's current client and rest config in a meshery client. */
  function CreateMesheryKubeclient(h: Adapter, go: ClientGo): (r: Result<Adapter, Error>)
    ensures r.Failure? <==> !go.newMesheryKubeclient(h.kubeClient, h.restConfig)
    ensures r.Failure? ==> r.error == External(MesheryClientFailed)
    ensures r.Success? ==> r.value == h.(mesheryKubeclient := Some(MesheryKubeclient(h.kubeClient, h.restConfig)))
  {
    if go.newMesheryKubeclient(h.kubeClient, h.restConfig) then
      Success(h.(mesheryKubeclient := Some(MesheryKubeclient(h.kubeClient, h.restConfig))))
    else
      Failure(External(MesheryClientFailed))
  }

  /** The four bootstrap steps, in the order CreateInstance runs them. */
  datatype BootstrapStep = Validate | KubeClient | KubeconfigStore | MesheryClient

  const BootstrapSteps: seq<BootstrapStep> := [Validate, KubeClient, KubeconfigStore, MesheryClient]

  /** The adapter after bootstrap, the error if any, and the steps run. */
  datatype Bootstrap = Bootstrap(adapter: Adapter, err: Option<Error>, steps: seq<BootstrapStep>)

  /** CreateInstance: run the four steps in order, stop at the first
      failure, and only after all four succeeded set the stored config's
      current context and the notification channel. A step that succeeded
      before a later one failed keeps its effect on the adapter. */
  function CreateInstance(h: Adapter, kubeconfig: seq<byte>, contextName: string, ch: Option<Channel>, go: ClientGo): (r: Bootstrap)
    ensures 0 < |r.steps| <= |BootstrapSteps| && r.steps == BootstrapSteps[..|r.steps|]
    ensures r.err.None? ==> r.steps == BootstrapSteps
    ensures r.err.Some? ==> r.adapter.channel == h.channel
    ensures var validated := ValidateKubeconfig(h, kubeconfig, go);
      validated.Failure? ==> r == Bootstrap(h, Some(ErrCreateInstance(validated.error)), [Validate])
    ensures var validated := ValidateKubeconfig(h, kubeconfig, go);
      validated.Success? ==>
        var connected := CreateKubeClient(validated.value, kubeconfig, go);
        connected.Failure? ==> r == Bootstrap(validated.value, Some(ErrCreateInstance(connected.error)), BootstrapSteps[..2])
    ensures var validated := ValidateKubeconfig(h, kubeconfig, go);
      validated.Success? ==>
        var connected := CreateKubeClient(validated.value, kubeconfig, go);
        connected.Success? ==>
          var recorded := CreateKubeconfig(connected.value, kubeconfig, go);
          recorded.Failure? ==> r == Bootstrap(connected.value, Some(ErrCreateInstance(recorded.error)), BootstrapSteps[..3])
    ensures var validated := ValidateKubeconfig(h, kubeconfig, go);
      validated.Success? ==>
        var connected := CreateKubeClient(validated.value, kubeconfig, go);
        connected.Success? ==>
          var recorded := CreateKubeconfig(connected.value, kubeconfig, go);
          recorded.Success? ==>
            var ready := CreateMesheryKubeclient(recorded.value, go);
            ready.Failure? ==> r == Bootstrap(recorded.value, Some(ErrCreateInstance(ready.error)), BootstrapSteps)
    ensures r.err.None? <==>
      && Sanitized(kubeconfig, go).Some?
      && BaseRestConfig(kubeconfig, go).Some?
      && go.newClientset(Tuned(BaseRestConfig(kubeconfig, go).value))
      && go.newDynamicClient(Tuned(BaseRestConfig(kubeconfig, go).value))
      && go.unmarshalKubeconfig(kubeconfig).Some?
      && go.newMesheryKubeclient(Some(Clientset(Tuned(BaseRestConfig(kubeconfig, go).value))), Tuned(BaseRestConfig(kubeconfig, go).value))
    ensures r.err.None? ==>
      var t := Tuned(BaseRestConfig(kubeconfig, go).value);
      r.adapter == h.(
        clientcmdConfig := Some(Sanitized(kubeconfig, go).value.(currentContext := contextName)),
        kubeClient := Some(Clientset(t)),
        dynamicKubeClient := Some(DynamicClient(t)),
        restConfig := t,
        kubeconfigStore := go.unmarshalKubeconfig(kubeconfig),
        mesheryKubeclient := Some(MesheryKubeclient(Some(Clientset(t)), t)),
        channel := ch)
  {
    match ValidateKubeconfig(h, kubeconfig, go)
    case Failure(e) => Bootstrap(h, Some(ErrCreateInstance(e)), [Validate])
    case Success(validated) =>
      match CreateKubeClient(validated, kubeconfig, go)
      case Failure(e) => Bootstrap(validated, Some(ErrCreateInstance(e)), [Validate, KubeClient])
      case Success(connected) =>
        match CreateKubeconfig(connected, kubeconfig, go)
        case Failure(e) => Bootstrap(connected, Some(ErrCreateInstance(e)), [Validate, KubeClient, KubeconfigStore])
        case Success(recorded) =>
          match CreateMesheryKubeclient(recorded, go)
          case Failure(e) => Bootstrap(recorded, Some(ErrCreateInstance(e)), BootstrapSteps)
          case Success(ready) =>
            var config := ready.clientcmdConfig.value;
            Bootstrap(ready.(clientcmdConfig := Some(config.(currentContext := contextName)), channel := ch), None, BootstrapSteps)
  }

  /** A kubeconfig whose every credential is unusable never bootstraps: the
      failure is reported by validation, and the adapter is left as it was. */
  lemma UnusableCredentialsAbortBootstrap(h: Adapter, kubeconfig: seq<byte>, contextName: string, ch: Option<Channel>, go: ClientGo)
    requires go.load(kubeconfig).Some?
    requires forall k :: k in go.load(kubeconfig).value.authInfos ==>
      !Usable(go.load(kubeconfig).value.authInfos[k], go.accessible)
    ensures CreateInstance(h, kubeconfig, contextName, ch, go)
      == Bootstrap(h, Some(ErrCreateInstance(ErrValidateKubeconfig(ErrAuthInfosInvalid))), [Validate])
  {
  }

  /** A kubeconfig with one inline credential validates whatever the other
      entries' certificate paths are, provided flattening and minifying
      succeed on the filtered document. */
  lemma InlineCredentialValidates(h: Adapter, kubeconfig: seq<byte>, go: ClientGo, key: string)
    requires go.load(kubeconfig).Some?
    requires key in go.load(kubeconfig).value.authInfos
    requires |go.load(kubeconfig).value.authInfos[key].clientCertificateData| > 0
    requires var loaded := go.load(kubeconfig).value;
      var filtered := loaded.(authInfos := Retained(loaded.authInfos, go.accessible));
      go.flatten(filtered).Some? && go.minify(go.flatten(filtered).value).Some?
    ensures ValidateKubeconfig(h, kubeconfig, go).Success?
  {
    InlineDataPasses(go.load(kubeconfig).value.authInfos, go.accessible, key);
  }

  /** Conversely, when every collaborator call bootstrap makes succeeds,
      on the arguments it makes them with, the bootstrap completes. */
  lemma BootstrapSucceeds(h: Adapter, kubeconfig: seq<byte>, contextName: string, ch: Option<Channel>, go: ClientGo)
    requires Sanitized(kubeconfig, go).Some?
    requires BaseRestConfig(kubeconfig, go).Some?
    requires go.newClientset(Tuned(BaseRestConfig(kubeconfig, go).value))
    requires go.newDynamicClient(Tuned(BaseRestConfig(kubeconfig, go).value))
    requires go.unmarshalKubeconfig(kubeconfig).Some?
    requires go.newMesheryKubeclient(Some(Clientset(Tuned(BaseRestConfig(kubeconfig, go).value))), Tuned(BaseRestConfig(kubeconfig, go).value))
    ensures CreateInstance(h, kubeconfig, contextName, ch, go).err.None?
  {
  }
}
