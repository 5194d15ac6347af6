/** The adapter's error values. Each Go error constructor of the adapter
    package becomes one constructor here; failures of code outside the
    model (client-go, the file system, the network, the conformance tool)
    are named by a `Cause`. */
module Errors {

  /** Failures reported by collaborators that the model treats as opaque. */
  datatype Cause =
    | LoadFailed              // clientcmd.Load
    | FlattenFailed           // clientcmdapi.FlattenConfig
    | MinifyFailed            // clientcmdapi.MinifyConfig
    | RestConfigFailed        // clientcmd.RESTConfigFromKubeConfig
    | InClusterConfigFailed   // rest.InClusterConfig
    | ClientsetFailed         // kubernetes.NewForConfig
    | DynamicClientFailed     // dynamic.NewForConfig
    | KubeconfigStoreFailed   // yaml.Unmarshal or a KubeconfigHandler.SetObject
    | MesheryClientFailed     // mesherykube.New
    | ReadRemoteFileFailed    // utils.ReadRemoteFile
    | ApplyManifestFailed     // kclient.ApplyManifest
    | ServiceEndpointFailed   // kclient.GetServiceEndpoint
    | CreateClientFailed      // conformance.CreateClient
    | RunTestFailed           // CClient.RunTest
    | CloseFailed             // cClient.Close

  datatype Error =
    | External(cause: Cause)
    | ErrAuthInfosInvalid
    | ErrValidateKubeconfig(inner: Error)
    | ErrClientSet(inner: Error)
    | ErrCreateInstance(inner: Error)
    | ErrSmiInit(inner: Error)
    | ErrInstallSmi(inner: Error)
    | ErrConnectSmi(inner: Error)
    | ErrRunSmi(inner: Error)
    | ErrDeleteSmi(inner: Error)
}
