/** The kubeconfig document as far as the adapter inspects it, and the
    auth-info filter that discards credentials the adapter cannot use
    (filterK8sConfigAuthInfos in adapter/configure.go). */
module Kubeconfig {
  import opened Wrappers
  import opened Errors

  newtype byte = b: int | 0 <= b < 256

  type Path = string

  /** A user entry. The filter reads only the certificate path and the
      inline certificate data; `rest` stands for every other credential
      field (token, exec plugin, ...), which is carried along untouched. */
  datatype AuthInfo = AuthInfo(clientCertificate: Path, clientCertificateData: seq<byte>, rest: string)

  datatype Cluster = Cluster(server: string, certificateAuthority: Path, certificateAuthorityData: seq<byte>)

  datatype Context = Context(cluster: string, authInfo: string, namespace: string)

  datatype Config = Config(
    currentContext: string,
    clusters: map<string, Cluster>,
    authInfos: map<string, AuthInfo>,
    contexts: map<string, Context>)

  /** An entry the adapter can authenticate with: it carries inline
      certificate data, or else `accessible` (standing in for os.Stat)
      accepts its certificate path. */
  predicate Usable(a: AuthInfo, accessible: Path -> bool) {
    |a.clientCertificateData| > 0 || accessible(a.clientCertificate)
  }

  /** The entries that survive the filter. */
  function Retained(authInfos: map<string, AuthInfo>, accessible: Path -> bool): (kept: map<string, AuthInfo>)
    ensures kept.Keys <= authInfos.Keys
    ensures forall k :: k in kept ==> kept[k] == authInfos[k]
    ensures forall k :: k in authInfos && |authInfos[k].clientCertificateData| > 0 ==> k in kept
    ensures forall k :: k in authInfos ==>
      (k !in kept <==> |authInfos[k].clientCertificateData| == 0 && !accessible(authInfos[k].clientCertificate))
  {
    map k | k in authInfos && Usable(authInfos[k], accessible) :: authInfos[k]
  }

  /** The filter as a function: the surviving entries, or
      ErrAuthInfosInvalid when none survives. */
  function FilterAuthInfos(authInfos: map<string, AuthInfo>, accessible: Path -> bool): (r: Result<map<string, AuthInfo>, Error>)
    ensures r.Failure? <==> forall k :: k in authInfos ==> !Usable(authInfos[k], accessible)
    ensures r.Failure? ==> r.error == ErrAuthInfosInvalid
    ensures r.Success? ==> r.value == Retained(authInfos, accessible) && |r.value| > 0
  {
    var kept := Retained(authInfos, accessible);
    if |kept| == 0 then
      Failure(ErrAuthInfosInvalid)
    else
      assert kept.Keys != {} by {
        var k :| k in kept.Keys;
      }
      Success(kept)
  }

  /** The Go loop: visit every key once and delete the entries that have
      no inline data and an inaccessible certificate path; then fail if
      the map ended up empty. */
  method FilterK8sConfigAuthInfos(authInfos: map<string, AuthInfo>, accessible: Path -> bool)
    returns (kept: map<string, AuthInfo>, err: Option<Error>)
    ensures kept == Retained(authInfos, accessible)
    ensures err.Some? <==> |kept| == 0
    ensures err.Some? ==> err.value == ErrAuthInfosInvalid
  {
    kept := authInfos;
    var pending := authInfos.Keys;
    while pending != {}
      invariant pending <= authInfos.Keys
      invariant kept.Keys <= authInfos.Keys
      invariant forall k :: k in kept ==> kept[k] == authInfos[k]
      invariant forall k :: k in pending ==> k in kept
      invariant forall k :: k in authInfos && k !in pending ==> (k in kept <==> Usable(authInfos[k], accessible))
      decreases pending
    {
      var key :| key in pending;
      var authInfo := kept[key];
      if |authInfo.clientCertificateData| == 0 {
        if !accessible(authInfo.clientCertificate) {
          kept := kept - {key};
        }
      }
      pending := pending - {key};
    }
    err := if |kept| == 0 then Some(ErrAuthInfosInvalid) else None;
  }

  /** Filtering an already filtered map changes nothing. */
  lemma FilterIdempotent(authInfos: map<string, AuthInfo>, accessible: Path -> bool)
    ensures Retained(Retained(authInfos, accessible), accessible) == Retained(authInfos, accessible)
  {
  }

  /** One entry with inline certificate data is enough for the filter to
      succeed, whatever the other entries' paths are; that entry is kept. */
  lemma InlineDataPasses(authInfos: map<string, AuthInfo>, accessible: Path -> bool, key: string)
    requires key in authInfos && |authInfos[key].clientCertificateData| > 0
    ensures FilterAuthInfos(authInfos, accessible).Success?
    ensures key in FilterAuthInfos(authInfos, accessible).value
  {
  }

  /** When every entry lacks inline data and points at an inaccessible
      path (in particular when there is no entry at all), the filter fails. */
  lemma NoUsableCredentialFails(authInfos: map<string, AuthInfo>, accessible: Path -> bool)
    requires forall k :: k in authInfos ==>
      |authInfos[k].clientCertificateData| == 0 && !accessible(authInfos[k].clientCertificate)
    ensures FilterAuthInfos(authInfos, accessible) == Failure(ErrAuthInfosInvalid)
  {
  }
}
