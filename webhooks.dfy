/** The webhook registration endpoint of the webhooks extension: the checks a
    registration request goes through, the GitHub source derived from the
    repository URL, and the name-keyed map of webhooks kept under one key of a
    ConfigMap. Calls to the cluster are inputs: the ConfigMaps the cluster
    holds, and whether a create or update call succeeds. */
module Webhooks {

  import opened Wrappers
  import opened GoStrings

  /** The fields of the `webhook` record that the endpoint reads or sets. */
  datatype Webhook = Webhook(
    name: string,
    namespace: string,
    gitRepositoryURL: string,
    accessTokenRef: string,
    dockerRegistry: string,
    releaseName: string)

  /** The extension's configured defaults (`Resource.Defaults`). */
  datatype Defaults = Defaults(namespace: string, dockerRegistry: string)

  datatype SecretKeyRef = SecretKeyRef(secretName: string, key: string)

  datatype ObjectRef = ObjectRef(apiVersion: string, kind: string, name: string)

  /** The GitHubSource handed to the event-sources client. */
  datatype GitHubSource = GitHubSource(
    name: string,
    ownerAndRepository: string,
    eventTypes: seq<string>,
    accessToken: SecretKeyRef,
    secretToken: SecretKeyRef,
    sink: ObjectRef,
    gitHubAPIURL: string)

  /** A GitHubSource create call: the namespace and the object. */
  datatype SourceCreate = SourceCreate(namespace: string, source: GitHubSource)

  /** A value under one key of a ConfigMap's binary data. JSON is not
      modelled: a blob either decodes to a map of webhooks or fails to. */
  datatype Blob = WebhooksJson(webhooks: map<string, Webhook>) | Undecodable

  /** A ConfigMap as Get returns it; its binary data may be nil (`None`),
      which reads like an empty map but cannot be written to. */
  datatype ConfigMap = ConfigMap(name: string, namespace: string, binaryData: Option<map<string, Blob>>)

  /** The webhook ConfigMap of each namespace, as the cluster holds it; Get
      fails in a namespace that has none. */
  type Cluster = map<string, ConfigMap>

  /** The call writeGitHubWebhooks makes on the ConfigMap client. */
  datatype ConfigMapCall = CreateConfigMap(configMap: ConfigMap) | UpdateConfigMap(configMap: ConfigMap)

  datatype ReadError = UnmarshalFailed

  datatype WriteError = ConfigMapCreateFailed

  /** How writeGitHubWebhooks ends: with the call it made and the error it
      returns, or in a panic when it assigns into a nil binary-data map. */
  datatype WriteOutcome = Wrote(call: ConfigMapCall, err: Option<WriteError>) | NilMapPanic

  /** Why a registration request was refused. */
  datatype Rejection =
    | UnreadableEntity
    | ReleaseNameTooLong
    | NamespaceRequired
    | RepositoryUrlFormat
    | ApiUrlParse(apiURL: string)
    | SourceCreateFailed
    | WebhooksReadFailed

  /** What createWebhook sends back, and which cluster calls it made; or the
      panic that ends it after the GitHubSource was created. */
  datatype CreateResponse = CreateResponse(
    status: int,
    rejection: Option<Rejection>,
    source: Option<SourceCreate>,
    stored: Option<ConfigMapCall>)
    | Panicked(source: Option<SourceCreate>)

  const GitHubSourceKey := "GitHubSource"
  const MaxReleaseNameLength := 63
  const ApiPath := "api/v3/"
  const StatusOK := 200
  const StatusCreated := 201
  const StatusBadRequest := 400
  const StatusInternalServerError := 500

  /** The namespace the extension is installed in. */
  function InstallNamespace(d: Defaults): (ns: string)
    ensures ns != ""
    ensures d.namespace != "" ==> ns == d.namespace
    ensures d.namespace == "" ==> ns == "default"
  {
    if d.namespace == "" then "default" else d.namespace
  }

  /** The release-name check: an empty name is not checked, a non-empty one
      must not be longer than 63. */
  function ReleaseNameAllowed(name: string): (ok: bool)
    ensures ok <==> |name| <= MaxReleaseNameLength
  {
    name != "" ==> |name| <= MaxReleaseNameLength
  }

  /** The docker registry a request ends up with: its own, or the default
      when it gives none. */
  function DefaultRegistry(requested: string, fallback: string): (r: string)
    ensures requested != "" ==> r == requested
    ensures requested == "" ==> r == fallback
  {
    if requested == "" && fallback != "" then fallback else requested
  }

  /** Applying the registry default a second time changes nothing. */
  lemma DefaultRegistryIdempotent(requested: string, fallback: string)
    ensures DefaultRegistry(DefaultRegistry(requested, fallback), fallback)
         == DefaultRegistry(requested, fallback)
  {
  }

  /** The webhook as the endpoint stores it. */
  function Registered(w: Webhook, d: Defaults): (r: Webhook)
  {
    w.(dockerRegistry := DefaultRegistry(w.dockerRegistry, d.dockerRegistry))
  }

  /** The URL format check: at least four pieces between slashes. */
  predicate UrlWellFormed(url: string)
  {
    |Split(url)| >= 4
  }

  /** The second-to-last piece of the repository URL: the owner. */
  function OwnerPiece(url: string): (owner: string)
    requires UrlWellFormed(url)
    ensures '/' !in owner
  {
    var p := Split(url); p[|p| - 2]
  }

  /** The last piece of the repository URL: the repository. */
  function RepoPiece(url: string): (repo: string)
    requires UrlWellFormed(url)
    ensures '/' !in repo
  {
    var p := Split(url); p[|p| - 1]
  }

  /** The URL up to and including the slash before the owner piece. */
  function UrlPrefix(url: string): (r: string)
    requires UrlWellFormed(url)
  {
    var p := Split(url); Join(p[..|p| - 2]) + "/"
  }

  /** The API URL: the repository URL without its last two pieces, followed
      by `api/v3/`. */
  function ApiUrl(url: string): (r: string)
    requires UrlWellFormed(url)
    ensures HasSuffix(r, ApiPath)
  {
    TrimSuffix(url, OwnerPiece(url) + "/" + RepoPiece(url)) + ApiPath
  }

  /** `owner/repo`: the last two pieces, with one trailing `.git` dropped. */
  function OwnerRepo(url: string): (r: string)
    requires UrlWellFormed(url)
    ensures var owner, repo := OwnerPiece(url), RepoPiece(url);
      |owner| < |r| && r[..|owner| + 1] == owner + "/"
      && (HasSuffix(repo, ".git") ==> r[|owner| + 1..] + ".git" == repo)
      && (!HasSuffix(repo, ".git") ==> r[|owner| + 1..] == repo)
    ensures Count(r, '/') == 1
  {
    var owner, repo := OwnerPiece(url), TrimSuffix(RepoPiece(url), ".git");
    assert repo == RepoPiece(url)[..|repo|];
    assert '/' !in repo by {
      forall i | 0 <= i < |repo| ensures repo[i] != '/' {
        assert repo[i] == RepoPiece(url)[i];
      }
    }
    CountConcat(owner, "/", '/');
    CountConcat(owner + "/", repo, '/');
    var r := owner + "/" + repo;
    assert r[..|owner| + 1] == owner + "/";
    assert r[|owner| + 1..] == repo;
    r
  }

  /** A URL is its prefix followed by `owner/repo`. */
  lemma {:induction false} SplitLastTwo(url: string)
    requires UrlWellFormed(url)
    ensures url == UrlPrefix(url) + (OwnerPiece(url) + "/" + RepoPiece(url))
  {
    var p := Split(url);
    var n := |p|;
    JoinSplit(url);
    assert p == p[..n - 2] + p[n - 2..];
    JoinAppend(p[..n - 2], p[n - 2..]);
    assert p[n - 2..][1..] == [p[n - 1]];
  }

  lemma TrimAppended(prefix: string, tail: string)
    ensures HasSuffix(prefix + tail, tail)
    ensures TrimSuffix(prefix + tail, tail) == prefix
  {
  }

  /** The suffix cut from a well-formed URL is always there, so the API URL
      is the URL's prefix followed by `api/v3/`, and has the prefix's dots. */
  lemma ApiUrlShape(url: string)
    requires UrlWellFormed(url)
    ensures HasSuffix(url, OwnerPiece(url) + "/" + RepoPiece(url))
    ensures ApiUrl(url) == UrlPrefix(url) + ApiPath
    ensures Count(ApiUrl(url), '.') == Count(UrlPrefix(url), '.')
  {
    var prefix := UrlPrefix(url);
    var tail := OwnerPiece(url) + "/" + RepoPiece(url);
    assert ApiUrl(url) == TrimSuffix(url, tail) + ApiPath;
    SplitLastTwo(url);
    TrimAppended(prefix, tail);
    CountConcat(prefix, ApiPath, '.');
  }

  /** The value of the source's custom API URL, decided by the dots in the API
      URL: two dots set it, one dot leaves it empty, any other count is
      refused. */
  function GitHubApiUrlSetting(apiURL: string): (r: Option<string>)
    ensures r.Some? <==> Count(apiURL, '.') == 1 || Count(apiURL, '.') == 2
    ensures r == Some(apiURL) <==> Count(apiURL, '.') == 2
    ensures Count(apiURL, '.') == 1 ==> r == Some("")
  {
    var c := Count(apiURL, '.');
    if c == 2 then Some(apiURL) else if c == 1 then Some("") else None
  }

  /** The checks a registration runs before it creates anything. */
  predicate Accepted(w: Webhook)
  {
    ReleaseNameAllowed(w.releaseName)
    && w.namespace != ""
    && UrlWellFormed(w.gitRepositoryURL)
    && GitHubApiUrlSetting(ApiUrl(w.gitRepositoryURL)).Some?
  }

  /** The GitHubSource created for an accepted request. */
  function SourceFor(w: Webhook): (r: GitHubSource)
    requires Accepted(w)
  {
    GitHubSource(
      w.name,
      OwnerRepo(w.gitRepositoryURL),
      ["push", "pull_request"],
      SecretKeyRef(w.accessTokenRef, "accessToken"),
      SecretKeyRef(w.accessTokenRef, "secretToken"),
      ObjectRef("serving.knative.dev/v1alpha1", "Service", "webhooks-extension-sink"),
      GitHubApiUrlSetting(ApiUrl(w.gitRepositoryURL)).value)
  }

  /** The blob stored under the webhook key, if the ConfigMap exists, has
      binary data and holds the key. */
  function StoredBlob(got: Option<ConfigMap>): (r: Option<Blob>)
  {
    if got.Some? && got.value.binaryData.Some? && GitHubSourceKey in got.value.binaryData.value then
      Some(got.value.binaryData.value[GitHubSourceKey])
    else None
  }

  /** The webhook map stored in a ConfigMap: a missing ConfigMap, nil binary
      data or a missing key reads as the empty map, an undecodable blob as an
      error. */
  function ReadWebhooks(got: Option<ConfigMap>): (r: Result<map<string, Webhook>, ReadError>)
    ensures got.None? ==> r == Success(map[])
    ensures StoredBlob(got).None? ==> r == Success(map[])
    ensures StoredBlob(got).Some? && StoredBlob(got).value.WebhooksJson? ==>
      r == Success(StoredBlob(got).value.webhooks)
    ensures r.Failure? <==> StoredBlob(got) == Some(Undecodable)
  {
    var data := if got.None? || got.value.binaryData.None? then map[] else got.value.binaryData.value;
    if GitHubSourceKey in data then
      match data[GitHubSourceKey]
      case WebhooksJson(m) => Success(m)
      case Undecodable => Failure(UnmarshalFailed)
    else Success(map[])
  }

  function GetConfigMap(cluster: Cluster, namespace: string): (r: Option<ConfigMap>)
  {
    if namespace in cluster then Some(cluster[namespace]) else None
  }

  /** The namespace holds a ConfigMap whose binary data is nil. */
  predicate NilBinaryData(cluster: Cluster, namespace: string)
  {
    namespace in cluster && cluster[namespace].binaryData.None?
  }

  /** The ConfigMap writeGitHubWebhooks submits: the namespace's own one with
      the webhook key set and every other key kept, or a new one of the given
      name holding only that key when the namespace has none. */
  function WrittenConfigMap(configMapName: string, namespace: string, sources: map<string, Webhook>,
                            cluster: Cluster): (r: ConfigMap)
    requires !NilBinaryData(cluster, namespace)
    ensures r.binaryData.Some? && GitHubSourceKey in r.binaryData.value
      && r.binaryData.value[GitHubSourceKey] == WebhooksJson(sources)
    ensures namespace in cluster ==>
      r.name == cluster[namespace].name && r.namespace == cluster[namespace].namespace
      && r.binaryData.value.Keys == cluster[namespace].binaryData.value.Keys + {GitHubSourceKey}
      && (forall k :: k in cluster[namespace].binaryData.value && k != GitHubSourceKey ==>
            k in r.binaryData.value && r.binaryData.value[k] == cluster[namespace].binaryData.value[k])
    ensures namespace !in cluster ==>
      r.name == configMapName && r.namespace == namespace && r.binaryData.value.Keys == {GitHubSourceKey}
  {
    if namespace in cluster then
      var old_ := cluster[namespace];
      old_.(binaryData := Some(old_.binaryData.value[GitHubSourceKey := WebhooksJson(sources)]))
    else
      ConfigMap(configMapName, namespace, Some(map[GitHubSourceKey := WebhooksJson(sources)]))
  }

  /** writeGitHubWebhooks: sets the webhook key of the namespace's ConfigMap,
      or of a new one when Get fails, and creates or updates it. Only a
      failed create is reported; a failed update is not. An existing
      ConfigMap with nil binary data makes the assignment panic. */
  method WriteWebhooks(configMapName: string, namespace: string, sources: map<string, Webhook>,
                       cluster: Cluster, submitOk: bool)
    returns (w: WriteOutcome)
    ensures w.NilMapPanic? <==> NilBinaryData(cluster, namespace)
    ensures w.Wrote? ==> (w.call.CreateConfigMap? <==> namespace !in cluster)
    ensures namespace !in cluster ==>
      w == Wrote(CreateConfigMap(ConfigMap(configMapName, namespace, Some(map[GitHubSourceKey := WebhooksJson(sources)]))),
                 if submitOk then None else Some(ConfigMapCreateFailed))
    ensures namespace in cluster && !NilBinaryData(cluster, namespace) ==>
      var old_ := cluster[namespace];
      w == Wrote(UpdateConfigMap(old_.(binaryData := Some(old_.binaryData.value[GitHubSourceKey := WebhooksJson(sources)]))),
                 None)
    ensures w.Wrote? ==> (w.err.Some? <==> namespace !in cluster && !submitOk)
    ensures w.Wrote? ==> ReadWebhooks(Some(w.call.configMap)) == Success(sources)
  {
    var got := GetConfigMap(cluster, namespace);
    var configMap: ConfigMap;
    var create := false;
    if got.None? {
      configMap := ConfigMap(configMapName, namespace, Some(map[]));
      create := true;
    } else {
      configMap := got.value;
    }
    if configMap.binaryData.None? {
      // assignment to an entry in a nil map
      return NilMapPanic;
    }
    configMap := configMap.(binaryData := Some(configMap.binaryData.value[GitHubSourceKey := WebhooksJson(sources)]));
    if create {
      w := Wrote(CreateConfigMap(configMap), if submitOk then None else Some(ConfigMapCreateFailed));
    } else {
      w := Wrote(UpdateConfigMap(configMap), None);
    }
  }

  /** createWebhook: runs the checks in order, answering 400 at the first that
      fails, then creates the GitHub source and records the webhook under its
      name. The result of writing the ConfigMap does not change the answer,
      unless the write panics on nil binary data. */
  method CreateWebhook(defaults: Defaults, entity: Option<Webhook>, configMapName: string,
                       sourceCreateOk: bool, cluster: Cluster, configMapSubmitOk: bool)
    returns (r: CreateResponse)
    ensures entity.None? ==>
      r == CreateResponse(StatusBadRequest, Some(UnreadableEntity), None, None)
    ensures entity.Some? && !ReleaseNameAllowed(entity.value.releaseName) ==>
      r == CreateResponse(StatusBadRequest, Some(ReleaseNameTooLong), None, None)
    ensures entity.Some? && ReleaseNameAllowed(entity.value.releaseName) && entity.value.namespace == "" ==>
      r == CreateResponse(StatusBadRequest, Some(NamespaceRequired), None, None)
    ensures (entity.Some? && ReleaseNameAllowed(entity.value.releaseName) && entity.value.namespace != ""
             && !UrlWellFormed(entity.value.gitRepositoryURL)) ==>
      r == CreateResponse(StatusBadRequest, Some(RepositoryUrlFormat), None, None)
    ensures (entity.Some? && ReleaseNameAllowed(entity.value.releaseName) && entity.value.namespace != ""
             && UrlWellFormed(entity.value.gitRepositoryURL)
             && GitHubApiUrlSetting(ApiUrl(entity.value.gitRepositoryURL)).None?) ==>
      r == CreateResponse(StatusBadRequest, Some(ApiUrlParse(ApiUrl(entity.value.gitRepositoryURL))), None, None)
    ensures r.source.Some? <==> entity.Some? && Accepted(entity.value)
    ensures r.source.Some? ==>
      r.source.value == SourceCreate(InstallNamespace(defaults), SourceFor(entity.value))
    ensures r.source.Some? && !sourceCreateOk ==>
      r == CreateResponse(StatusBadRequest, Some(SourceCreateFailed), r.source, None)
    ensures (r.source.Some? && sourceCreateOk
             && ReadWebhooks(GetConfigMap(cluster, InstallNamespace(defaults))).Failure?) ==>
      r == CreateResponse(StatusInternalServerError, Some(WebhooksReadFailed), r.source, None)
    ensures r.Panicked? <==>
      r.source.Some? && sourceCreateOk && ReadWebhooks(GetConfigMap(cluster, InstallNamespace(defaults))).Success?
      && NilBinaryData(cluster, InstallNamespace(defaults))
    ensures r.CreateResponse? && r.status == StatusCreated <==>
      r.source.Some? && sourceCreateOk && ReadWebhooks(GetConfigMap(cluster, InstallNamespace(defaults))).Success?
      && !NilBinaryData(cluster, InstallNamespace(defaults))
    ensures r.CreateResponse? ==> (r.stored.Some? <==> r.status == StatusCreated)
    ensures r.CreateResponse? && r.status == StatusCreated ==>
      var before := ReadWebhooks(GetConfigMap(cluster, InstallNamespace(defaults))).value;
      r.rejection.None?
      && (r.stored.value.CreateConfigMap? <==> InstallNamespace(defaults) !in cluster)
      && ReadWebhooks(Some(r.stored.value.configMap))
         == Success(before[entity.value.name := Registered(entity.value, defaults)])
      && r.stored.value.configMap
         == WrittenConfigMap(configMapName, InstallNamespace(defaults),
                             before[entity.value.name := Registered(entity.value, defaults)], cluster)
  {
    var installNs := defaults.namespace;
    if installNs == "" {
      installNs := "default";
    }
    assert installNs == InstallNamespace(defaults);
    if entity.None? {
      return CreateResponse(StatusBadRequest, Some(UnreadableEntity), None, None);
    }
    var webhook := entity.value;
    if webhook.releaseName != "" {
      if |webhook.releaseName| > MaxReleaseNameLength {
        return CreateResponse(StatusBadRequest, Some(ReleaseNameTooLong), None, None);
      }
    }
    var dockerRegDefault := defaults.dockerRegistry;
    if webhook.dockerRegistry == "" && dockerRegDefault != "" {
      webhook := webhook.(dockerRegistry := dockerRegDefault);
    }
    var checked := CheckWebhook(webhook);
    if checked.Failure? {
      return CreateResponse(StatusBadRequest, Some(checked.error), None, None);
    }
    assert webhook == Registered(entity.value, defaults);
    assert SourceFor(webhook) == SourceFor(entity.value);
    r := RecordWebhook(installNs, SourceCreate(installNs, checked.value), webhook, configMapName,
                       sourceCreateOk, cluster, configMapSubmitOk);
  }

  /** The checks of createWebhook after the release name, in order: the
      target namespace, the repository URL's format and the API URL derived
      from it. The first that fails names the rejection; when all pass, the
      GitHubSource to create. */
  method CheckWebhook(webhook: Webhook) returns (res: Result<GitHubSource, Rejection>)
    requires ReleaseNameAllowed(webhook.releaseName)
    ensures webhook.namespace == "" ==> res == Failure(NamespaceRequired)
    ensures webhook.namespace != "" && !UrlWellFormed(webhook.gitRepositoryURL) ==>
      res == Failure(RepositoryUrlFormat)
    ensures (webhook.namespace != "" && UrlWellFormed(webhook.gitRepositoryURL)
             && GitHubApiUrlSetting(ApiUrl(webhook.gitRepositoryURL)).None?) ==>
      res == Failure(ApiUrlParse(ApiUrl(webhook.gitRepositoryURL)))
    ensures res.Success? <==>
      webhook.namespace != "" && UrlWellFormed(webhook.gitRepositoryURL)
      && GitHubApiUrlSetting(ApiUrl(webhook.gitRepositoryURL)).Some?
    ensures res.Success? ==> res.value == SourceFor(webhook)
  {
    if webhook.namespace == "" {
      return Failure(NamespaceRequired);
    }
    var url := webhook.gitRepositoryURL;
    var pieces := Split(url);
    if |pieces| < 4 {
      return Failure(RepositoryUrlFormat);
    }
    var n := |pieces|;
    var apiURL := TrimSuffix(url, pieces[n - 2] + "/" + pieces[n - 1]) + ApiPath;
    var ownerRepo := pieces[n - 2] + "/" + TrimSuffix(pieces[n - 1], ".git");
    var entry := GitHubSource(
      webhook.name,
      ownerRepo,
      ["push", "pull_request"],
      SecretKeyRef(webhook.accessTokenRef, "accessToken"),
      SecretKeyRef(webhook.accessTokenRef, "secretToken"),
      ObjectRef("serving.knative.dev/v1alpha1", "Service", "webhooks-extension-sink"),
      "");
    assert apiURL == ApiUrl(url) && ownerRepo == OwnerRepo(url);
    var c := Count(apiURL, '.');
    if c == 2 {
      entry := entry.(gitHubAPIURL := apiURL);
    } else if c != 1 {
      return Failure(ApiUrlParse(apiURL));
    }
    res := Success(entry);
  }

  /** The last steps of createWebhook, once the GitHub source is built:
      create it, read the stored webhooks, add this one under its name and
      write the map back. */
  method RecordWebhook(installNs: string, source: SourceCreate, webhook: Webhook, configMapName: string,
                       sourceCreateOk: bool, cluster: Cluster, configMapSubmitOk: bool)
    returns (r: CreateResponse)
    ensures r.source == Some(source)
    ensures !sourceCreateOk ==>
      r == CreateResponse(StatusBadRequest, Some(SourceCreateFailed), Some(source), None)
    ensures sourceCreateOk && ReadWebhooks(GetConfigMap(cluster, installNs)).Failure? ==>
      r == CreateResponse(StatusInternalServerError, Some(WebhooksReadFailed), Some(source), None)
    ensures r.Panicked? <==>
      sourceCreateOk && ReadWebhooks(GetConfigMap(cluster, installNs)).Success? && NilBinaryData(cluster, installNs)
    ensures r.CreateResponse? && r.status == StatusCreated <==>
      sourceCreateOk && ReadWebhooks(GetConfigMap(cluster, installNs)).Success? && !NilBinaryData(cluster, installNs)
    ensures r.CreateResponse? ==> (r.stored.Some? <==> r.status == StatusCreated)
    ensures r.CreateResponse? && r.status == StatusCreated ==>
      var before := ReadWebhooks(GetConfigMap(cluster, installNs)).value;
      r.rejection.None?
      && (r.stored.value.CreateConfigMap? <==> installNs !in cluster)
      && ReadWebhooks(Some(r.stored.value.configMap)) == Success(before[webhook.name := webhook])
      && r.stored.value.configMap == WrittenConfigMap(configMapName, installNs, before[webhook.name := webhook], cluster)
  {
    if !sourceCreateOk {
      return CreateResponse(StatusBadRequest, Some(SourceCreateFailed), Some(source), None);
    }
    var read := ReadWebhooks(GetConfigMap(cluster, installNs));
    if read.Failure? {
      return CreateResponse(StatusInternalServerError, Some(WebhooksReadFailed), Some(source), None);
    }
    var webhooks := read.value;
    webhooks := webhooks[webhook.name := webhook];
    var w := WriteWebhooks(configMapName, installNs, webhooks, cluster, configMapSubmitOk);
    if w.NilMapPanic? {
      return Panicked(Some(source));
    }
    r := CreateResponse(StatusCreated, None, Some(source), Some(w.call));
  }

  /** getAllWebhooks: every stored webhook, in the map's iteration order;
      `keys` names the order taken. */
  method GetAllWebhooks(defaults: Defaults, cluster: Cluster)
    returns (status: int, list: seq<Webhook>, ghost keys: seq<string>)
    ensures ReadWebhooks(GetConfigMap(cluster, InstallNamespace(defaults))).Failure? ==>
      status == StatusInternalServerError && list == []
    ensures ReadWebhooks(GetConfigMap(cluster, InstallNamespace(defaults))).Success? ==>
      var sources := ReadWebhooks(GetConfigMap(cluster, InstallNamespace(defaults))).value;
      status == StatusOK
      && |list| == |keys| == |sources|
      && (forall k :: k in keys <==> k in sources)
      && (forall i, j :: 0 <= i < j < |keys| ==> keys[i] != keys[j])
      && (forall i :: 0 <= i < |list| ==> keys[i] in sources && list[i] == sources[keys[i]])
  {
    var installNs := defaults.namespace;
    if installNs == "" {
      installNs := "default";
    }
    var read := ReadWebhooks(GetConfigMap(cluster, installNs));
    if read.Failure? {
      return StatusInternalServerError, [], [];
    }
    var sources := read.value;
    var remaining := sources.Keys;
    list, keys := [], [];
    while remaining != {}
      invariant remaining <= sources.Keys
      invariant |list| == |keys| && |keys| + |remaining| == |sources|
      invariant forall k :: k in keys ==> k in sources && k !in remaining
      invariant forall k :: k in sources ==> k in keys || k in remaining
      invariant forall i, j :: 0 <= i < j < |keys| ==> keys[i] != keys[j]
      invariant forall i :: 0 <= i < |list| ==> keys[i] in sources && list[i] == sources[keys[i]]
      decreases remaining
    {
      var key :| key in remaining;
      list := list + [sources[key]];
      keys := keys + [key];
      remaining := remaining - {key};
    }
    status := StatusOK;
  }

  datatype LookupError = ReadFailed(cause: ReadError) | NotFound(gitRepositoryURL: string)

  /** getGitHubWebhook: some stored webhook of the namespace whose repository
      URL is the one asked for, or an error when there is none. */
  method GetGitHubWebhook(gitRepoUrl: string, namespace: string, cluster: Cluster)
    returns (r: Result<Webhook, LookupError>)
    ensures ReadWebhooks(GetConfigMap(cluster, namespace)).Failure? ==>
      r == Failure(ReadFailed(ReadWebhooks(GetConfigMap(cluster, namespace)).error))
    ensures ReadWebhooks(GetConfigMap(cluster, namespace)).Success? ==>
      var sources := ReadWebhooks(GetConfigMap(cluster, namespace)).value;
      (r.Success? ==> r.value in sources.Values && r.value.gitRepositoryURL == gitRepoUrl)
      && (r.Failure? ==> r.error == NotFound(gitRepoUrl)
                         && forall k :: k in sources ==> sources[k].gitRepositoryURL != gitRepoUrl)
  {
    var read := ReadWebhooks(GetConfigMap(cluster, namespace));
    if read.Failure? {
      return Failure(ReadFailed(read.error));
    }
    var sources := read.value;
    var remaining := sources.Keys;
    while remaining != {}
      invariant remaining <= sources.Keys
      invariant forall k :: k in sources && k !in remaining ==> sources[k].gitRepositoryURL != gitRepoUrl
      decreases remaining
    {
      var key :| key in remaining;
      if sources[key].gitRepositoryURL == gitRepoUrl {
        return Success(sources[key]);
      }
      remaining := remaining - {key};
    }
    r := Failure(NotFound(gitRepoUrl));
  }
}
