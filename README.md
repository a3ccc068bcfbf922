# Webhook registration and tekton listener, modelled in Dafny

This project models two components of the Tekton experimental repository:

- **Webhook registration** (`webhooks-extension/endpoints/webhook.go`). A
  registration request goes through a fixed chain of checks: the release-name
  length, the docker-registry default, the required namespace, the shape of
  the Git repository URL, and the number of dots in the derived GitHub API
  URL. The first check that fails answers 400. A request that passes creates
  a GitHubSource whose `owner/repo` and API URL come from the repository URL.
  The webhook is then stored under its name in the map kept under the
  `GitHubSource` key of a ConfigMap. The module also models listing every
  stored webhook and looking one up by repository URL.
- **Tekton listener** (`tekton-listener/cmd/tekton-listener/main.go`). A
  CloudEvents receiver checks each event in a fixed order: it must have a
  context, use CloudEvents version `0.2` and carry the configured type. It then
  dispatches on the type; only `com.github.checksuite` is acted on. A check
  suite whose conclusion is exactly `success` leads to a PipelineRun. Its name
  is `<listener>-<port>`, its namespace is the listener's, and its spec is
  copied from the TektonListener's template. Startup (`main`) is fatal on an
  empty namespace and on an event kind other than `cloudevent`.

Layout:

- `wrappers.dfy`: `Option` and `Result`.
- `go_strings.dfy` (module `GoStrings`): the Go library behaviour both
  components rely on. Lengths count characters, which match Go's byte
  lengths on ASCII text. That covers `strings.Split` and `strings.Join` on `/`,
  `strings.Count` of one character, `strings.TrimSuffix`, ASCII
  `strings.EqualFold`, and the `%d` formatting of an `int`, each with the
  lemma that ties it to its partner.
- `webhooks.dfy` (module `Webhooks`): the webhook endpoint.
- `listener.dfy` (module `Listener`): the listener. `EventListener` is a class
  whose fields are `const`, because `main` sets them once and nothing changes
  them afterwards.

Calls into the cluster become inputs:

- The ConfigMaps a namespace holds.
- Whether a create call succeeds.
- Whether the clients could be built.
- The TektonListener that Get returns.

JSON is opaque. A stored blob either decodes to a webhook map or fails to, and
an event body either decodes to a check-suite payload or fails with a reason.

Four behaviours of the code are easy to miss; the model follows the code:

- A failed PipelineRun create does not return a submission error. It calls
  `log.Fatalf` (main.go:205), which halts the process. The model gives this
  its own outcome (`Halted` / `RunHalted`). As a result, the wrapped-error
  branch of `handleCheckSuite` (main.go:167-169) is never taken.
- The revision is not substituted into the submitted run (see Findings).
- `writeGitHubWebhooks` does not report a failed ConfigMap update
  (webhook.go:222-226). `createWebhook` also ignores its result
  (webhook.go:129), so the answer is 201 even when the ConfigMap was not
  written.
- A webhook ConfigMap that exists with nil binary data reads as holding no
  webhooks. `writeGitHubWebhooks` then assigns into the nil map
  (webhook.go:214) and panics, after the GitHubSource has been created
  (webhook.go:116). The model gives this its own outcome (`NilMapPanic` /
  `Panicked`).

## Model

| member | source | states |
|---|---|---|
| `GoStrings.Count` | webhooks-extension/endpoints/webhook.go:108 | the number of occurrences of one character is at most the length, and zero exactly when the character is absent |
| `GoStrings.CountConcat` | webhooks-extension/endpoints/webhook.go:108 | the count over a concatenation is the sum of the counts over its parts |
| `GoStrings.Split` | webhooks-extension/endpoints/webhook.go:69 | splitting on `/` gives one more piece than there are slashes, and no piece contains a slash |
| `GoStrings.JoinSplit` | webhooks-extension/endpoints/webhook.go:69 | joining the pieces with `/` gives back the string that was split |
| `GoStrings.TrimSuffix` | webhooks-extension/endpoints/webhook.go:75-76 | the suffix is removed once when present (the result followed by the suffix is the input), and nothing changes otherwise |
| `GoStrings.EqualFold` | tekton-listener/cmd/tekton-listener/main.go:193 | names that are equal ignoring case have the same length, and every name is equal to itself ignoring case |
| `GoStrings.EqualFoldIffSameLower` | tekton-listener/cmd/tekton-listener/main.go:193 | two names are equal ignoring case exactly when their ASCII lower-case forms are equal |
| `GoStrings.FormatInt` | tekton-listener/cmd/tekton-listener/main.go:90 | the `%d` text is a minus sign exactly for a negative number, then one or more decimal digits with no leading zero unless the number is zero |
| `GoStrings.FormatIntInjective` | tekton-listener/cmd/tekton-listener/main.go:90 | different integers have different `%d` texts |
| `GoStrings.ParseFormatInt` | tekton-listener/cmd/tekton-listener/main.go:90 | the `%d` text of the port reads back as the same integer |
| `Webhooks.InstallNamespace` | webhooks-extension/endpoints/webhook.go:32-36 | the install namespace is never empty: it is the configured default, or `default` when that is empty |
| `Webhooks.ReleaseNameAllowed` | webhooks-extension/endpoints/webhook.go:45-53 | a release name passes exactly when it is at most 63 long, so the empty name passes |
| `Webhooks.DefaultRegistry` | webhooks-extension/endpoints/webhook.go:55-58 | a request's own registry is kept when given; an empty one takes the default |
| `Webhooks.DefaultRegistryIdempotent` | webhooks-extension/endpoints/webhook.go:55-58 | applying the registry default twice equals applying it once |
| `Webhooks.OwnerRepo` | webhooks-extension/endpoints/webhook.go:76 | `ownerRepo` is the owner piece, a slash, then the repository piece with one trailing `.git` removed; it holds exactly one slash |
| `Webhooks.SplitLastTwo` | webhooks-extension/endpoints/webhook.go:69-75 | a well-formed URL is its prefix up to the slash before the owner, followed by `owner/repo` |
| `Webhooks.ApiUrl` | webhooks-extension/endpoints/webhook.go:75 | the API URL always ends in `api/v3/` |
| `Webhooks.ApiUrlShape` | webhooks-extension/endpoints/webhook.go:69-75 | the `TrimSuffix` always finds its suffix, so the API URL is the URL's prefix followed by `api/v3/` and has the prefix's dots |
| `Webhooks.GitHubApiUrlSetting` | webhooks-extension/endpoints/webhook.go:108-115 | two dots set the custom API URL to the API URL, one dot leaves it empty, and any other count refuses the request |
| `Webhooks.ReadWebhooks` | webhooks-extension/endpoints/webhook.go:170-192 | a missing ConfigMap, nil binary data or a missing `GitHubSource` key reads as the empty map; a decodable blob reads as the map it holds; the read fails exactly when the stored blob does not decode |
| `Webhooks.WriteWebhooks` | webhooks-extension/endpoints/webhook.go:194-228 | the write panics exactly when the existing ConfigMap's binary data is nil; otherwise the ConfigMap gets the webhook map under its key with every other key kept, it is created when Get fails and updated otherwise, only a failed create is reported, and reading the written ConfigMap gives the map back |
| `Webhooks.CreateWebhook` | webhooks-extension/endpoints/webhook.go:30-131 | the checks answer 400 in the order release name, namespace, URL shape, dot count; no source is created and nothing is stored on any rejection; a failed source create answers 400 and a failed read 500; nil binary data panics after the source was created; on 201 the stored map is the old one with the defaulted webhook under its name, written to the install namespace's ConfigMap with its name, namespace and other keys kept, or to a new `ConfigMapName` ConfigMap there |
| `Webhooks.CheckWebhook` | webhooks-extension/endpoints/webhook.go:61-115 | after the release name, the request fails first on an empty namespace, then on fewer than four URL pieces, then on a dot count other than one or two; it passes exactly when the registration is accepted, and then yields that registration's GitHubSource |
| `Webhooks.RecordWebhook` | webhooks-extension/endpoints/webhook.go:116-130 | a failed source create answers 400, a failed read 500, nil binary data panics, and otherwise the answer is 201 with the stored map being the old one plus the webhook under its name, in the ConfigMap `WrittenConfigMap` describes |
| `Webhooks.WrittenConfigMap` | webhooks-extension/endpoints/webhook.go:197-214 | the written ConfigMap holds the webhook map under its key; an existing one keeps its name, namespace and every other key, and gains no other key; a new one has the configured name, the namespace and only that key |
| `Webhooks.GetAllWebhooks` | webhooks-extension/endpoints/webhook.go:133-152 | a failed read answers 500; otherwise the list holds each stored webhook once, one per key, in some order |
| `Webhooks.GetGitHubWebhook` | webhooks-extension/endpoints/webhook.go:155-168 | the result is a stored webhook with the requested repository URL; a not-found error means none has it; a read error is passed on |
| `Listener.RunName` | tekton-listener/cmd/tekton-listener/main.go:90 | the run name is the listener name and a dash, followed by the `%d` text of the port, which reads back as the port |
| `Listener.RunNamePortInjective` | tekton-listener/cmd/tekton-listener/main.go:90 | with the same listener name, equal run names mean equal ports |
| `Listener.IsRevisionIffLower` | tekton-listener/cmd/tekton-listener/main.go:193 | a parameter is the revision parameter exactly when its name lower-cases to `revision` |
| `Listener.WithRevision` | tekton-listener/cmd/tekton-listener/main.go:189-199 | the intended substitution: same length, revision parameters get the SHA, all others are unchanged |
| `Listener.EventListener.constructor` | tekton-listener/cmd/tekton-listener/main.go:91-103 | the listener's fields are the configuration's, the derived run name and the template |
| `Listener.EventListener.HandleRequest` | tekton-listener/cmd/tekton-listener/main.go:134-162 | rejects in the order no context, version other than `0.2`, type other than configured; ignores other types and fails on an undecodable check suite, both without a run; a run is submitted exactly for a decodable successful check suite; for a decodable check suite the result is nil unless the submitted create failed, which halts; the wrapped create error is never returned |
| `Listener.EventListener.HandleCheckSuite` | tekton-listener/cmd/tekton-listener/main.go:164-174 | a run is submitted exactly when the conclusion is `success`; the result is nil unless the create failed, in which case the process halts |
| `Listener.EventListener.CreatePipelineRun` | tekton-listener/cmd/tekton-listener/main.go:176-209 | the submitted run has the listener's run name and namespace and exactly the template's spec, whatever the SHA and the SHA setting; a failed create halts, so no error is returned |
| `Listener.EventListener.CreatePipelineRunCorrected` | tekton-listener/cmd/tekton-listener/main.go:186-199 | with the SHA setting on, the submitted parameters are the template's with the SHA substituted; the rest of the spec is the template's |
| `Listener.RevisionExample` | tekton-listener/cmd/tekton-listener/main.go:189-199 | for a template `Revision=HEAD` and SHA `abc123`, the code as written submits `HEAD` and the corrected code submits `abc123` |
| `Listener.Start` | tekton-listener/cmd/tekton-listener/main.go:58-111 | startup is fatal, in this order, on an empty namespace, failed clients, a failed TektonListener get, a nil PipelineRun spec, or an event kind other than `cloudevent`; otherwise the listener carries the configuration (event type, namespace, service account, port and SHA setting), the template and the run name `<listener>-<port>` |

## Left out

- HTTP routing and responses (`ExtensionWebService`, `RespondError`, `RespondErrorMessage`, `RespondErrorAndMessage`, `getDefaults`, `ReadEntity`, `WriteEntity`): framework plumbing. An outcome is a status code with the rejection reason or the entity; an unreadable body is the `None` entity.
- Kubernetes client calls (GitHubSources `Create`, ConfigMaps `Get`/`Create`/`Update`, PipelineRuns `Create`, TektonListeners `Get`): these become inputs. A ConfigMap Get fails exactly when the namespace has no webhook ConfigMap.
- Both ConfigMap Gets made while handling one registration (webhook.go:173 and 197) see the same cluster state; concurrent writers are not modelled.
- The ConfigMap name constant `ConfigMapName` is declared outside `webhook.go`, so it is a parameter.
- The `webhook` record is declared outside `webhook.go`; the model keeps the six fields that the endpoint reads or sets.
- JSON marshalling and unmarshalling, and cloudevents `DataAs`, are foreign libraries. Their results are opaque values. Marshalling a map of string-field records cannot fail in Go, so that error path of `writeGitHubWebhooks` is not modelled.
- A stored JSON `null` would decode to a nil map, and inserting into it in `createWebhook` would panic. The opaque blob has no such value.
- The cloudevents HTTP transport and receiver loop (`startCloudEventListener`), env decoding, kubeconfig building and logger setup are I/O and bootstrap. `Start` takes the decoded configuration and whether the clients could be built.
- The mutex in `createPipelineRun` exists only for concurrency; the method is modelled sequentially.
- Log output, including the per-parameter "No SHA param to update" message and "Created pipeline run".
- Listener.EventListener.CreatePipelineRun: the created run it returns is the submitted one; any changes the cluster makes on create are not modelled.
- Listener.IsRevisionIffLower: `strings.EqualFold` folds Unicode case; the model folds ASCII letters only.
- Webhooks.ReleaseNameAllowed: counts characters where Go's `len` counts UTF-8 bytes; the two agree on ASCII names.
- Webhooks.GetAllWebhooks: the order of the list is not fixed, because Go's map iteration order is unspecified; the result is stated up to order.
- Webhooks.GetGitHubWebhook: when several stored webhooks share the URL, the result is some matching one, not a particular one, for the same reason.

## Findings

| source | as written | input that shows it | evidently intended | confidence | as-written member | corrected member |
|---|---|---|---|---|---|---|
| tekton-listener/cmd/tekton-listener/main.go:191-194 | `param.Value = sha` assigns to the loop's copy of each parameter, so the submitted parameters are the template's unchanged | `setBuildSha` on, template parameters `[Revision=HEAD]`, SHA `abc123`: the run is submitted with `Revision=HEAD` | each parameter named `revision` (ignoring case) in a copy of the template takes the SHA; other parameters and the template itself stay as they are | high; not executed | `Listener.EventListener.CreatePipelineRun`, shown by `Listener.RevisionExample` | `Listener.EventListener.CreatePipelineRunCorrected` with `Listener.WithRevision` |

The listener's handlers keep the as-written `CreatePipelineRun`, because the
listener is modelled as its code behaves. The corrected method substitutes
the revision in a copy of the template. In Go, `pr.Spec = e.runSpec` shares
the parameter slice with the template. So a fix that wrote through
`pr.Spec.Params[i]` would also change the listener's template for every later
event.
