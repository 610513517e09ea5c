# Kubeconfig context switcher, modelled in Dafny

This project models the core of `cs`, a command-line tool that switches the
active kubeconfig context from a cluster shortname. It looks the shortname up
in the ao environment registry (`~/.ao.json`) to find the cluster URL. It turns
the URL's host into a cluster identifier by replacing every `.` with `-`. If no
user `<op>/<cluster>` exists, it asks for a login. Otherwise it selects or
creates the context `<namespace>/<cluster>/<op>`, makes it current, and saves
the kubeconfig. `<op>` is the local account name.

Files:

- `wrappers.dfy`: two modules.
  - `Wrappers` holds `Option`, which stands for a Go nil pointer or nil error.
  - `Errors` holds the error values and `Result`, which is what a loader returns.
- `kubeconfig.dfy` (`pkg/kubeconfig/kubeconfig.go`):
  - The document comes in two forms. `Document` is its value. `Kubeconfig` is a class whose fields are updated in place.
  - `SetCurrentContext` and `CreateContext` are methods with `modifies`.
  - `UserExists`, `HasContext` and `GetContextName` are loop methods. They read the document and are proved against the predicates `HasUser` and `HasContextNamed`.
- `ao.dfy` (`pkg/ao/ao.go`):
  - The registry is a map from shortnames to possibly-nil cluster records.
  - `GetCluster` is an exact-key lookup.
  - `ScanClusters` is the Go `for range` loop over one iteration order.
- `switcher.dfy` (`pkg/switcher/switcher.go`):
  - `ReplaceDots` and `CreateClusterName` derive the identifier.
  - `Switch` is the imperative pass. It is proved equal to the reference function `SwitchSpec`, which is built from `Prepare` (loading, lookup, derivation) and `Reconcile` (user check, select or create, set current).
  - The properties of a run are lemmas about `SwitchSpec`.

The model takes everything outside the process as input, through the fields of `Switcher.Environment`:

- the two file loaders, i.e. read plus YAML/JSON decoding;
- `Save`, which reports an error or none;
- the outcome of `user.Current()`;
- the host that `url.Parse` extracts from a URL, or `None` when parsing fails.

A run ends in one `Switcher.Outcome`:

- `Failed(e)`;
- `LoginRequired`;
- `Panicked`: the registry maps the shortname to a nil record, and `c.URL` dereferences it;
- `Switched(doc, saveError)`.

`Returned` gives the error `Switch` returns. `Committed` gives the document written to disk.

Points where the code does not do what one might expect, and which the model follows:

- Missing user:
  - One might expect a missing user with no error to mean "log in", and a missing user with an error to be returned as that error.
  - In the code, `UserExists` never returns false without an error.
  - So every missing user, and every failure of `user.Current()`, leads to the login message and a nil return.
  - The `else { return err }` branch is unreachable. `Switch` proves this with `assert false`.
- Port: the identifier is built from `u.Host`, which includes any `:port`. So `https://api.example.com:8443` gives `api-example-com:8443`, and the port is kept (`PortIsKept`).
- Other dead checks: the error checks after `HasContext` returned true, after `GetContextName` and after `CreateContext` are also unreachable once the user check has passed. `Switch` marks each with `assert false`.

## Model

| member | source | states |
|---|---|---|
| `Kubeconfig.Kubeconfig.constructor` | pkg/kubeconfig/kubeconfig.go:10-47 | the in-memory object holds exactly the decoded document (apiVersion, kind, clusters, contexts, current-context, users) |
| `Kubeconfig.Kubeconfig.SetCurrentContext` | pkg/kubeconfig/kubeconfig.go:49-52 | sets the current context to exactly the argument, does not check that the name exists, changes no other field, returns the receiver |
| `Kubeconfig.Kubeconfig.CreateContext` | pkg/kubeconfig/kubeconfig.go:54-72 | if the identity is unavailable: returns "" and the error, document unchanged; otherwise appends exactly one entry `ns/cluster/op` (cluster, namespace, user `op/cluster`) at the end, returns that name, changes nothing else |
| `Kubeconfig.Kubeconfig.UserExists` | pkg/kubeconfig/kubeconfig.go:74-88 | true iff the identity is known and some user is named `op/cluster`; true comes with no error; false always comes with an error, either identity-unavailable or "could not find user `op/cluster`", never false with nil; read-only |
| `Kubeconfig.Kubeconfig.HasContext` | pkg/kubeconfig/kubeconfig.go:90-107 | true iff some context is named `ns/cluster/op`; absence is `(false, nil)`; only a missing identity is an error; read-only |
| `Kubeconfig.Kubeconfig.GetContextName` | pkg/kubeconfig/kubeconfig.go:109-122 | returns `ns/cluster/op` exactly when a context has that name and "" otherwise, with no error; identity failure gives "" and the error |
| `Kubeconfig.ContextNameNonEmpty` | pkg/kubeconfig/kubeconfig.go:114-121 | a context name is never "", so the "" result of GetContextName means not found |
| `Kubeconfig.CreateContextShape` | pkg/kubeconfig/kubeconfig.go:60-71 | creation adds one entry at the end; earlier entries, users, clusters, current context, apiVersion and kind are unchanged; the new entry's name, cluster, namespace and user are as composed |
| `Kubeconfig.CreatedContextIsFound` | pkg/kubeconfig/kubeconfig.go:61-61 | after CreateContext the new name is found by HasContext/GetContextName |
| `Kubeconfig.SetCurrentContextShape` | pkg/kubeconfig/kubeconfig.go:49-52 | setting the current context then restoring it gives back the original document: nothing else changes |
| `Kubeconfig.CountNamedPositive` | pkg/kubeconfig/kubeconfig.go:99-105 | a name occurs a positive number of times exactly when the search finds it |
| `Kubeconfig.CreateContextTwiceDuplicates` | pkg/kubeconfig/kubeconfig.go:69-69 | no duplicate check: creating the same context twice leaves two more entries of that name |
| `Kubeconfig.ContextNameInjective` | pkg/kubeconfig/kubeconfig.go:97-97 | with slash-free namespace and cluster identifier, equal context names imply equal (namespace, cluster, operator) |
| `Kubeconfig.ContextNameAmbiguousWithSlash` | pkg/kubeconfig/kubeconfig.go:61-61 | a namespace containing `/` makes two different coordinates share a name |
| `Ao.GetCluster` | pkg/ao/ao.go:83-91 | no error iff the shortname is a key, and then the stored (possibly nil) record; otherwise a nil record and an error naming the shortname; the configuration is a value and is not changed |
| `Ao.ScanClusters` | pkg/ao/ao.go:84-90 | the range loop over one iteration order: no error iff the shortname is among the keys, and then the record stored under it; otherwise a nil record and the error naming the shortname |
| `Ao.ScanOrderIrrelevant` | pkg/ao/ao.go:84-88 | the loop over the map gives GetCluster's result for every iteration order of the keys |
| `Ao.GetClusterIsExact` | pkg/ao/ao.go:85-85 | keys match by exact equality: an entry under any other key (a different case, a longer prefix) does not change the result |
| `Switcher.ReplaceDots` | pkg/switcher/switcher.go:94-94 | same length as the host, no `.` left, each `.` becomes `-` and every other character is kept in place |
| `Switcher.CreateClusterName` | pkg/switcher/switcher.go:89-95 | no error iff the URL parses; then the identifier has the host's length, every `.` turned into `-`, and the host's other characters in place; otherwise "" and the parse error |
| `Switcher.PortIsKept` | pkg/switcher/switcher.go:94-94 | for a host `name:port` the identifier keeps `:port` unchanged |
| `Switcher.Switch` | pkg/switcher/switcher.go:23-87 | the imperative pass ends exactly as the reference `SwitchSpec` describes; an error is returned only by the steps before the user check; a saved document's current context names an existing context and its users are the loaded ones |
| `Switcher.Prepare` | pkg/switcher/switcher.go:25-43 | loading, lookup and derivation stop only with an error or with the nil-record dereference (the latter only when the shortname maps to nil); when ready, the document is the loaded one and the identifier is the parsed host with dots replaced |
| `Switcher.Reconcile` | pkg/switcher/switcher.go:45-76 | no document (login required) iff the identity is missing or there is no user `op/cluster`; otherwise the current context is `ns/cluster/op`, users, clusters, apiVersion and kind are kept, and the contexts are unchanged if that name existed or gain exactly the new entry if it did not |
| `Switcher.FailuresPropagate` | pkg/switcher/switcher.go:25-43 | a load failure, an unknown shortname or an unparsable URL is returned as is, and nothing is saved |
| `Switcher.PrepareReady` | pkg/switcher/switcher.go:25-43 | the run reaches the user check iff both files load, the shortname maps to a non-nil record and its URL parses; the identifier is the host with dots replaced |
| `Switcher.MissingUserRequiresLogin` | pkg/switcher/switcher.go:45-52 | with no user `op/cluster`, or no identity, the run returns nil without changing or saving the kubeconfig |
| `Switcher.ExistingContextSelected` | pkg/switcher/switcher.go:54-65 | when `ns/cluster/op` exists, nothing is appended and it becomes the current context |
| `Switcher.MissingContextCreated` | pkg/switcher/switcher.go:67-76 | when it is absent, exactly that one entry is appended and it becomes current; users and clusters unchanged |
| `Switcher.ReconcileResult` | pkg/switcher/switcher.go:54-76 | the saved document's current context names an existing context, users/clusters/apiVersion/kind are kept, and the chosen name occurs once if it was absent, as often as before otherwise |
| `Switcher.ReconcileIdempotent` | pkg/switcher/switcher.go:54-76 | reconciling a reconciled document gives it back unchanged |
| `Switcher.SwitchIdempotent` | pkg/switcher/switcher.go:54-76 | a second Switch on the saved result of the first writes the same document: same current context, no new entry |
| `Switcher.SaveErrorSwallowed` | pkg/switcher/switcher.go:79-82 | once the user check is reached Switch returns nil; a failing Save only means nothing was committed |

## Left out

- `kubeconfig.Load`, `kubeconfig.Save` and `ao.Load`: file I/O plus YAML/JSON (de)serialization. They are the `loadKubeconfig`, `save` and `loadAo` fields of `Environment`, and Save is modelled only as "committed / not committed".
- `user.Current()`: an operating-system call. Its outcome is a parameter. Within one `Switch` it is a single value, so every call in a run sees the same answer (the Go code calls it once per lookup).
- `url.Parse`: a foreign library. `Environment.parseHost` gives the host, including any port, or fails.
- `logrus` logging: side effects with no logic.
- `NewSwitcher`: a plain constructor of the path pair; the `Switcher.Switcher` datatype constructor is the same thing.
- cmd/root.go is not part of this model. It is CLI plumbing: flags, home-directory defaults, printing of errors.
- Unread fields:
  - the `Preferences` field of the kubeconfig;
  - the `User.Token` credential;
  - the AOConfig fields other than `Clusters`;
  - the `Cluster` fields other than `Name` and `URL`.
- No logic reads any of them, and save writes the in-memory document as a whole.
- `Switcher.Switch`: a run is one synchronous pass. Concurrent runs that overwrite the same file are not modelled.
