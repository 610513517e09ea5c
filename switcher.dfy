/**
 * The switch itself: resolve a shortname in the registry, turn the cluster's
 * URL host into a cluster identifier, and select or create the context
 * `<namespace>/<cluster>/<op>` in the kubeconfig, then save it.
 *
 * Everything outside the process is a field of `Environment`: the two
 * loaders (file read plus decoding), Save, the outcome of user.Current() and
 * the host that url.Parse extracts from a URL (`None` when parsing fails).
 */
module Switcher {
  import opened Wrappers
  import opened Errors
  import opened Kubeconfig
  import opened Ao

  /** The paths a switcher works on (Go `Switcher`). */
  datatype Switcher = Switcher(kubeconfigPath: string, aoConfigPath: string)

  datatype Environment = Environment(
    loadAo: string -> Result<AOConfig>,
    loadKubeconfig: string -> Result<Document>,
    save: (string, Document) -> Option<Error>,
    currentUser: Option<string>,
    parseHost: string -> Option<string>)

  /** How one run of Switch ends. */
  datatype Outcome =
    | Failed(error: Error)   // Switch returned this error; nothing was saved
    | LoginRequired          // Switch returned nil; nothing was changed or saved
    | Panicked               // the registry entry was a nil pointer and was dereferenced
    | Switched(doc: Document, saveError: Option<Error>)
      // `doc` was handed to Save, which reported `saveError`; Switch returned nil

  /** The error value Switch returns. */
  function Returned(o: Outcome): Option<Error> {
    if o.Failed? then Some(o.error) else None
  }

  /** The document now in the kubeconfig file, if the run wrote one. */
  function Committed(o: Outcome): Option<Document> {
    if o.Switched? && o.saveError == None then Some(o.doc) else None
  }

  /** strings.Replace(host, ".", "-", -1). */
  function ReplaceDots(host: string): (r: string)
    ensures |r| == |host|
    ensures forall i :: 0 <= i < |host| ==> r[i] == if host[i] == '.' then '-' else host[i]
    ensures '.' !in r
  {
    if host == [] then []
    else [if host[0] == '.' then '-' else host[0]] + ReplaceDots(host[1..])
  }

  /**
   * The cluster identifier for a registry URL: the URL's host (with any
   * `:port`) with each `.` turned into `-`, or "" and the parse error.
   */
  function CreateClusterName(clusterUrl: string, parseHost: string -> Option<string>): (r: (string, Option<Error>))
    ensures r.1 == None <==> parseHost(clusterUrl).Some?
    ensures parseHost(clusterUrl).None? ==> r == ("", Some(InvalidUrl(clusterUrl)))
    ensures parseHost(clusterUrl).Some? ==>
      var host := parseHost(clusterUrl).value;
      |r.0| == |host| && '.' !in r.0 &&
      (forall i :: 0 <= i < |host| && host[i] == '.' ==> r.0[i] == '-') &&
      (forall i :: 0 <= i < |host| && host[i] != '.' ==> r.0[i] == host[i])
  {
    match parseHost(clusterUrl)
    case None => ("", Some(InvalidUrl(clusterUrl)))
    case Some(host) => (ReplaceDots(host), None)
  }

  /** Steps up to the derived identifier: ready to reconcile, or how the run already ended. */
  datatype Prepared = Ready(doc: Document, cluster: string) | Stopped(outcome: Outcome)

  /** Load both files, resolve the shortname and derive the cluster identifier. */
  function Prepare(s: Switcher, env: Environment, clusterShortname: string): (r: Prepared)
    ensures r.Stopped? ==> r.outcome.Failed? || r.outcome.Panicked?
    ensures r.Stopped? && r.outcome.Panicked? ==>
      env.loadAo(s.aoConfigPath).Ok? &&
      clusterShortname in env.loadAo(s.aoConfigPath).value.clusters &&
      env.loadAo(s.aoConfigPath).value.clusters[clusterShortname] == None
    ensures r.Ready? ==>
      env.loadKubeconfig(s.kubeconfigPath) == Ok(r.doc) &&
      env.loadAo(s.aoConfigPath).Ok? &&
      clusterShortname in env.loadAo(s.aoConfigPath).value.clusters &&
      env.loadAo(s.aoConfigPath).value.clusters[clusterShortname].Some? &&
      var host := env.parseHost(env.loadAo(s.aoConfigPath).value.clusters[clusterShortname].value.url);
      host.Some? && r.cluster == ReplaceDots(host.value)
  {
    match env.loadAo(s.aoConfigPath)
    case Err(e) => Stopped(Failed(e))
    case Ok(ao) =>
      match env.loadKubeconfig(s.kubeconfigPath)
      case Err(e) => Stopped(Failed(e))
      case Ok(d) =>
        var found := GetCluster(ao, clusterShortname);
        if found.1.Some? then Stopped(Failed(found.1.value))
        else if found.0.None? then Stopped(Panicked)
        else
          var named := CreateClusterName(found.0.value.url, env.parseHost);
          if named.1.Some? then Stopped(Failed(named.1.value))
          else Ready(d, named.0)
  }

  /**
   * The document to save after the user check and the select-or-create
   * step, or `None` when a login is required.
   */
  function Reconcile(d: Document, cluster: string, namespace: string, current: Option<string>): (r: Option<Document>)
    ensures r.None? <==> current.None? || !HasUser(d.users, UserName(current.value, cluster))
    ensures r.Some? ==>
      var name := ContextName(namespace, cluster, current.value);
      r.value.currentContext == name &&
      r.value.users == d.users && r.value.clusters == d.clusters &&
      r.value.apiVersion == d.apiVersion && r.value.kind == d.kind &&
      (if HasContextNamed(d.contexts, name) then r.value.contexts == d.contexts
       else r.value.contexts == d.contexts + [NewContext(namespace, cluster, current.value)])
  {
    if current.None? || !HasUser(d.users, UserName(current.value, cluster)) then None
    else
      var op := current.value;
      var name := ContextName(namespace, cluster, op);
      var withContext := if HasContextNamed(d.contexts, name) then d else WithContext(d, namespace, cluster, op);
      Some(WithCurrent(withContext, name))
  }

  /** What one run of Switch does, as a function of its inputs. */
  function SwitchSpec(s: Switcher, env: Environment, clusterShortname: string, namespace: string): (o: Outcome)
    ensures o.Switched? || o.LoginRequired? <==> Prepare(s, env, clusterShortname).Ready?
  {
    match Prepare(s, env, clusterShortname)
    case Stopped(o) => o
    case Ready(d, cluster) =>
      match Reconcile(d, cluster, namespace, env.currentUser)
      case None => LoginRequired
      case Some(d') => Switched(d', env.save(s.kubeconfigPath, d'))
  }

  /** Switcher.Switch: one pass through load, lookup, derive, check, select or create, save. */
  method Switch(s: Switcher, env: Environment, clusterShortname: string, namespace: string)
    returns (outcome: Outcome)
    ensures outcome == SwitchSpec(s, env, clusterShortname, namespace)
    ensures Returned(outcome).Some? ==> Prepare(s, env, clusterShortname).Stopped?
    ensures outcome.Switched? ==>
      HasContextNamed(outcome.doc.contexts, outcome.doc.currentContext) &&
      outcome.doc.users == env.loadKubeconfig(s.kubeconfigPath).value.users
  {
    var aoconfig := env.loadAo(s.aoConfigPath);
    if aoconfig.Err? {
      return Failed(aoconfig.error);
    }
    var loaded := env.loadKubeconfig(s.kubeconfigPath);
    if loaded.Err? {
      return Failed(loaded.error);
    }
    var kubeconfig := new Kubeconfig(loaded.value);

    var found := GetCluster(aoconfig.value, clusterShortname);
    if found.1.Some? {
      return Failed(found.1.value);
    }
    if found.0.None? {
      // c.URL on a nil *Cluster
      return Panicked;
    }
    var named := CreateClusterName(found.0.value.url, env.parseHost);
    if named.1.Some? {
      return Failed(named.1.value);
    }
    var cluster := named.0;

    var ok, err := kubeconfig.UserExists(cluster, env.currentUser);
    if !ok {
      if err.Some? {
        // "Never seen this cluster before. Please login"
        return LoginRequired;
      } else {
        // UserExists never reports false without an error; the source
        // returns that nil error here.
        assert false;
        return LoginRequired;
      }
    }

    var context: string;
    var has, errHas := kubeconfig.HasContext(cluster, namespace, env.currentUser);
    if has {
      match errHas {
        case Some(e) =>
          assert false;
          return Failed(e);
        case None =>
      }
      var name, errName := kubeconfig.GetContextName(cluster, namespace, env.currentUser);
      match errName {
        case Some(e) =>
          assert false;
          return Failed(e);
        case None =>
      }
      context := name;
    } else {
      var name, errCreate := kubeconfig.CreateContext(namespace, cluster, env.currentUser);
      match errCreate {
        case Some(e) =>
          assert false;
          return Failed(e);
        case None =>
      }
      context := name;
    }
    var _ := kubeconfig.SetCurrentContext(context);
    ReconcileResult(loaded.value, cluster, namespace, env.currentUser.value);

    // A failing Save is turned into a nil return.
    var saveError := env.save(s.kubeconfigPath, kubeconfig.Value());
    return Switched(kubeconfig.Value(), saveError);
  }

  /** The environment after a save of `d` to `path`: loading `path` now gives `d`. */
  function AfterSave(env: Environment, path: string, d: Document): Environment {
    env.(loadKubeconfig := (p: string) => if p == path then Ok(d) else env.loadKubeconfig(p))
  }

  /**
   * A failure to load either file, an unknown shortname or an unparsable URL
   * is returned as it is, and nothing is saved.
   */
  lemma FailuresPropagate(s: Switcher, env: Environment, clusterShortname: string, namespace: string)
    ensures env.loadAo(s.aoConfigPath).Err? ==>
      SwitchSpec(s, env, clusterShortname, namespace) == Failed(env.loadAo(s.aoConfigPath).error)
    ensures env.loadAo(s.aoConfigPath).Ok? && env.loadKubeconfig(s.kubeconfigPath).Err? ==>
      SwitchSpec(s, env, clusterShortname, namespace) == Failed(env.loadKubeconfig(s.kubeconfigPath).error)
    ensures (env.loadAo(s.aoConfigPath).Ok? && env.loadKubeconfig(s.kubeconfigPath).Ok? &&
             clusterShortname !in env.loadAo(s.aoConfigPath).value.clusters) ==>
      SwitchSpec(s, env, clusterShortname, namespace) == Failed(ClusterNotFound(clusterShortname))
    ensures (env.loadAo(s.aoConfigPath).Ok? && env.loadKubeconfig(s.kubeconfigPath).Ok? &&
             clusterShortname in env.loadAo(s.aoConfigPath).value.clusters &&
             env.loadAo(s.aoConfigPath).value.clusters[clusterShortname].Some? &&
             env.parseHost(env.loadAo(s.aoConfigPath).value.clusters[clusterShortname].value.url).None?) ==>
      SwitchSpec(s, env, clusterShortname, namespace) ==
        Failed(InvalidUrl(env.loadAo(s.aoConfigPath).value.clusters[clusterShortname].value.url))
    ensures Prepare(s, env, clusterShortname).Stopped? ==>
      Committed(SwitchSpec(s, env, clusterShortname, namespace)) == None
  {
  }

  /**
   * Preparation succeeds exactly when both files load, the shortname maps to
   * a non-nil record and its URL parses; the identifier is then the host
   * with dots replaced.
   */
  lemma PrepareReady(s: Switcher, env: Environment, clusterShortname: string, d: Document, cluster: string)
    ensures Prepare(s, env, clusterShortname) == Ready(d, cluster) <==>
      env.loadAo(s.aoConfigPath).Ok? && env.loadKubeconfig(s.kubeconfigPath) == Ok(d) &&
      clusterShortname in env.loadAo(s.aoConfigPath).value.clusters &&
      env.loadAo(s.aoConfigPath).value.clusters[clusterShortname].Some? &&
      env.parseHost(env.loadAo(s.aoConfigPath).value.clusters[clusterShortname].value.url).Some? &&
      cluster == ReplaceDots(env.parseHost(env.loadAo(s.aoConfigPath).value.clusters[clusterShortname].value.url).value)
  {
  }

  /**
   * Without a user `<op>/<cluster>` (or without an operator identity) the
   * run asks for a login: it returns nil, and the file is neither changed
   * nor saved.
   */
  lemma MissingUserRequiresLogin(s: Switcher, env: Environment, clusterShortname: string, namespace: string,
                                 d: Document, cluster: string)
    requires Prepare(s, env, clusterShortname) == Ready(d, cluster)
    requires env.currentUser.None? || !HasUser(d.users, UserName(env.currentUser.value, cluster))
    ensures SwitchSpec(s, env, clusterShortname, namespace) == LoginRequired
    ensures Returned(SwitchSpec(s, env, clusterShortname, namespace)) == None
    ensures Committed(SwitchSpec(s, env, clusterShortname, namespace)) == None
  {
  }

  /** An existing context is selected: no entry is appended and it becomes current. */
  lemma ExistingContextSelected(d: Document, cluster: string, namespace: string, op: string)
    requires HasUser(d.users, UserName(op, cluster))
    requires HasContextNamed(d.contexts, ContextName(namespace, cluster, op))
    ensures Reconcile(d, cluster, namespace, Some(op)) == Some(WithCurrent(d, ContextName(namespace, cluster, op)))
    ensures Reconcile(d, cluster, namespace, Some(op)).value.contexts == d.contexts
  {
  }

  /** A missing context is created: exactly one entry is appended and it becomes current. */
  lemma MissingContextCreated(d: Document, cluster: string, namespace: string, op: string)
    requires HasUser(d.users, UserName(op, cluster))
    requires !HasContextNamed(d.contexts, ContextName(namespace, cluster, op))
    ensures Reconcile(d, cluster, namespace, Some(op)).Some?
    ensures var d' := Reconcile(d, cluster, namespace, Some(op)).value;
      d'.contexts == d.contexts + [NewContext(namespace, cluster, op)] &&
      d'.currentContext == ContextName(namespace, cluster, op) &&
      d'.users == d.users && d'.clusters == d.clusters
  {
  }

  /**
   * Whatever the switch writes names a context that exists in it, keeps the
   * users and clusters, and holds the chosen name exactly once more than
   * before if it was absent and as often as before otherwise.
   */
  lemma {:induction false} ReconcileResult(d: Document, cluster: string, namespace: string, op: string)
    requires Reconcile(d, cluster, namespace, Some(op)).Some?
    ensures var d' := Reconcile(d, cluster, namespace, Some(op)).value;
      var name := ContextName(namespace, cluster, op);
      d'.currentContext == name &&
      HasContextNamed(d'.contexts, name) &&
      d'.users == d.users && d'.clusters == d.clusters &&
      d'.apiVersion == d.apiVersion && d'.kind == d.kind &&
      CountNamed(d'.contexts, name) == if CountNamed(d.contexts, name) == 0 then 1 else CountNamed(d.contexts, name)
  {
    var name := ContextName(namespace, cluster, op);
    CountNamedPositive(d.contexts, name);
    if !HasContextNamed(d.contexts, name) {
      CountNamedAppend(d.contexts, NewContext(namespace, cluster, op), name);
      CreatedContextIsFound(d, namespace, cluster, op);
    }
  }

  /** Reconciling the document a reconcile produced changes nothing. */
  lemma ReconcileIdempotent(d: Document, cluster: string, namespace: string, op: string)
    requires Reconcile(d, cluster, namespace, Some(op)).Some?
    ensures var d' := Reconcile(d, cluster, namespace, Some(op)).value;
      Reconcile(d', cluster, namespace, Some(op)) == Some(d')
  {
    ReconcileResult(d, cluster, namespace, op);
  }

  /**
   * Running Switch again on the document the first run saved selects the
   * same context and appends nothing: it writes the same document again.
   */
  lemma SwitchIdempotent(s: Switcher, env: Environment, clusterShortname: string, namespace: string,
                         d': Document, saveError: Option<Error>)
    requires SwitchSpec(s, env, clusterShortname, namespace) == Switched(d', saveError)
    ensures SwitchSpec(s, AfterSave(env, s.kubeconfigPath, d'), clusterShortname, namespace)
      == Switched(d', env.save(s.kubeconfigPath, d'))
  {
    var Ready(d, cluster) := Prepare(s, env, clusterShortname);
    var env' := AfterSave(env, s.kubeconfigPath, d');
    assert Prepare(s, env', clusterShortname) == Ready(d', cluster);
    ReconcileIdempotent(d, cluster, namespace, env.currentUser.value);
  }

  /**
   * A failing Save is swallowed: the only errors Switch returns are those of
   * the steps before the user check.
   */
  lemma SaveErrorSwallowed(s: Switcher, env: Environment, clusterShortname: string, namespace: string)
    ensures Prepare(s, env, clusterShortname).Ready? ==>
      Returned(SwitchSpec(s, env, clusterShortname, namespace)) == None
    ensures SwitchSpec(s, env, clusterShortname, namespace).Switched? ==>
      Returned(SwitchSpec(s, env, clusterShortname, namespace)) == None &&
      (Committed(SwitchSpec(s, env, clusterShortname, namespace)).Some? <==>
       SwitchSpec(s, env, clusterShortname, namespace).saveError == None)
  {
  }

  /**
   * The port stays in the identifier: for a host `<name>:<port>` only the
   * dots of the name change and the `:<port>` suffix is kept as it is.
   */
  lemma PortIsKept(name: string, port: string)
    requires '.' !in port
    ensures ReplaceDots(name + ":" + port) == ReplaceDots(name) + ":" + port
  {
  }
}
