/**
 * The kubeconfig document: ordered lists of clusters, contexts and users and
 * the name of the active context, with the lookups and edits the switcher
 * performs on it in memory.
 *
 * Users and contexts are found by composite names built from the operator's
 * account name (what user.Current() reports): a user is `<op>/<cluster>` and
 * a context is `<namespace>/<cluster>/<op>`.  Every operation that needs the
 * account name takes the outcome of user.Current() as `current`, `None`
 * standing for the call failing.
 */
module Kubeconfig {
  import opened Wrappers
  import opened Errors

  /** An entry of `clusters` (Go `Clusters` with its nested `Cluster`). */
  datatype ClusterEntry = ClusterEntry(name: string, server: string)

  /** The body of a context entry (Go `Context`). */
  datatype ContextRef = ContextRef(cluster: string, namespace: string, user: string)

  /** An entry of `contexts` (Go `Contexts`). */
  datatype ContextEntry = ContextEntry(name: string, context: ContextRef)

  /** An entry of `users` (Go `Users`); the credential it carries is never read. */
  datatype UserEntry = UserEntry(name: string)

  /** The whole document as a value, as Load produces it and Save writes it. */
  datatype Document = Document(
    apiVersion: string,
    kind: string,
    clusters: seq<ClusterEntry>,
    contexts: seq<ContextEntry>,
    currentContext: string,
    users: seq<UserEntry>)

  /** `<op>/<cluster>`: the name a user entry for `cluster` has. */
  function UserName(op: string, cluster: string): string {
    op + "/" + cluster
  }

  /** `<namespace>/<cluster>/<op>`: the name a context entry has. */
  function ContextName(namespace: string, cluster: string, op: string): string {
    namespace + "/" + cluster + "/" + op
  }

  predicate HasUser(users: seq<UserEntry>, name: string) {
    exists i :: 0 <= i < |users| && users[i].name == name
  }

  predicate HasContextNamed(contexts: seq<ContextEntry>, name: string) {
    exists i :: 0 <= i < |contexts| && contexts[i].name == name
  }

  /** How many entries of `contexts` are called `name`. */
  function CountNamed(contexts: seq<ContextEntry>, name: string): nat {
    if contexts == [] then 0
    else (if contexts[0].name == name then 1 else 0) + CountNamed(contexts[1..], name)
  }

  /** The entry CreateContext appends. */
  function NewContext(namespace: string, cluster: string, op: string): ContextEntry {
    ContextEntry(ContextName(namespace, cluster, op),
                 ContextRef(cluster, namespace, UserName(op, cluster)))
  }

  /** The document after CreateContext succeeded for operator `op`. */
  function WithContext(d: Document, namespace: string, cluster: string, op: string): Document {
    d.(contexts := d.contexts + [NewContext(namespace, cluster, op)])
  }

  /** The document after SetCurrentContext. */
  function WithCurrent(d: Document, context: string): Document {
    d.(currentContext := context)
  }

  /** A loaded kubeconfig, whose fields the switcher updates in place. */
  class Kubeconfig {
    var apiVersion: string
    var kind: string
    var clusters: seq<ClusterEntry>
    var contexts: seq<ContextEntry>
    var currentContext: string
    var users: seq<UserEntry>

    /** The document the object currently holds. */
    function Value(): Document
      reads this
    {
      Document(apiVersion, kind, clusters, contexts, currentContext, users)
    }

    /** The object Load returns for a decoded document. */
    constructor (d: Document)
      ensures Value() == d
    {
      apiVersion, kind := d.apiVersion, d.kind;
      clusters, contexts := d.clusters, d.contexts;
      currentContext, users := d.currentContext, d.users;
    }

    /**
     * Overwrites the active-context pointer with `context`, whether or not
     * a context of that name exists, and returns the receiver.
     */
    method SetCurrentContext(context: string) returns (self: Kubeconfig)
      modifies this
      ensures self == this
      ensures currentContext == context
      ensures Value() == WithCurrent(old(Value()), context)
    {
      currentContext := context;
      self := this;
    }

    /**
     * Appends a context for (namespace, cluster, operator) and returns its
     * name; no check is made for an existing entry of that name.
     */
    method CreateContext(namespace: string, cluster: string, current: Option<string>)
      returns (name: string, err: Option<Error>)
      modifies this
      ensures current.None? ==>
        name == "" && err == Some(IdentityUnavailable) && Value() == old(Value())
      ensures current.Some? ==>
        err == None && name == ContextName(namespace, cluster, current.value) &&
        contexts == old(contexts) + [NewContext(namespace, cluster, current.value)] &&
        Value() == WithContext(old(Value()), namespace, cluster, current.value)
    {
      if current.None? {
        return "", Some(IdentityUnavailable);
      }
      var op := current.value;
      var entry := ContextEntry(ContextName(namespace, cluster, op),
                                ContextRef(cluster, namespace, UserName(op, cluster)));
      contexts := contexts + [entry];
      return entry.name, None;
    }

    /**
     * Whether a user `<op>/<cluster>` exists.  A missing user is reported
     * as false together with an error, never as false with no error.
     */
    method UserExists(cluster: string, current: Option<string>) returns (ok: bool, err: Option<Error>)
      ensures ok <==> current.Some? && HasUser(users, UserName(current.value, cluster))
      ensures ok ==> err == None
      ensures !ok && current.None? ==> err == Some(IdentityUnavailable)
      ensures !ok && current.Some? ==> err == Some(UserNotFound(UserName(current.value, cluster)))
    {
      if current.None? {
        return false, Some(IdentityUnavailable);
      }
      var username := UserName(current.value, cluster);
      var i := 0;
      while i < |users|
        invariant 0 <= i <= |users|
        invariant forall j :: 0 <= j < i ==> users[j].name != username
      {
        if users[i].name == username {
          return true, None;
        }
        i := i + 1;
      }
      return false, Some(UserNotFound(username));
    }

    /** Whether a context `<namespace>/<cluster>/<op>` exists; absence is no error. */
    method HasContext(cluster: string, namespace: string, current: Option<string>)
      returns (ok: bool, err: Option<Error>)
      ensures ok <==> current.Some? && HasContextNamed(contexts, ContextName(namespace, cluster, current.value))
      ensures err == if current.None? then Some(IdentityUnavailable) else None
    {
      if current.None? {
        return false, Some(IdentityUnavailable);
      }
      var contextName := ContextName(namespace, cluster, current.value);
      var i := 0;
      while i < |contexts|
        invariant 0 <= i <= |contexts|
        invariant forall j :: 0 <= j < i ==> contexts[j].name != contextName
      {
        if contexts[i].name == contextName {
          return true, None;
        }
        i := i + 1;
      }
      return false, None;
    }

    /**
     * The name `<namespace>/<cluster>/<op>` when such a context exists and
     * the empty string when it does not.
     */
    method GetContextName(cluster: string, namespace: string, current: Option<string>)
      returns (name: string, err: Option<Error>)
      ensures current.None? ==> name == "" && err == Some(IdentityUnavailable)
      ensures current.Some? ==> err == None
      ensures current.Some? ==>
        name == (if HasContextNamed(contexts, ContextName(namespace, cluster, current.value))
                 then ContextName(namespace, cluster, current.value) else "")
    {
      if current.None? {
        return "", Some(IdentityUnavailable);
      }
      var contextName := ContextName(namespace, cluster, current.value);
      var i := 0;
      while i < |contexts|
        invariant 0 <= i <= |contexts|
        invariant forall j :: 0 <= j < i ==> contexts[j].name != contextName
      {
        if contexts[i].name == contextName {
          return contextName, None;
        }
        i := i + 1;
      }
      return "", None;
    }
  }

  /** A context name is never empty, so "" unambiguously means "not found". */
  lemma ContextNameNonEmpty(namespace: string, cluster: string, op: string)
    ensures |ContextName(namespace, cluster, op)| >= 2
    ensures ContextName(namespace, cluster, op) != ""
  {
  }

  /**
   * CreateContext appends exactly one entry at the end: the earlier entries,
   * the users, the clusters and the current context are untouched, and the
   * new entry carries the namespace, the cluster and the user name.
   */
  lemma CreateContextShape(d: Document, namespace: string, cluster: string, op: string)
    ensures var d' := WithContext(d, namespace, cluster, op);
      |d'.contexts| == |d.contexts| + 1 &&
      d'.contexts[..|d.contexts|] == d.contexts &&
      d'.contexts[|d.contexts|].name == ContextName(namespace, cluster, op) &&
      d'.contexts[|d.contexts|].context.cluster == cluster &&
      d'.contexts[|d.contexts|].context.namespace == namespace &&
      d'.contexts[|d.contexts|].context.user == UserName(op, cluster) &&
      d'.users == d.users && d'.clusters == d.clusters &&
      d'.currentContext == d.currentContext &&
      d'.apiVersion == d.apiVersion && d'.kind == d.kind
  {
  }

  /** After CreateContext, HasContext and GetContextName find the new entry. */
  lemma CreatedContextIsFound(d: Document, namespace: string, cluster: string, op: string)
    ensures HasContextNamed(WithContext(d, namespace, cluster, op).contexts, ContextName(namespace, cluster, op))
  {
    var cs := WithContext(d, namespace, cluster, op).contexts;
    assert cs[|cs| - 1].name == ContextName(namespace, cluster, op);
  }

  /** SetCurrentContext changes the current context and nothing else. */
  lemma SetCurrentContextShape(d: Document, context: string)
    ensures WithCurrent(d, context).currentContext == context
    ensures WithCurrent(d, context).(currentContext := d.currentContext) == d
  {
  }

  lemma {:induction false} CountNamedAppend(contexts: seq<ContextEntry>, e: ContextEntry, name: string)
    ensures CountNamed(contexts + [e], name) == CountNamed(contexts, name) + (if e.name == name then 1 else 0)
  {
    if contexts == [] {
      assert [] + [e] == [e];
      assert [e][1..] == [];
    } else {
      assert (contexts + [e])[1..] == contexts[1..] + [e];
      CountNamedAppend(contexts[1..], e, name);
    }
  }

  /** A name is counted at least once exactly when some entry has it. */
  lemma {:induction false} CountNamedPositive(contexts: seq<ContextEntry>, name: string)
    ensures CountNamed(contexts, name) > 0 <==> HasContextNamed(contexts, name)
  {
    if contexts != [] {
      CountNamedPositive(contexts[1..], name);
      if HasContextNamed(contexts[1..], name) {
        var i :| 0 <= i < |contexts[1..]| && contexts[1..][i].name == name;
        assert contexts[i + 1].name == name;
      }
      if HasContextNamed(contexts, name) && contexts[0].name != name {
        var i :| 0 <= i < |contexts| && contexts[i].name == name;
        assert contexts[1..][i - 1].name == name;
      }
    }
  }

  /**
   * CreateContext does no duplicate check: creating the same context twice
   * leaves two more entries of that name than there were.
   */
  lemma CreateContextTwiceDuplicates(d: Document, namespace: string, cluster: string, op: string)
    ensures var name := ContextName(namespace, cluster, op);
      CountNamed(WithContext(WithContext(d, namespace, cluster, op), namespace, cluster, op).contexts, name)
        == CountNamed(d.contexts, name) + 2
  {
    var e := NewContext(namespace, cluster, op);
    CountNamedAppend(d.contexts, e, e.name);
    CountNamedAppend(d.contexts + [e], e, e.name);
  }

  lemma SlashSplit(a: string, b: string, c: string, d: string)
    requires '/' !in a && '/' !in c
    requires a + "/" + b == c + "/" + d
    ensures a == c && b == d
  {
    var s := a + "/" + b;
    assert s[|a|] == '/';
    assert (c + "/" + d)[|c|] == '/';
    assert |a| == |c|;
    assert a == s[..|a|];
    assert c == (c + "/" + d)[..|c|];
    assert b == s[|a| + 1..];
    assert d == (c + "/" + d)[|c| + 1..];
  }

  /**
   * A context name determines its coordinates when the namespace and the
   * cluster identifier contain no `/` (as namespaces and host names do not).
   */
  lemma ContextNameInjective(ns1: string, cl1: string, op1: string, ns2: string, cl2: string, op2: string)
    requires '/' !in ns1 && '/' !in cl1 && '/' !in ns2 && '/' !in cl2
    requires ContextName(ns1, cl1, op1) == ContextName(ns2, cl2, op2)
    ensures ns1 == ns2 && cl1 == cl2 && op1 == op2
  {
    assert ContextName(ns1, cl1, op1) == ns1 + "/" + (cl1 + "/" + op1);
    assert ContextName(ns2, cl2, op2) == ns2 + "/" + (cl2 + "/" + op2);
    SlashSplit(ns1, cl1 + "/" + op1, ns2, cl2 + "/" + op2);
    SlashSplit(cl1, op1, cl2, op2);
  }

  /** Without that restriction two different coordinates can share a name. */
  lemma ContextNameAmbiguousWithSlash()
    ensures ContextName("a/b", "c", "op") == ContextName("a", "b/c", "op")
  {
  }
}
