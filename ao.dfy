/**
 * The environment registry (the ao configuration): a map from cluster
 * shortnames to cluster records, of which the switcher reads only the URL.
 */
module Ao {
  import opened Wrappers
  import opened Errors

  /** A registry cluster record (Go `ao.Cluster`), reduced to what is read. */
  datatype Cluster = Cluster(name: string, url: string)

  /**
   * The registry.  A value is a Go `*Cluster`: `None` is a nil pointer, which
   * the JSON decoder stores for an entry written as `null`.
   */
  datatype AOConfig = AOConfig(clusters: map<string, Option<Cluster>>)

  /**
   * Looks `shortName` up by exact key: on a hit the pointer stored there
   * (possibly nil) and no error, on a miss a nil pointer and an error naming
   * `shortName`.  The configuration itself is a value and is not changed.
   */
  function GetCluster(ao: AOConfig, shortName: string): (r: (Option<Cluster>, Option<Error>))
    ensures r.1 == None <==> shortName in ao.clusters
    ensures shortName in ao.clusters ==> r.0 == ao.clusters[shortName]
    ensures shortName !in ao.clusters ==> r == (None, Some(ClusterNotFound(shortName)))
  {
    if shortName in ao.clusters then (ao.clusters[shortName], None)
    else (None, Some(ClusterNotFound(shortName)))
  }

  /**
   * The source's loop over the map, for one iteration order `keys`: the
   * first key equal to `shortName` wins, giving the record stored under it;
   * running out of keys gives a nil record and the error naming `shortName`.
   */
  function ScanClusters(ao: AOConfig, keys: seq<string>, shortName: string): (r: (Option<Cluster>, Option<Error>))
    requires forall k :: k in keys ==> k in ao.clusters
    ensures r.1 == None <==> shortName in keys
    ensures shortName in keys ==> r.0 == ao.clusters[shortName]
    ensures shortName !in keys ==> r == (None, Some(ClusterNotFound(shortName)))
  {
    if keys == [] then (None, Some(ClusterNotFound(shortName)))
    else if keys[0] == shortName then (ao.clusters[keys[0]], None)
    else ScanClusters(ao, keys[1..], shortName)
  }

  /**
   * Keys are unique and matched by plain equality, so whatever order the
   * map is iterated in, the loop returns exactly what GetCluster does.
   */
  lemma ScanOrderIrrelevant(ao: AOConfig, keys: seq<string>, shortName: string)
    requires forall k :: k in keys <==> k in ao.clusters
    ensures ScanClusters(ao, keys, shortName) == GetCluster(ao, shortName)
  {
  }

  /**
   * Matching is exact: an entry under any key other than `shortName` (say
   * "Prod" when looking up "prod", or "prod-1") has no effect on the result.
   */
  lemma GetClusterIsExact(ao: AOConfig, shortName: string, other: string, c: Option<Cluster>)
    requires other != shortName
    ensures GetCluster(AOConfig(ao.clusters[other := c]), shortName) == GetCluster(ao, shortName)
  {
  }
}
