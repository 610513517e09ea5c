/** Optional values, standing in for Go's nil pointers and nil errors. */
module Wrappers {

  datatype Option<+T> = None | Some(value: T)
}

/** The errors the switcher can produce, and a value-or-error result. */
module Errors {

  /** Each Go `error` value the core can return, by the condition that produced it. */
  datatype Error =
    | IdentityUnavailable            // user.Current() failed
    | UserNotFound(username: string) // "Could not find user: %s"
    | ClusterNotFound(shortName: string) // "Could not find cluster: %s"
    | InvalidUrl(url: string)        // url.Parse rejected the cluster URL
    | LoadFailed(path: string)       // reading or decoding a configuration file failed
    | WriteFailed(path: string)      // encoding or writing the kubeconfig failed

  /** What a loader hands back: the decoded document or the error it failed with. */
  datatype Result<+T> = Ok(value: T) | Err(error: Error)
}
