/** The exceptions the modelled code raises, as one datatype. */
module Errors {
  import opened Commands

  /** Why a `RoundupError` was raised. */
  datatype Reason =
    | NoReleaseTag                      // version bump: `git describe` printed nothing
    | NotReleaseTag(tag: string)        // version bump: the tag does not match TAG_RE
    | NoMicro                           // version bump: the tag has no micro part
    | MalformedVersion(version: string) // unstable publication: version is not M.N.P-unstable
    | NoNpmToken                        // preparation: NPMJS_COM_TOKEN missing or empty
    | PackageJsonUnreadable             // package.json could not be read
    | NoCleanupTag                      // cleanup: `git describe` printed nothing

  datatype Error =
    | RoundupError(reason: Reason)       // errors.RoundupError
    | MissingEnvVarError(name: string)   // errors.MissingEnvVarError
    | ProcessError(command: Command)     // a command that failed (InvokedProcessError)
    | NotImplementedError                // an abstract `execute` or `detect`
    | ValueError                         // no src directory in the workspace
    | KeyError(key: string)              // a missing dictionary key
    | IndexError                         // `split('/')[1]` on a value with no '/'
    | AttributeError                     // a method called on `None`
    | TypeError                          // a `for` loop over `None`
    | UnboundLocalError(variable: string) // a local read before any assignment
}
