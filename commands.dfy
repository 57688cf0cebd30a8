/**
 * The external actions the release steps perform. None of them is interpreted
 * here: each is an opaque entry in the trace of issued commands, and the host
 * decides whether it succeeds and what it prints.
 */
module Commands {
  import opened Wrappers

  datatype Command =
    | Exec(argv: seq<string>)                // util.exec: run argv, raise when it exits non-zero
    | Invoke(argv: seq<string>)              // invoke(argv)
    | InvokeGit(args: seq<string>)           // invokeGIT(args): git with these arguments
    | Commit(path: string, message: string)  // commit(path, message)
    | DeleteTags(pattern: string)            // delete_tags(pattern), locally and on the remote
    | GitConfig                              // git_config()
    | AddVersionLabel(version: string)       // add_version_label_to_open_bugs(version)
    | Delegate(stepClass: string)            // execute() of a shared step class whose body is not modelled

  /** What the host answers to a command: its standard output, or a failure. */
  datatype Reply = Done(stdout: string) | Failed

  /**
   * What the release-tag pattern `TAG_RE` yields: groups 1 and 2 read with `int()`,
   * and group 4, the micro part, as matched text (absent when the tag has no micro part).
   */
  datatype TagMatch = TagMatch(major: nat, minor: nat, micro: Option<string>)
}
