/**
 * The external effects the commands perform, recorded in order in place of running
 * them: commands started, files read, directories created, files written or removed,
 * and webhook posts.
 */
module Effects {
  datatype Effect =
    | Command(argv: seq<string>)
    | ReadFile(path: string)
    | MakeDirs(path: string)
    | WriteFile(path: string, content: string)
    | RemoveFile(path: string)
    | PostWebhook(url: string, message: string)
}
