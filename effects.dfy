/** What the daemons do to the world, recorded in order instead of done. */
module Effects {

  /** What the responder returned, or the message of the exception it raised. */
  datatype Reply = Answer(text: string) | Raised(error: string)

  datatype Event =
    | Log(line: string)
    | Kill(pid: int)
    | Notify(title: string, body: string)
    | Ask(prompt: string)
    | Sleep(seconds: nat)
}
