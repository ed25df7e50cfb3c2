/**
 * The observable side of the collaborators the core calls but that are not
 * part of this model: spoken feedback (voice_feedback) and subprocesses.
 */
module Effects {
  import opened Base

  /** One call into the spoken-feedback collaborator. */
  datatype Speech =
    | Speak(text: string, wait: Option<bool>)   // speak(text[, wait]); None: the argument is not passed
    | ExecutionTone                             // give_execution_feedback()
    | ExitingTone                               // give_exiting_feedback()

  /** What `subprocess.run` gives back: an exit status and its decoded stdout, or an exception. */
  datatype RunResult = Exited(code: int, stdout: string) | Raised

  /** `subprocess.run(argv)`, as seen by the caller. */
  type Runner = seq<string> -> RunResult

  /** `subprocess.Popen(argv)`: true when the process was started, false when Popen raised. */
  type Spawner = seq<string> -> bool
}
