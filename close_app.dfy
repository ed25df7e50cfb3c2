/**
 * close_app.py: the helper script the assistant starts with the spoken name
 * of an application to close. It lists the running processes, picks the
 * name that best matches what was said, and closes it: politely through the
 * window manager first, then by signalling the process with `pkill`, then
 * with `killall`.
 */
module CloseApp {
  import opened Base
  import opened Strings
  import opened Effects
  import opened Fuzzy

  /** `predefined_apps`: spoken names of common applications and the name of their process. */
  const PredefinedApps: Dict := [
    ("spotify", "spotify"),
    ("firefox", "firefox"),
    ("discord", "discord"),
    ("code", "code"),
    ("vscode", "code"),
    ("visual studio code", "code"),
    ("settings", "gnome-control-center"),
    ("terminal", "gnome-terminal"),
    ("calculator", "gnome-calculator"),
    ("chrome", "chrome"),
    ("google chrome", "chrome"),
    ("brave", "brave-browser"),
    ("libreoffice", "soffice.bin"),
    ("thunderbird", "thunderbird")
  ]

  /** Score a candidate must exceed to count as a match. */
  const MatchThreshold := 70

  const PsArgv := ["ps", "-eo", "comm"]

  const CloseApology := "Sorry, I encountered an error while trying to close the application."

  function NoMatchMessage(name: string): string
  {
    "Sorry, I couldn't find a running application matching '" + name + "'."
  }

  /** `[p.strip() for p in lines if p.strip()]`: every kept name is non-blank and already stripped. */
  function StrippedNonBlank(lines: seq<string>): (r: seq<string>)
    ensures forall p :: p in r ==> p != [] && Strip(p) == p
    decreases |lines|
  {
    if lines == [] then []
    else
      var n := |lines| - 1;
      var rest := StrippedNonBlank(lines[..n]);
      var p := Strip(lines[n]);
      StripIdempotent(lines[n]);
      if p != [] then rest + [p] else rest
  }

  /** A line is kept, stripped, exactly when it is not blank. */
  lemma {:induction false} StrippedNonBlankKeeps(lines: seq<string>, p: string)
    ensures p in StrippedNonBlank(lines) <==> exists l :: l in lines && Strip(l) == p && p != []
    decreases |lines|
  {
    if lines != [] {
      var n := |lines| - 1;
      StrippedNonBlankKeeps(lines[..n], p);
      assert lines == lines[..n] + [lines[n]];
    }
  }

  /**
   * `find_running_apps()`: the command name of every running process, as
   * listed by `ps`, stripped and without blank lines; nothing when `ps`
   * fails or raises.
   */
  function FindRunningApps(run: Runner): (apps: seq<string>)
    ensures forall p :: p in apps ==> p != [] && Strip(p) == p
    ensures !(run(PsArgv).Exited? && run(PsArgv).code == 0) ==> apps == []
    ensures run(PsArgv).Exited? && run(PsArgv).code == 0 ==> apps == StrippedNonBlank(SplitLines(run(PsArgv).stdout))
  {
    var ps := run(PsArgv);
    if ps.Exited? && ps.code == 0 then StrippedNonBlank(SplitLines(ps.stdout)) else []
  }

  /**
   * `find_best_match(app_name, running_apps)`: the best-scoring name among
   * the predefined names and the running processes, when it scores above
   * the threshold.
   */
  function FindBestMatch(name: string, running: seq<string>, scorer: Scorer): (r: Option<string>)
    ensures r.Some? <==> exists c :: c in Keys(PredefinedApps) + running && scorer(name, c) > MatchThreshold
    ensures r.Some? ==> scorer(name, r.value) > MatchThreshold
                        && forall c :: c in Keys(PredefinedApps) + running ==> scorer(name, c) <= scorer(name, r.value)
    ensures r.Some? ==> r.value in Keys(PredefinedApps) || r.value in running
    ensures r.Some? ==> FirstBest(name, Keys(PredefinedApps) + running, scorer, r.value)
  {
    ExtractAbove(name, Keys(PredefinedApps) + running, scorer, MatchThreshold)
  }

  /** `get_process_name(app_name)`: the process of a predefined name, in any letter case; otherwise the name itself. */
  function GetProcessName(name: string): (p: string)
    ensures Lower(name) in Keys(PredefinedApps) ==> (Lower(name), p) in PredefinedApps
    ensures Lower(name) !in Keys(PredefinedApps) ==> p == name
  {
    match Get(PredefinedApps, Lower(name))
    case Some(p) => p
    case None => name
  }

  /**
   * The commands `close_app` tries, in order: the window manager with the
   * application's name, then `pkill` and `killall` with its process name.
   */
  function CloseSteps(name: string, process: string): seq<seq<string>>
  {
    [["wmctrl", "-c", name], ["pkill", "-f", process], ["killall", process]]
  }

  /** How closing ended: closed, every method failed, or an exception was raised. */
  datatype CloseOutcome = Closed | CouldNotClose | CloseError

  /** What `close_app` did: the commands it ran and how it ended. */
  datatype Closing = Closing(ran: seq<seq<string>>, outcome: CloseOutcome)

  /** The one sentence that reports an outcome. */
  function Said(outcome: CloseOutcome, name: string): Speech
  {
    match outcome
    case Closed => Speak("Closed " + name, None)
    case CouldNotClose => Speak("Sorry, I couldn't close " + name, None)
    case CloseError => Speak(CloseApology, None)
  }

  /** Whether a command exited with status 0. */
  predicate Succeeded(r: RunResult)
  {
    r.Exited? && r.code == 0
  }

  /**
   * The body of `close_app` once the process name is known: the steps run in
   * order until one succeeds; a step that exits with a non-zero status
   * passes on to the next one, and an exception from any step ends the
   * attempt with the generic apology.
   */
  function CloseWith(name: string, process: string, run: Runner): (c: Closing)
    ensures 1 <= |c.ran| <= 3 && c.ran == CloseSteps(name, process)[..|c.ran|]
    ensures forall k :: 0 <= k < |c.ran| - 1 ==> run(c.ran[k]).Exited? && run(c.ran[k]).code != 0
    ensures c.outcome == Closed <==> Succeeded(run(c.ran[|c.ran| - 1]))
    ensures c.outcome == CloseError <==> run(c.ran[|c.ran| - 1]).Raised?
    ensures c.outcome == CouldNotClose ==> |c.ran| == 3
  {
    var steps := CloseSteps(name, process);
    var wmctrl := run(steps[0]);
    if wmctrl.Raised? then Closing(steps[..1], CloseError)
    else if wmctrl.code == 0 then Closing(steps[..1], Closed)
    else
      var pkill := run(steps[1]);
      if pkill.Raised? then Closing(steps[..2], CloseError)
      else if pkill.code == 0 then Closing(steps[..2], Closed)
      else
        var killall := run(steps[2]);
        if killall.Raised? then Closing(steps, CloseError)
        else if killall.code == 0 then Closing(steps, Closed)
        else Closing(steps, CouldNotClose)
  }

  /** `close_app(app_name)`: the process name is looked up first, then the steps are tried. */
  function CloseApp(name: string, run: Runner): Closing
  {
    CloseWith(name, GetProcessName(name), run)
  }

  /** Closing is reported as done exactly when some step succeeded and every step before it ran without an exception. */
  lemma ClosedIffSomeStepSucceeded(name: string, process: string, run: Runner)
    ensures CloseWith(name, process, run).outcome == Closed <==>
      exists k :: 0 <= k < 3 && Succeeded(run(CloseSteps(name, process)[k]))
                && forall j :: 0 <= j < k ==> run(CloseSteps(name, process)[j]).Exited?
  {
    var c := CloseWith(name, process, run);
    var steps := CloseSteps(name, process);
    if c.outcome == Closed {
      var k := |c.ran| - 1;
      assert c.ran[k] == steps[k];
      forall j | 0 <= j < k ensures run(steps[j]).Exited? {
        assert c.ran[j] == steps[j];
      }
    }
  }

  /** "chrome" is closed through the process `chrome`. */
  lemma ChromeProcess()
    ensures GetProcessName("chrome") == "chrome"
  {
    LowerOfLowercase("chrome");
    GetFindsFirst(PredefinedApps, "chrome", 9);
  }

  /** "google chrome" is closed through the same process as "chrome". */
  lemma GoogleChromeProcess()
    ensures GetProcessName("google chrome") == "chrome"
  {
    LowerOfLowercase("google chrome");
    GetFindsFirst(PredefinedApps, "google chrome", 10);
  }

  /** "libreoffice" is closed through the process `soffice.bin`. */
  lemma LibreOfficeProcess()
    ensures GetProcessName("libreoffice") == "soffice.bin"
  {
    LowerOfLowercase("libreoffice");
    GetFindsFirst(PredefinedApps, "libreoffice", 12);
  }

  /** Every predefined name is non-empty. */
  lemma KeysNonEmpty()
    ensures forall k :: k in Keys(PredefinedApps) ==> k != []
  {
  }

  /** A match drawn from the running processes and the predefined names is never empty. */
  lemma MatchNeverEmpty(name: string, run: Runner, scorer: Scorer)
    ensures FindBestMatch(name, FindRunningApps(run), scorer).Some? ==> FindBestMatch(name, FindRunningApps(run), scorer).value != []
  {
    KeysNonEmpty();
  }

  /** What running the script did: its exit status, the closing attempt (if any) and what it said. */
  datatype ScriptRun = ScriptRun(exitCode: int, closing: Option<Closing>, said: seq<Speech>)

  /**
   * The script's entry point: without an application name it exits with
   * status 1; otherwise it closes the best match among the running
   * applications, or says that nothing matched.
   */
  method RunScript(argv: seq<string>, run: Runner, scorer: Scorer) returns (r: ScriptRun)
    ensures |argv| < 2 ==> r == ScriptRun(1, None, [])
    ensures |argv| >= 2 ==> r.exitCode == 0 && |r.said| == 1
    ensures |argv| >= 2 ==>
      var matched := FindBestMatch(argv[1], FindRunningApps(run), scorer);
      if matched.Some? then
        r.closing == Some(CloseApp(matched.value, run)) && r.said == [Said(r.closing.value.outcome, matched.value)]
      else
        r.closing.None? && r.said == [Speak(NoMatchMessage(argv[1]), None)]
  {
    if |argv| < 2 {
      return ScriptRun(1, None, []);
    }
    var name := argv[1];
    var running := FindRunningApps(run);
    var matched := FindBestMatch(name, running, scorer);
    MatchNeverEmpty(name, run, scorer);
    if matched.Some? && matched.value != "" {
      var c := CloseApp(matched.value, run);
      r := ScriptRun(0, Some(c), [Said(c.outcome, matched.value)]);
    } else {
      r := ScriptRun(0, None, [Speak(NoMatchMessage(name), None)]);
    }
  }
}
