/**
 * open_app.py: the helper script the assistant starts with the spoken
 * application name. It lists the executables installed in the usual
 * directories, picks the name that best matches what was said, and starts
 * that application: directly for a known name, otherwise through `which`,
 * `snap` or `flatpak`, in that order.
 */
module OpenApp {
  import opened Base
  import opened Strings
  import opened Effects
  import opened Fuzzy

  /** `predefined_apps`: spoken names of common applications and the command that starts each. */
  const PredefinedApps: Dict := [
    ("spotify", "spotify"),
    ("firefox", "firefox"),
    ("discord", "discord"),
    ("code", "code"),
    ("vscode", "code"),
    ("visual studio code", "code"),
    ("settings", "gnome-control-center"),
    ("terminal", "gnome-terminal"),
    ("calculator", "gnome-calculator")
  ]

  /** Score a candidate must exceed to count as a match. */
  const MatchThreshold := 70

  const OpenApology := "Sorry, I couldn't open the application."

  function NotFoundMessage(name: string): string
  {
    "Sorry, I couldn't find the application '" + name + "'."
  }

  /** `search_dirs`, with `~` expanded to the user's home directory. */
  function SearchDirs(home: string): seq<string>
  {
    ["/usr/bin", "/usr/local/bin", "/snap/bin", home + "/.local/bin"]
  }

  function FindArgv(dir: string): seq<string>
  {
    ["find", dir, "-type", "f", "-executable"]
  }

  /** The lines a `find` run contributes: its output when it exited with 0, nothing otherwise. */
  function Listing(r: RunResult): seq<string>
  {
    if r.Exited? && r.code == 0 then SplitLines(r.stdout) else []
  }

  /** What the search of the first `n` directories has collected, in directory order. */
  function Found(dirs: seq<string>, run: Runner, n: nat): seq<string>
    requires n <= |dirs|
  {
    if n == 0 then [] else Found(dirs, run, n - 1) + Listing(run(FindArgv(dirs[n - 1])))
  }

  /** `find_apps()`: the executables listed by `find` in every search directory; a failed search is skipped. */
  method FindApps(home: string, run: Runner) returns (apps: seq<string>)
    ensures apps == Found(SearchDirs(home), run, |SearchDirs(home)|)
  {
    var dirs := SearchDirs(home);
    apps := [];
    for i := 0 to |dirs|
      invariant apps == Found(dirs, run, i)
    {
      var result := run(FindArgv(dirs[i]));
      if result.Exited? && result.code == 0 {
        apps := apps + SplitLines(result.stdout);
      }
    }
  }

  /** Every collected path is a line printed by a `find` that succeeded in one of the directories. */
  lemma {:induction false} FoundComesFromSuccessfulSearch(dirs: seq<string>, run: Runner, n: nat, app: string)
    requires n <= |dirs|
    requires app in Found(dirs, run, n)
    ensures exists i :: 0 <= i < n && run(FindArgv(dirs[i])).Exited? && run(FindArgv(dirs[i])).code == 0
                        && app in SplitLines(run(FindArgv(dirs[i])).stdout)
  {
    if app !in Found(dirs, run, n - 1) {
      assert app in Listing(run(FindArgv(dirs[n - 1])));
    } else {
      FoundComesFromSuccessfulSearch(dirs, run, n - 1, app);
    }
  }

  /** Conversely, every line printed by a successful `find` is collected. */
  lemma {:induction false} SuccessfulSearchIsFound(dirs: seq<string>, run: Runner, n: nat, i: nat, app: string)
    requires i < n <= |dirs|
    requires run(FindArgv(dirs[i])).Exited? && run(FindArgv(dirs[i])).code == 0
    requires app in SplitLines(run(FindArgv(dirs[i])).stdout)
    ensures app in Found(dirs, run, n)
  {
    if i < n - 1 {
      SuccessfulSearchIsFound(dirs, run, n - 1, i, app);
    }
  }

  /** `path.split('/')[-1]`: what follows the last '/', or the whole path when there is none. */
  function Basename(path: string): (b: string)
    ensures '/' !in b
    ensures EndsWith(path, b)
    ensures |b| < |path| ==> path[|path| - |b| - 1] == '/'
    decreases |path|
  {
    if path == [] || path[|path| - 1] == '/' then []
    else
      var b := Basename(path[..|path| - 1]);
      assert path[..|path| - 1][|path| - 1 - |b|..] == b;
      assert path[|path| - (|b| + 1)..] == b + [path[|path| - 1]];
      b + [path[|path| - 1]]
  }

  /** The choices offered to the matcher: the given names, then the base name of every found path. */
  function Candidates(names: seq<string>, apps: seq<string>): (c: seq<string>)
    ensures |c| == |names| + |apps|
    ensures c[..|names|] == names
    ensures forall i :: 0 <= i < |apps| ==> c[|names| + i] == Basename(apps[i])
  {
    names + seq(|apps|, i requires 0 <= i < |apps| => Basename(apps[i]))
  }

  /**
   * `find_best_match(app_name, apps)`: the best-scoring candidate when it
   * scores above the threshold. The match is a predefined name or the base
   * name of a found executable.
   */
  function FindBestMatch(name: string, apps: seq<string>, scorer: Scorer): (r: Option<string>)
    ensures r.Some? <==> exists c :: c in Candidates(Keys(PredefinedApps), apps) && scorer(name, c) > MatchThreshold
    ensures r.Some? ==> scorer(name, r.value) > MatchThreshold
                        && forall c :: c in Candidates(Keys(PredefinedApps), apps) ==> scorer(name, c) <= scorer(name, r.value)
    ensures r.Some? ==> r.value in Keys(PredefinedApps) || exists i :: 0 <= i < |apps| && r.value == Basename(apps[i])
    ensures r.Some? ==> FirstBest(name, Candidates(Keys(PredefinedApps), apps), scorer, r.value)
  {
    var names := Keys(PredefinedApps);
    var choices := Candidates(names, apps);
    var r := ExtractAbove(name, choices, scorer, MatchThreshold);
    if r.Some? then
      var k :| 0 <= k < |choices| && choices[k] == r.value;
      if k < |names| then
        assert r.value == names[k];
        r
      else
        assert r.value == Basename(apps[k - |names|]);
        r
    else r
  }

  /** The commands `open_app` runs to look for an application it does not know, in the order it runs them. */
  function Probes(name: string): seq<seq<string>>
  {
    [["which", name], ["snap", "list"], ["flatpak", "list"]]
  }

  /** Why nothing was started: the application was not found, or an exception was raised. */
  datatype OpenFailure = NotFound | OpenError

  /**
   * What `open_app` did: the probes it ran, the command it handed to `Popen`
   * (if any) and why it ended without starting anything (if it did).
   */
  datatype Opening = Opening(probed: seq<seq<string>>, started: Option<seq<string>>, failure: Option<OpenFailure>)

  /** The speech that ends an attempt: nothing on success, one apology otherwise. */
  function Said(o: Opening, name: string): (said: seq<Speech>)
    ensures |said| <= 1
    ensures said == [] <==> o.failure.None?
  {
    match o.failure
    case None => []
    case Some(NotFound) => [Speak(NotFoundMessage(name), None)]
    case Some(OpenError) => [Speak(OpenApology, None)]
  }

  /** Starting `argv`: an exception from `Popen` ends the attempt with the apology. */
  function Start(probed: seq<seq<string>>, argv: seq<string>, spawn: Spawner): (o: Opening)
    ensures o.probed == probed && o.started == Some(argv)
    ensures o.failure.None? <==> spawn(argv)
  {
    Opening(probed, Some(argv), if spawn(argv) then None else Some(OpenError))
  }

  /**
   * Whether probe `k` of `Probes(name)` knows the application: `which` by
   * exiting with status 0, the snap and flatpak lists by naming it.
   */
  predicate ProbeKnows(k: nat, name: string, r: RunResult)
  {
    r.Exited? && if k == 0 then r.code == 0 else Contains(r.stdout, name)
  }

  /** The command started once probe `k` knows the application. */
  function ProbeCommand(k: nat, name: string, r: RunResult): seq<string>
    requires r.Exited?
  {
    if k == 0 then [Strip(r.stdout)] else if k == 1 then ["snap", "run", name] else ["flatpak", "run", name]
  }

  /**
   * `open_app(app_name)`: a predefined name starts its command without any
   * probe; any other name is looked up with `which`, then in the list of
   * snaps, then in the list of flatpaks, stopping at the first that knows
   * it. Any exception is answered with the generic apology.
   */
  function OpenApp(name: string, run: Runner, spawn: Spawner): (o: Opening)
    ensures name in Keys(PredefinedApps) ==> o.probed == [] && o.started == Some([Get(PredefinedApps, name).value])
    ensures name !in Keys(PredefinedApps) ==> 1 <= |o.probed| <= 3 && o.probed == Probes(name)[..|o.probed|]
    ensures o.failure.None? <==> o.started.Some? && spawn(o.started.value)
    ensures o.started.Some? ==> o.failure != Some(NotFound)
    ensures o.failure == Some(NotFound) ==> o.probed == Probes(name)
    ensures o.failure == Some(OpenError) <==>
              (o.started.Some? && !spawn(o.started.value)) || (o.probed != [] && run(o.probed[|o.probed| - 1]).Raised?)
    // Every probe before the last one ran and did not know the name: the chain stops at the first that does.
    ensures forall k :: 0 <= k < |o.probed| - 1 ==> run(o.probed[k]).Exited? && !ProbeKnows(k, name, run(o.probed[k]))
    ensures name !in Keys(PredefinedApps) ==>
              var last := |o.probed| - 1;
              && (o.started.Some? <==> ProbeKnows(last, name, run(o.probed[last])))
              && (o.started.Some? ==> o.started.value == ProbeCommand(last, name, run(o.probed[last])))
              && (last < 2 ==> run(o.probed[last]).Raised? || ProbeKnows(last, name, run(o.probed[last])))
              && (o.failure == Some(NotFound) <==> last == 2 && run(o.probed[last]).Exited? && !ProbeKnows(last, name, run(o.probed[last])))
  {
    if name in Keys(PredefinedApps) then
      Start([], [Get(PredefinedApps, name).value], spawn)
    else
      var which := run(["which", name]);
      if which.Raised? then Opening(Probes(name)[..1], None, Some(OpenError))
      else if which.code == 0 then Start(Probes(name)[..1], [Strip(which.stdout)], spawn)
      else
        var snap := run(["snap", "list"]);
        if snap.Raised? then Opening(Probes(name)[..2], None, Some(OpenError))
        else if Contains(snap.stdout, name) then Start(Probes(name)[..2], ["snap", "run", name], spawn)
        else
          var flatpak := run(["flatpak", "list"]);
          if flatpak.Raised? then Opening(Probes(name), None, Some(OpenError))
          else if Contains(flatpak.stdout, name) then Start(Probes(name), ["flatpak", "run", name], spawn)
          else Opening(Probes(name), None, Some(NotFound))
  }

  /**
   * "Not found" is said only after all three probes ran without an exception
   * and none of them knows the application.
   */
  lemma NotFoundMeansEveryProbeFailed(name: string, run: Runner, spawn: Spawner)
    requires OpenApp(name, run, spawn).failure == Some(NotFound)
    ensures name !in Keys(PredefinedApps)
    ensures run(["which", name]).Exited? && run(["which", name]).code != 0
    ensures run(["snap", "list"]).Exited? && !Contains(run(["snap", "list"]).stdout, name)
    ensures run(["flatpak", "list"]).Exited? && !Contains(run(["flatpak", "list"]).stdout, name)
  {
  }

  /** An application `which` finds is started from the path it prints; snap and flatpak are never asked. */
  lemma WhichWins(name: string, run: Runner, spawn: Spawner, out: string)
    requires name !in Keys(PredefinedApps)
    requires run(["which", name]) == Exited(0, out)
    ensures OpenApp(name, run, spawn).probed == [["which", name]]
    ensures OpenApp(name, run, spawn).started == Some([Strip(out)])
  {
  }

  /** Whether a predefined application starts depends on `Popen` alone: no probe is consulted. */
  lemma PredefinedIgnoresProbes(name: string, run1: Runner, run2: Runner, spawn: Spawner)
    requires name in Keys(PredefinedApps)
    ensures OpenApp(name, run1, spawn) == OpenApp(name, run2, spawn)
  {
  }

  /** "code", "vscode" and "visual studio code" all start Visual Studio Code's `code` command. */
  lemma CodeAliases(run: Runner, spawn: Spawner)
    ensures OpenApp("code", run, spawn).started == Some(["code"])
    ensures OpenApp("vscode", run, spawn).started == Some(["code"])
    ensures OpenApp("visual studio code", run, spawn).started == Some(["code"])
  {
    assert Keys(PredefinedApps)[3] == "code";
    assert Keys(PredefinedApps)[4] == "vscode";
    assert Keys(PredefinedApps)[5] == "visual studio code";
  }

  /** The script's exit status: 1 when no application name is given, 0 otherwise, whatever happened to it. */
  function ExitStatus(argv: seq<string>): (code: int)
    ensures code == 0 <==> |argv| >= 2
    ensures code == 1 <==> |argv| < 2
  {
    if |argv| < 2 then 1 else 0
  }

  /** What running the script did: its exit status, the attempt it made (if any) and what it said. */
  datatype ScriptRun = ScriptRun(exitCode: int, opening: Option<Opening>, said: seq<Speech>)

  /**
   * The script's entry point: without an application name it exits with
   * status 1; otherwise it opens the best match, or says that nothing
   * matched. An empty match counts as no match.
   */
  method RunScript(argv: seq<string>, home: string, run: Runner, spawn: Spawner, scorer: Scorer)
    returns (r: ScriptRun)
    ensures |argv| < 2 ==> r == ScriptRun(1, None, [])
    ensures r.exitCode == ExitStatus(argv)
    ensures |argv| >= 2 ==>
      var matched := FindBestMatch(argv[1], Found(SearchDirs(home), run, |SearchDirs(home)|), scorer);
      if matched.Some? && matched.value != "" then
        r.opening == Some(OpenApp(matched.value, run, spawn)) && r.said == Said(r.opening.value, matched.value)
      else
        r.opening.None? && r.said == [Speak(NotFoundMessage(argv[1]), None)]
  {
    if |argv| < 2 {
      return ScriptRun(1, None, []);
    }
    var name := argv[1];
    var apps := FindApps(home, run);
    var matched := FindBestMatch(name, apps, scorer);
    if matched.Some? && matched.value != "" {
      var o := OpenApp(matched.value, run, spawn);
      r := ScriptRun(0, Some(o), Said(o, matched.value));
    } else {
      r := ScriptRun(0, None, [Speak(NotFoundMessage(name), None)]);
    }
  }
}
