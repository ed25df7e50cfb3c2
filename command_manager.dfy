/**
 * command_manager.py: the table of voice bindings, the routing of a
 * transcript to an action, and the built-in master-control-mode switches.
 */
module CommandManager {
  import opened Base
  import opened Strings
  import opened Fuzzy
  import opened Effects
  import ConfigManager
  import OpenAppScript = OpenApp

  const QuitCommand := "see you later"
  const ActivateMasterModeCommand := "activate master control mode"
  const DeactivateMasterModeCommand := "de" + ActivateMasterModeCommand   // "deactivate master control mode"

  /** The value `init` stores under each built-in phrase. */
  const BuiltInMarker := "<built-in>"

  /** The exact phrases that toggle the assistant's response style. */
  const ToggleCommands := ["toggle response style", "switch response style", "change response style"]

  /** The launcher used for web searches when commands.json binds no "search for *". */
  const DefaultSearchArgv := ["/usr/bin/python3", "/home/fantucci/robot/voice/search_for.py"]

  /** The launcher that runs open_app.py for an "open ..." request. */
  const OpenAppArgv := ["/home/fantucci/robot/.venv/bin/python3", "/home/fantucci/robot/voice/open_app.py"]

  const DeactivatingNotice := "Deactivating Master Control Mode of this session"
  const AlreadyActivatedNotice := "Master Control Mode is already Activated"
  const NeedsSetupNotice := "You need to configure master control mode before using it, refer to the project's readme"
  const ActivatedNotice := "Activated Master Control Mode"
  const AlreadyOffNotice := "Master Control Mode is already Off"
  const DeactivatedNotice := "Deactivated Master Control Mode"
  const OpenFailedApology := "Sorry, I couldn't open the application."

  /** A value of commands.json: a bare command line, or a record with its feedback. */
  datatype Binding = Simple(cmd: string) | Structured(exec: string, feedback: string, blocking: bool)

  /** The command line a binding launches: `b['exec']`, or the string itself when indexing it raises TypeError. */
  function ExecOf(b: Binding): string
  {
    match b
    case Simple(cmd) => cmd
    case Structured(exec, _, _) => exec
  }

  /** A Python dictionary of bindings: its keys in insertion order, and the mapping. */
  datatype Table = Table(keys: seq<string>, values: map<string, Binding>)
  {
    ghost predicate Valid()
    {
      && (forall i, j :: 0 <= i < j < |keys| ==> keys[i] != keys[j])
      && (forall k :: k in values <==> k in keys)
    }

    /** `d[k] = b`: a new key goes to the end, an existing key keeps its place. */
    function Put(k: string, b: Binding): (t: Table)
      requires Valid()
      ensures t.Valid()
      ensures t.values == values[k := b]
      ensures k in values ==> t.keys == keys
      ensures k !in values ==> t.keys == keys + [k]
    {
      if k in values then Table(keys, values[k := b]) else Table(keys + [k], values[k := b])
    }
  }

  const EmptyTable := Table([], map[])

  /** The personalised quit phrase `f'see you later {name}'`. */
  function QuitPhrase(name: string): string
  {
    QuitCommand + " " + name
  }

  function BuiltInKeys(name: string): set<string>
  {
    {QuitPhrase(name), ActivateMasterModeCommand, DeactivateMasterModeCommand}
  }

  /**
   * The table `init` builds: the loaded bindings, then the three built-in
   * phrases, which overwrite any loaded binding of the same name.
   */
  function InitTable(loaded: Table, name: string): (t: Table)
    requires loaded.Valid()
    ensures t.Valid()
    ensures forall k :: k in BuiltInKeys(name) ==> k in t.values && t.values[k] == Simple(BuiltInMarker)
    ensures forall k :: k in loaded.values && k !in BuiltInKeys(name) ==> k in t.values && t.values[k] == loaded.values[k]
    ensures t.values.Keys == loaded.values.Keys + BuiltInKeys(name)
    ensures loaded.keys <= t.keys
  {
    loaded.Put(QuitPhrase(name), Simple(BuiltInMarker))
          .Put(ActivateMasterModeCommand, Simple(BuiltInMarker))
          .Put(DeactivateMasterModeCommand, Simple(BuiltInMarker))
  }

  /**
   * `hasText(source, text)`: `text` occurs in `source` and its first
   * occurrence starts the string or follows a character that is not a letter.
   */
  function HasText(source: string, text: string): (r: bool)
    ensures r <==> exists k :: 0 <= k <= |source| && OccursAt(source, text, k)
                              && (forall j :: 0 <= j < k ==> !OccursAt(source, text, j))
                              && (k == 0 || !IsAlpha(source[k - 1]))
  {
    if Contains(source, text) then
      var index := Find(source, text);
      index == 0 || !IsAlpha(source[index - 1])
    else false
  }

  /** A phrase at the very start of the text is always recognised. */
  lemma HasTextAtStart(source: string, text: string)
    requires StartsWith(source, text)
    ensures HasText(source, text)
  {
    assert OccursAt(source, text, 0);
  }

  /** A first occurrence that directly follows a letter is not recognised. */
  lemma HasTextRejectsMidWord(source: string, text: string, k: int)
    requires OccursAt(source, text, k) && 0 < k && IsAlpha(source[k - 1])
    requires forall j :: 0 <= j < k ==> !OccursAt(source, text, j)
    ensures !HasText(source, text)
  {
  }

  /** "reactivate master control mode" does not contain the activation phrase at a word boundary. */
  lemma ReactivateIsNotActivate()
    ensures !HasText("re" + ActivateMasterModeCommand, ActivateMasterModeCommand)
  {
    var t := ActivateMasterModeCommand;
    var s := "re" + t;
    assert s[2..] == t;
    assert OccursAt(s, t, 2);
    assert !OccursAt(s, t, 0) by { assert s[0] != t[0]; }
    assert !OccursAt(s, t, 1) by { assert s[1] != t[0]; }
    HasTextRejectsMidWord(s, t, 2);
  }

  /** The deactivation phrase does not trigger activation, so its own branch is reached. */
  lemma DeactivateIsNotActivate()
    ensures !HasText(DeactivateMasterModeCommand, ActivateMasterModeCommand)
    ensures HasText(DeactivateMasterModeCommand, DeactivateMasterModeCommand)
  {
    var s, t := DeactivateMasterModeCommand, ActivateMasterModeCommand;
    assert s[2..] == t;
    assert OccursAt(s, t, 2);
    assert !OccursAt(s, t, 0) by { assert s[0] != t[0]; }
    assert !OccursAt(s, t, 1) by { assert s[1] != t[0]; }
    HasTextRejectsMidWord(s, t, 2);
    HasTextAtStart(s, s);
  }

  /** Words after the phrase do not hide it. */
  lemma ActivateWithTrailingWords()
    ensures HasText("activate master control mode now", ActivateMasterModeCommand)
  {
    var s := "activate master control mode now";
    assert s[..|ActivateMasterModeCommand|] == ActivateMasterModeCommand;
    HasTextAtStart(s, ActivateMasterModeCommand);
  }

  /**
   * `is_text_prediction_applicable`: a one-word phrase is always accepted;
   * a phrase with a space needs a token-sort ratio strictly above 60.
   */
  function IsTextPredictionApplicable(text: string, predicted: string, tokenSortRatio: Scorer): (r: bool)
    ensures ' ' !in predicted ==> r
    ensures ' ' in predicted ==> (r <==> tokenSortRatio(text, predicted) > 60)
  {
    if ' ' in predicted then tokenSortRatio(text, predicted) > 60 else true
  }

  /** What `launch_if_any` decides to do with a transcript. */
  datatype Action =
    | ToggleStyle(prompt: string)                    // handed to chat_with_mistral, which toggles
    | SearchDefault(term: string)                    // search_for.py with the term
    | SearchWithBinding(execTemplate: string, feedbackTemplate: string, term: string)
    | SearchBindingNotRecord                         // "search for *" bound to a bare string: indexing it raises TypeError
    | OpenApp(app: string)
    | PlaySong(song: string)
    | PlayNothing                                    // "play" with nothing after it: returns without acting
    | PauseMusic
    | NextTrack
    | PreviousTrack
    | Weather
    | RunMatched(phrase: string)                     // the fuzzy-matched binding, dispatched by the manager
    | AskAI(prompt: string)                          // chat_with_mistral fallback

  /** A search with a non-empty term: the "search for *" binding when there is one, else the default script. */
  function SearchAction(term: string, commands: Table): (a: Action)
    ensures "search for *" !in commands.values ==> a == SearchDefault(term)
    ensures "search for *" in commands.values && commands.values["search for *"].Structured? ==>
              a == SearchWithBinding(commands.values["search for *"].exec, commands.values["search for *"].feedback, term)
    ensures "search for *" in commands.values && commands.values["search for *"].Simple? ==> a == SearchBindingNotRecord
  {
    if "search for *" in commands.values then
      match commands.values["search for *"]
      case Structured(exec, feedback, _) => SearchWithBinding(exec, feedback, term)
      case Simple(_) => SearchBindingNotRecord
    else SearchDefault(term)
  }

  /** The fuzzy stage: the best binding if it passes the second check, else the AI. */
  function FuzzyRoute(text: string, choices: seq<string>, wRatio: Scorer, tokenSortRatio: Scorer): (a: Action)
    ensures a.RunMatched? || a == AskAI(text)
    ensures a.RunMatched? ==> a.phrase in choices && IsTextPredictionApplicable(text, a.phrase, tokenSortRatio)
    ensures a.RunMatched? ==> forall c :: c in choices ==> wRatio(text, c) <= wRatio(text, a.phrase)
    ensures a.RunMatched? ==> FirstBest(text, choices, wRatio, a.phrase)
    ensures choices != [] && a == AskAI(text) ==> !IsTextPredictionApplicable(text, ExtractOne(text, choices, wRatio).value.choice, tokenSortRatio)
  {
    match ExtractOne(text, choices, wRatio)
    case Some(m) => if IsTextPredictionApplicable(text, m.choice, tokenSortRatio) then RunMatched(m.choice) else AskAI(text)
    case None => AskAI(text)
  }

  /**
   * On tied scores the fuzzy stage can only run the binding `extractOne`
   * picks, the earliest of the tied ones, never a later one.
   */
  lemma FuzzyRouteRunsExtractOnesChoice(text: string, choices: seq<string>, wRatio: Scorer, tokenSortRatio: Scorer)
    requires FuzzyRoute(text, choices, wRatio, tokenSortRatio).RunMatched?
    ensures FuzzyRoute(text, choices, wRatio, tokenSortRatio).phrase == ExtractOne(text, choices, wRatio).value.choice
  {
    var a := FuzzyRoute(text, choices, wRatio, tokenSortRatio);
    FirstBestUnique(text, choices, wRatio, a.phrase, ExtractOne(text, choices, wRatio).value.choice);
  }

  /** The four phrases `launch_if_any` compares the whole lower-cased text with. */
  const FixedPhrases := ["stop music", "next track", "previous track", "climate conditions"]

  /** A "search for" request with a non-empty term: the only kind of search that ends routing. */
  predicate SearchRequest(text: string)
  {
    StartsWith(Lower(text), "search for") && Strip(text[10..]) != ""
  }

  /** Whether one of the literal checks that precede the fuzzy stage decides the text. */
  predicate LiteralRequest(text: string)
  {
    var low := Lower(text);
    low in ToggleCommands || SearchRequest(text) || StartsWith(low, "open") || StartsWith(low, "play") || low in FixedPhrases
  }

  /**
   * The literal checks do not overlap, so their order only matters for the
   * fuzzy stage: a text that passes one check fails every check before it.
   */
  lemma LiteralChecksExclusive(low: string)
    ensures StartsWith(low, "search for") ==> low !in ToggleCommands
    ensures StartsWith(low, "open") ==> low !in ToggleCommands && !StartsWith(low, "search for")
    ensures StartsWith(low, "play") ==> low !in ToggleCommands && !StartsWith(low, "search for") && !StartsWith(low, "open")
    ensures low in FixedPhrases ==> low !in ToggleCommands && !StartsWith(low, "search for")
                                    && !StartsWith(low, "open") && !StartsWith(low, "play")
  {
    if StartsWith(low, "search for") {
      assert low[..10] == "search for";
      assert low[0] == 's' && low[1] == 'e';
    }
    if StartsWith(low, "open") {
      assert low[..4] == "open";
      assert low[0] == 'o';
    }
    if StartsWith(low, "play") {
      assert low[..4] == "play";
      assert low[0] == 'p' && low[1] == 'l';
    }
  }

  /**
   * `launch_if_any`'s decision, first match wins: toggle, "search for",
   * "open", "play" and the three music phrases, "climate conditions", then
   * the fuzzy stage with the AI as fallback. Remainders are cut from the
   * original text by the prefix's length and stripped.
   */
  function Route(text: string, commands: Table, choices: seq<string>, wRatio: Scorer, tokenSortRatio: Scorer): (a: Action)
    ensures a.ToggleStyle? <==> Lower(text) in ToggleCommands
    ensures a.ToggleStyle? ==> a.prompt == text
    ensures SearchRequest(text) ==> a == SearchAction(Strip(text[10..]), commands)
    ensures StartsWith(Lower(text), "open") ==> a == OpenApp(Strip(text[4..]))
    ensures StartsWith(Lower(text), "play") ==> a == (if Strip(text[4..]) != "" then PlaySong(Strip(text[4..])) else PlayNothing)
    ensures a == PauseMusic <==> Lower(text) == "stop music"
    ensures a == NextTrack <==> Lower(text) == "next track"
    ensures a == PreviousTrack <==> Lower(text) == "previous track"
    ensures a == Weather <==> Lower(text) == "climate conditions"
    ensures !LiteralRequest(text) <==> a.RunMatched? || a.AskAI?
    ensures !LiteralRequest(text) ==> a == FuzzyRoute(text, choices, wRatio, tokenSortRatio)
    ensures a.SearchDefault? ==> StartsWith(Lower(text), "search for") && a.term == Strip(text[10..]) && a.term != ""
                                 && "search for *" !in commands.values
    ensures a.OpenApp? ==> StartsWith(Lower(text), "open") && a.app == Strip(text[4..])
    ensures a.PlaySong? ==> StartsWith(Lower(text), "play") && a.song == Strip(text[4..]) && a.song != ""
    ensures a.RunMatched? ==> a.phrase in choices
    ensures a.AskAI? ==> a.prompt == text
  {
    var low := Lower(text);
    LiteralChecksExclusive(low);
    if low in ToggleCommands then ToggleStyle(text)
    else if SearchRequest(text) then SearchAction(Strip(text[10..]), commands)
    else if StartsWith(low, "open") then OpenApp(Strip(text[4..]))
    else if StartsWith(low, "play") then
      (if Strip(text[4..]) != "" then PlaySong(Strip(text[4..])) else PlayNothing)
    else if low == "stop music" then PauseMusic
    else if low == "next track" then NextTrack
    else if low == "previous track" then PreviousTrack
    else if low == "climate conditions" then Weather
    else FuzzyRoute(text, choices, wRatio, tokenSortRatio)
  }

  /** "search for" with nothing after it does not stop the chain: the text goes on to the fuzzy stage. */
  lemma EmptySearchFallsThrough(text: string, commands: Table, choices: seq<string>, wRatio: Scorer, tokenSortRatio: Scorer)
    requires StartsWith(Lower(text), "search for") && Strip(text[10..]) == ""
    ensures Route(text, commands, choices, wRatio, tokenSortRatio) == FuzzyRoute(text, choices, wRatio, tokenSortRatio)
  {
    LiteralChecksExclusive(Lower(text));
  }

  /** "play" with nothing after it ends the chain without any action. */
  lemma EmptyPlayDoesNothing(text: string, commands: Table, choices: seq<string>, wRatio: Scorer, tokenSortRatio: Scorer)
    requires StartsWith(Lower(text), "play") && Strip(text[4..]) == ""
    ensures Route(text, commands, choices, wRatio, tokenSortRatio) == PlayNothing
  {
    LiteralChecksExclusive(Lower(text));
  }

  /** The code keeps no score floor: when the best binding is one word, the AI is never asked, however low its score. */
  lemma SingleWordBestMatchAlwaysRuns(text: string, commands: Table, choices: seq<string>, wRatio: Scorer, tokenSortRatio: Scorer)
    requires choices != [] && ' ' !in ExtractOne(text, choices, wRatio).value.choice
    ensures FuzzyRoute(text, choices, wRatio, tokenSortRatio) == RunMatched(ExtractOne(text, choices, wRatio).value.choice)
  {
  }

  /** A multi-word best match scoring exactly 60 on the token-sort check is rejected: the test is strict. */
  lemma MultiWordAtSixtyGoesToAI(text: string, choices: seq<string>, wRatio: Scorer, tokenSortRatio: Scorer)
    requires choices != []
    requires ' ' in ExtractOne(text, choices, wRatio).value.choice
    requires tokenSortRatio(text, ExtractOne(text, choices, wRatio).value.choice) == 60
    ensures FuzzyRoute(text, choices, wRatio, tokenSortRatio) == AskAI(text)
  {
  }

  /** "open " followed by a name opens that application (for example "open firefox" opens "firefox"). */
  lemma OpenNamedApp(app: string, commands: Table, choices: seq<string>, wRatio: Scorer, tokenSortRatio: Scorer)
    requires app != [] && !IsSpace(app[0]) && !IsSpace(app[|app| - 1])
    ensures Route("open " + app, commands, choices, wRatio, tokenSortRatio) == OpenApp(app)
  {
    var text := "open " + app;
    forall i | 0 <= i < 4 ensures Lower(text)[i] == "open"[i] {
      assert text[i] == "open"[i];
    }
    assert Lower(text)[..4] == "open";
    assert Lower(text)[0] == 'o';
    assert Lower(text) !in ToggleCommands;
    assert !StartsWith(Lower(text), "search for");
    assert text[4..] == " " + app;
    StripOneLeadingSpace(app);
  }

  /** A search with a non-empty remainder is decided right after the toggle check. */
  lemma RouteSearch(text: string, commands: Table, choices: seq<string>, wRatio: Scorer, tokenSortRatio: Scorer)
    requires StartsWith(Lower(text), "search for") && Strip(text[10..]) != ""
    ensures Route(text, commands, choices, wRatio, tokenSortRatio) == SearchAction(Strip(text[10..]), commands)
  {
    LiteralChecksExclusive(Lower(text));
  }

  /**
   * Without a "search for *" binding, "search for " followed by a term goes
   * to the default search script with that term (for example "search for
   * best pizza near me" searches "best pizza near me").
   */
  lemma SearchForTerm(term: string, commands: Table, choices: seq<string>, wRatio: Scorer, tokenSortRatio: Scorer)
    requires term != [] && !IsSpace(term[0]) && !IsSpace(term[|term| - 1])
    requires "search for *" !in commands.values
    ensures Route("search for " + term, commands, choices, wRatio, tokenSortRatio) == SearchDefault(term)
  {
    var text := "search for " + term;
    forall i | 0 <= i < 10 ensures Lower(text)[i] == "search for"[i] {
      assert text[i] == "search for"[i];
    }
    assert Lower(text)[..10] == "search for";
    assert text[10..] == " " + term;
    StripOneLeadingSpace(term);
    RouteSearch(text, commands, choices, wRatio, tokenSortRatio);
  }

  /** The two master-mode flags: `config['master-mode']` and `self_activated_master_mode`. */
  datatype Flags = Flags(masterMode: bool, selfActivated: bool)

  /** What `check_for_built_in_actions` does: exit the process, report True, or report False. */
  datatype BuiltInOutcome = Exit(code: int) | Handled | NotBuiltIn

  datatype Step = Step(outcome: BuiltInOutcome, flags: Flags, said: seq<Speech>)

  /**
   * The built-in state machine: the quit prefix exits with status 0 (with a
   * notice when master mode was switched on in this session); activation and
   * deactivation change both flags together or nothing at all.
   */
  function BuiltInStep(phrase: string, f: Flags, canEnable: bool): (s: Step)
    ensures s.outcome.Exit? <==> StartsWith(phrase, QuitCommand)
    ensures s.outcome.Exit? ==> s.outcome.code == 0 && s.flags == f
    ensures s.outcome.Exit? ==> (Speak(DeactivatingNotice, Some(true)) in s.said <==> f.selfActivated)
    ensures s.outcome.NotBuiltIn? <==> !StartsWith(phrase, QuitCommand) && !HasText(phrase, ActivateMasterModeCommand)
                                       && !HasText(phrase, DeactivateMasterModeCommand)
    ensures s.outcome.NotBuiltIn? ==> s.flags == f && s.said == []
    ensures s.outcome.Exit? ==> |s.said| == (if f.selfActivated then 3 else 2)
                                && s.said[0] == ExecutionTone && s.said[|s.said| - 1] == ExitingTone
    ensures !StartsWith(phrase, QuitCommand) && HasText(phrase, ActivateMasterModeCommand) ==>
              && s.outcome == Handled
              && s.flags == (if !f.masterMode && canEnable then Flags(true, true) else f)
              && s.said == [Speak(if f.masterMode then AlreadyActivatedNotice
                                  else if !canEnable then NeedsSetupNotice
                                  else ActivatedNotice, Some(true))]
    ensures !StartsWith(phrase, QuitCommand) && !HasText(phrase, ActivateMasterModeCommand)
            && HasText(phrase, DeactivateMasterModeCommand) ==>
              && s.outcome == Handled
              && s.flags == (if f.masterMode then Flags(false, false) else f)
              && s.said == [Speak(if f.masterMode then DeactivatedNotice else AlreadyOffNotice, Some(true))]
    ensures s.outcome.Handled? ==> |s.said| == 1
    ensures s.flags != f ==> s.outcome.Handled?
                             && ((!f.masterMode && canEnable && s.flags == Flags(true, true))
                                 || (f.masterMode && s.flags == Flags(false, false)))
  {
    if StartsWith(phrase, QuitCommand) then
      var notice := if f.selfActivated then [Speak(DeactivatingNotice, Some(true))] else [];
      Step(Exit(0), f, [ExecutionTone] + notice + [ExitingTone])
    else if HasText(phrase, ActivateMasterModeCommand) then
      if f.masterMode then Step(Handled, f, [Speak(AlreadyActivatedNotice, Some(true))])
      else if !canEnable then Step(Handled, f, [Speak(NeedsSetupNotice, Some(true))])
      else Step(Handled, Flags(true, true), [Speak(ActivatedNotice, Some(true))])
    else if HasText(phrase, DeactivateMasterModeCommand) then
      if !f.masterMode then Step(Handled, f, [Speak(AlreadyOffNotice, Some(true))])
      else Step(Handled, Flags(false, false), [Speak(DeactivatedNotice, Some(true))])
    else Step(NotBuiltIn, f, [])
  }

  /** Activation without the master-mode calibration data is refused and master mode stays off. */
  lemma ActivateWithoutSetupRefused(selfActivated: bool)
    ensures BuiltInStep(ActivateMasterModeCommand, Flags(false, selfActivated), false)
            == Step(Handled, Flags(false, selfActivated), [Speak(NeedsSetupNotice, Some(true))])
  {
    assert !StartsWith(ActivateMasterModeCommand, QuitCommand) by { assert ActivateMasterModeCommand[0] != QuitCommand[0]; }
    HasTextAtStart(ActivateMasterModeCommand, ActivateMasterModeCommand);
  }

  /** Saying the deactivation phrase while master mode is on clears both flags. */
  lemma DeactivatePhraseSwitchesOff(selfActivated: bool, canEnable: bool)
    ensures BuiltInStep(DeactivateMasterModeCommand, Flags(true, selfActivated), canEnable)
            == Step(Handled, Flags(false, false), [Speak(DeactivatedNotice, Some(true))])
  {
    assert !StartsWith(DeactivateMasterModeCommand, QuitCommand) by { assert DeactivateMasterModeCommand[0] != QuitCommand[0]; }
    DeactivateIsNotActivate();
  }

  /** What a fuzzy-matched binding that is not a built-in does. */
  datatype Launch =
    | BuiltIn(outcome: BuiltInOutcome, said: seq<Speech>)  // check_for_built_in_actions took it (or exited)
    | EmptyCommand                                         // logged; nothing spoken, nothing launched
    | Execute(feedback: Speech, command: string, spawned: bool)

  /** shlex's default whitespace; a command made only of it splits into no arguments. */
  predicate ShlexBlank(command: string)
  {
    forall i :: 0 <= i < |command| ==> command[i] in " \t\r\n"
  }

  /**
   * Launching a binding: an empty command line is never launched; otherwise
   * the binding's own feedback is spoken when it has one (with its blocking
   * flag), the generic tone when not, and the command is spawned unless it
   * splits into nothing.
   */
  function PlanLaunch(b: Binding): (l: Launch)
    ensures l.EmptyCommand? <==> ExecOf(b) == ""
    ensures l.Execute? ==> l.command == ExecOf(b) && l.command != "" && (l.spawned <==> !ShlexBlank(l.command))
    ensures l.Execute? ==> (l.feedback == ExecutionTone <==> b.Simple? || b.feedback == "")
    ensures l.Execute? && b.Structured? && b.feedback != "" ==> l.feedback == Speak(b.feedback, Some(b.blocking))
    ensures !l.BuiltIn?
  {
    var command := ExecOf(b);
    if command == "" then EmptyCommand
    else
      var feedback := if b.Structured? && b.feedback != "" then Speak(b.feedback, Some(b.blocking)) else ExecutionTone;
      Execute(feedback, command, !ShlexBlank(command))
  }

  /** The results of the collaborators `launch_if_any` consults for the delegated actions. */
  datatype Probes = Probes(
    openAppStatus: int,        // return code of open_app.py
    songFound: bool,           // play_song(song)
    weatherReport: string)     // get_weather(language="en"), which also speaks it

  /** What a delegated action launches and says. */
  datatype Delegation = Delegation(launched: seq<seq<string>>, said: seq<Speech>)

  /**
   * The side of each routed action handled inside `launch_if_any`. The
   * chat fallback, the style toggle and matched bindings are handled
   * elsewhere; a "search for *" template is formatted by str.format, which is
   * not modelled, so only the unformatted templates are reported.
   */
  function Delegate(a: Action, p: Probes): (d: Delegation)
    ensures a.SearchDefault? ==> d.launched == [DefaultSearchArgv + [a.term]]
    ensures a.OpenApp? ==> d.launched == [OpenAppArgv + [a.app]]
    ensures a.SearchDefault? ==> d.said == [Speak("Searching the internet for " + a.term, None)]
    ensures a.SearchWithBinding? ==> d == Delegation([], [Speak(a.feedbackTemplate, None)])
    ensures a.OpenApp? ==> d.said == [Speak(if p.openAppStatus == 0 then "Opened " + a.app else OpenFailedApology, None)]
    ensures a.PlaySong? ==> d == Delegation([], [Speak(if p.songFound then "Playing " + a.song + " on Spotify"
                                                       else "Could not find " + a.song + " on Spotify", None)])
    ensures a.PauseMusic? ==> d == Delegation([], [Speak("Paused Spotify", None)])
    ensures a.NextTrack? ==> d == Delegation([], [Speak("Skipping to next track", None)])
    ensures a.PreviousTrack? ==> d == Delegation([], [Speak("Going back to previous track", None)])
    // `get_weather` speaks its report (or its error message) itself, and the caller speaks what it returns again.
    ensures a.Weather? ==> d == Delegation([], [Speak(p.weatherReport, None), Speak(p.weatherReport, None)])
    ensures a.PlayNothing? || a.ToggleStyle? || a.AskAI? || a.RunMatched? || a.SearchBindingNotRecord? ==> d == Delegation([], [])
  {
    match a
    case SearchDefault(term) =>
      Delegation([DefaultSearchArgv + [term]], [Speak("Searching the internet for " + term, None)])
    case SearchWithBinding(exec, feedback, term) =>
      Delegation([], [Speak(feedback, None)])
    case OpenApp(app) =>
      var said := if p.openAppStatus != 0 then OpenFailedApology else "Opened " + app;
      Delegation([OpenAppArgv + [app]], [Speak(said, None)])
    case PlaySong(song) =>
      var said := if p.songFound then "Playing " + song + " on Spotify" else "Could not find " + song + " on Spotify";
      Delegation([], [Speak(said, None)])
    case PauseMusic => Delegation([], [Speak("Paused Spotify", None)])
    case NextTrack => Delegation([], [Speak("Skipping to next track", None)])
    case PreviousTrack => Delegation([], [Speak("Going back to previous track", None)])
    case Weather => Delegation([], [Speak(p.weatherReport, None), Speak(p.weatherReport, None)])
    case _ => Delegation([], [])
  }

  /**
   * open_app.py exits with status 0 whenever it is given a name, also after
   * it has apologised that no application matched; `launch_if_any` therefore
   * follows that apology with "Opened" and the name.
   */
  lemma OpenedReportedWhateverTheScriptFound(app: string, p: Probes)
    requires p.openAppStatus == OpenAppScript.ExitStatus(OpenAppArgv[1..] + [app])
    ensures Delegate(OpenApp(app), p).said == [Speak("Opened " + app, None)]
  {
  }

  /** The module's globals `commands`, `choices` and `self_activated_master_mode`. */
  class Manager {
    var commands: Table
    var choices: seq<string>
    var selfActivatedMasterMode: bool

    /** config_manager's globals, where `config['master-mode']` lives. */
    const settings: ConfigManager.Store

    /** `choices` always lists the keys of `commands`, in order. */
    ghost predicate Valid()
      reads this
    {
      commands.Valid() && choices == commands.keys
    }

    /** Module import: an empty table, no choices, master mode not self-activated. */
    constructor (settings: ConfigManager.Store)
      ensures Valid() && this.settings == settings
      ensures commands == EmptyTable && choices == [] && !selfActivatedMasterMode
    {
      this.settings := settings;
      commands := EmptyTable;
      choices := [];
      selfActivatedMasterMode := false;
    }

    /** `init`: load the bindings, add the three built-ins, and list the keys as `choices`. */
    method Init(loaded: Table)
      requires loaded.Valid()
      requires settings.config.name.Some?
      modifies this
      ensures Valid()
      ensures commands == InitTable(loaded, settings.config.name.value)
      ensures choices == commands.keys
      ensures selfActivatedMasterMode == old(selfActivatedMasterMode)
    {
      var name := settings.config.name.value;
      commands := loaded;
      commands := commands.Put(QuitPhrase(name), Simple(BuiltInMarker));
      commands := commands.Put(ActivateMasterModeCommand, Simple(BuiltInMarker));
      commands := commands.Put(DeactivateMasterModeCommand, Simple(BuiltInMarker));
      choices := commands.keys;
    }

    /** `check_for_built_in_actions`, acting on the two flags as `BuiltInStep` says. */
    method CheckForBuiltInActions(text: string, canEnableMasterMode: bool) returns (outcome: BuiltInOutcome, said: seq<Speech>)
      requires settings.config.masterMode.Some?
      modifies this`selfActivatedMasterMode, settings`config
      ensures var s := BuiltInStep(text, Flags(old(settings.config.masterMode.value), old(selfActivatedMasterMode)), canEnableMasterMode);
              && outcome == s.outcome && said == s.said
              && selfActivatedMasterMode == s.flags.selfActivated
              && settings.config == old(settings.config).(masterMode := Some(s.flags.masterMode))
    {
      if StartsWith(text, QuitCommand) {
        said := [ExecutionTone];
        if selfActivatedMasterMode {
          said := said + [Speak(DeactivatingNotice, Some(true))];
        }
        said := said + [ExitingTone];
        outcome := Exit(0);
      } else if HasText(text, ActivateMasterModeCommand) {
        outcome := Handled;
        if settings.config.masterMode.value {
          said := [Speak(AlreadyActivatedNotice, Some(true))];
        } else if !canEnableMasterMode {
          said := [Speak(NeedsSetupNotice, Some(true))];
        } else {
          settings.config := settings.config.(masterMode := Some(true));
          selfActivatedMasterMode := true;
          said := [Speak(ActivatedNotice, Some(true))];
        }
      } else if HasText(text, DeactivateMasterModeCommand) {
        outcome := Handled;
        if !settings.config.masterMode.value {
          said := [Speak(AlreadyOffNotice, Some(true))];
        } else {
          settings.config := settings.config.(masterMode := Some(false));
          selfActivatedMasterMode := false;
          said := [Speak(DeactivatedNotice, Some(true))];
        }
      } else {
        outcome := NotBuiltIn;
        said := [];
      }
    }

    /**
     * `launch_if_any`: route the text; a matched binding first goes through
     * the built-in check (which may switch master mode or exit) and is
     * otherwise launched as `PlanLaunch` says. Nothing else changes state.
     */
    method LaunchIfAny(text: string, wRatio: Scorer, tokenSortRatio: Scorer, canEnableMasterMode: bool)
      returns (action: Action, launch: Option<Launch>)
      requires Valid()
      requires settings.config.masterMode.Some?
      modifies this`selfActivatedMasterMode, settings`config
      ensures Valid() && commands == old(commands) && choices == old(choices)
      ensures action == Route(text, commands, choices, wRatio, tokenSortRatio)
      ensures !action.RunMatched? ==> launch.None? && unchanged(this, settings)
      ensures action.RunMatched? ==>
        var s := BuiltInStep(action.phrase, Flags(old(settings.config.masterMode.value), old(selfActivatedMasterMode)), canEnableMasterMode);
        && selfActivatedMasterMode == s.flags.selfActivated
        && settings.config == old(settings.config).(masterMode := Some(s.flags.masterMode))
        && launch == Some(if s.outcome.NotBuiltIn? then PlanLaunch(commands.values[action.phrase]) else BuiltIn(s.outcome, s.said))
    {
      action := Route(text, commands, choices, wRatio, tokenSortRatio);
      launch := None;
      if action.RunMatched? {
        var binding := commands.values[action.phrase];
        var outcome, said := CheckForBuiltInActions(action.phrase, canEnableMasterMode);
        if !outcome.NotBuiltIn? {
          launch := Some(BuiltIn(outcome, said));
        } else {
          launch := Some(PlanLaunch(binding));
        }
      }
    }
  }
}
