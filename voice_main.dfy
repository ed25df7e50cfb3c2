/**
 * main.py: cutting the microphone stream into utterances, cleaning the
 * transcripts, and the master-mode check at startup. The stream, the clock,
 * `utils.trim` and the transcriber are inputs: each chunk read comes with its
 * decoded samples, the trimmed samples and the seconds elapsed when the
 * chunk's termination checks run.
 */
module VoiceMain {
  import opened Base
  import opened Strings
  import opened Effects
  import ConfigManager
  import BasicModeManager
  import CommandManager
  import Fuzzy

  /** Hot-word polling sends what it has every 1.2 s. */
  const HotWordInterval: real := 1.2

  /** A command is at least 3.0 s of audio. */
  const MinCommandDuration: real := 3.0

  function Abs(x: int): nat
  {
    if x < 0 then -x else x
  }

  /** Length of the run of amplitudes with `abs(a) < threshold` that ends `a`. */
  function QuietRun(a: seq<int>, threshold: int): nat
  {
    if a == [] || Abs(a[|a| - 1]) >= threshold then 0 else QuietRun(a[..|a| - 1], threshold) + 1
  }

  /** The run ending at position `n` is at least `m` long exactly when the last `m` amplitudes before `n` are quiet. */
  lemma {:induction false} QuietRunCharacterised(a: seq<int>, threshold: int, n: nat, m: nat)
    requires n <= |a|
    ensures QuietRun(a[..n], threshold) >= m <==> m <= n && forall k :: n - m <= k < n ==> Abs(a[k]) < threshold
  {
    if m == 0 || n == 0 {
    } else {
      assert a[..n][..n - 1] == a[..n - 1];
      if Abs(a[n - 1]) < threshold {
        QuietRunCharacterised(a, threshold, n - 1, m - 1);
      }
    }
  }

  /**
   * `detect_silence`: count consecutive quiet amplitudes, reset on a loud
   * one, and report as soon as the count reaches `required` (only ever
   * checked right after a quiet amplitude). `required` is
   * `int(silence_duration * rate / chunk)`, computed by the caller.
   */
  method DetectSilence(audio: seq<int>, threshold: int, required: int) returns (found: bool)
    ensures found <==> exists j :: SilenceAt(audio, threshold, required, j)
  {
    var silentChunks := 0;
    for i := 0 to |audio|
      invariant silentChunks == QuietRun(audio[..i], threshold)
      invariant forall j :: 0 <= j < i ==> !SilenceAt(audio, threshold, required, j)
    {
      assert audio[..i + 1][..i] == audio[..i];
      if Abs(audio[i]) < threshold {
        silentChunks := silentChunks + 1;
        if silentChunks >= required {
          assert SilenceAt(audio, threshold, required, i);
          return true;
        }
      } else {
        silentChunks := 0;
      }
    }
    return false;
  }

  /** Silence is reported at amplitude `j`: it is quiet and ends a long enough quiet run. */
  predicate SilenceAt(audio: seq<int>, threshold: int, required: int, j: int)
  {
    0 <= j < |audio| && Abs(audio[j]) < threshold && QuietRun(audio[..j + 1], threshold) >= required
  }

  /** The `len` amplitudes from `i` on are all quiet. */
  predicate QuietWindow(audio: seq<int>, threshold: int, i: int, len: nat)
  {
    0 <= i && i + len <= |audio| && forall k :: i <= k < i + len ==> Abs(audio[k]) < threshold
  }

  /** With a positive `required`, silence reported at `j` means the `required` amplitudes ending at `j` are quiet. */
  lemma SilenceHasQuietWindow(audio: seq<int>, threshold: int, required: nat, j: int)
    requires required > 0 && SilenceAt(audio, threshold, required, j)
    ensures QuietWindow(audio, threshold, j + 1 - required, required)
  {
    QuietRunCharacterised(audio, threshold, j + 1, required);
  }

  /** With a positive `required`, a quiet window of that length is reported at its last amplitude. */
  lemma QuietWindowIsSilence(audio: seq<int>, threshold: int, required: nat, i: int)
    requires required > 0 && QuietWindow(audio, threshold, i, required)
    ensures SilenceAt(audio, threshold, required, i + required - 1)
  {
    QuietRunCharacterised(audio, threshold, i + required, required);
  }

  /** One `stream.read`: the samples, what `trim` keeps of them, and the seconds since recording began. */
  datatype Read = Read(raw: seq<int>, trimmed: seq<int>, elapsed: real)

  /** `max(s)`. */
  function SeqMax(s: seq<int>): (m: int)
    requires |s| > 0
    ensures m in s && forall x :: x in s ==> x <= m
  {
    if |s| == 1 then s[0]
    else
      var rest := SeqMax(s[1..]);
      assert forall x :: x in s ==> x == s[0] || x in s[1..];
      if s[0] > rest then s[0] else rest
  }

  /**
   * The silent-chunk counter after the given chunks: `max(trimmed) < threshold`
   * adds one, anything louder resets it, and an empty trimmed chunk leaves it as it was.
   */
  function SilentCount(chunks: seq<Read>, threshold: int): nat
  {
    if chunks == [] then 0
    else
      var c := SilentCount(chunks[..|chunks| - 1], threshold);
      var r := chunks[|chunks| - 1];
      if |r.trimmed| == 0 then c
      else if SeqMax(r.trimmed) < threshold then c + 1
      else 0
  }

  /**
   * The termination checks after a chunk whose trimmed data is not empty,
   * given the silent-chunk counter: in hot-word mode stop once 1.2 s have
   * passed; in command mode once enough silent chunks have been counted
   * and 3.0 s have passed.
   */
  predicate StopRule(data: Read, count: nat, required: nat, isHotword: bool)
  {
    if isHotword then data.elapsed >= HotWordInterval
    else count >= required && data.elapsed >= MinCommandDuration
  }

  /** Whether the loop stops after read `i`; never after an empty trimmed chunk. */
  predicate StopsAt(chunks: seq<Read>, i: nat, threshold: int, required: nat, isHotword: bool)
    requires i < |chunks|
  {
    |chunks[i].trimmed| > 0 && StopRule(chunks[i], SilentCount(chunks[..i + 1], threshold), required, isHotword)
  }

  /** The first read at or after `from` after which the loop stops. */
  function FirstStopFrom(chunks: seq<Read>, from: nat, threshold: int, required: nat, isHotword: bool): (r: Option<nat>)
    requires from <= |chunks|
    ensures r.Some? ==> from <= r.value < |chunks| && StopsAt(chunks, r.value, threshold, required, isHotword)
    ensures r.Some? ==> forall j :: from <= j < r.value ==> !StopsAt(chunks, j, threshold, required, isHotword)
    ensures r.None? ==> forall j :: from <= j < |chunks| ==> !StopsAt(chunks, j, threshold, required, isHotword)
    decreases |chunks| - from
  {
    if from == |chunks| then None
    else if StopsAt(chunks, from, threshold, required, isHotword) then Some(from)
    else FirstStopFrom(chunks, from + 1, threshold, required, isHotword)
  }

  function FirstStop(chunks: seq<Read>, threshold: int, required: nat, isHotword: bool): Option<nat>
  {
    FirstStopFrom(chunks, 0, threshold, required, isHotword)
  }

  /** The counter after read `i` from the counter before it. */
  lemma SilentCountStep(chunks: seq<Read>, threshold: int, i: nat)
    requires i < |chunks|
    ensures var c := SilentCount(chunks[..i], threshold);
            SilentCount(chunks[..i + 1], threshold)
            == if |chunks[i].trimmed| == 0 then c else if SeqMax(chunks[i].trimmed) < threshold then c + 1 else 0
  {
    assert chunks[..i + 1][..i] == chunks[..i];
  }

  /** A read that stops the loop with none stopping it before is the first stop. */
  lemma FirstStopIs(chunks: seq<Read>, threshold: int, required: nat, isHotword: bool, k: nat)
    requires k < |chunks| && StopsAt(chunks, k, threshold, required, isHotword)
    requires forall j :: 0 <= j < k ==> !StopsAt(chunks, j, threshold, required, isHotword)
    ensures FirstStop(chunks, threshold, required, isHotword) == Some(k)
  {
  }

  /** When no read stops the loop there is no first stop. */
  lemma NoStopIsNone(chunks: seq<Read>, threshold: int, required: nat, isHotword: bool)
    requires forall j :: 0 <= j < |chunks| ==> !StopsAt(chunks, j, threshold, required, isHotword)
    ensures FirstStop(chunks, threshold, required, isHotword).None?
  {
  }

  /**
   * `record_until_silence` over a finite prefix of the stream: every chunk
   * read is appended to `frames`, including those whose trimmed data is
   * empty, and recording stops right after the first read that `StopsAt`
   * accepts. When the prefix runs out first, `stopped` is false.
   */
  method RecordUntilSilence(stream: seq<Read>, threshold: int, required: nat, isHotword: bool)
    returns (frames: seq<seq<int>>, stopped: bool)
    ensures |frames| <= |stream|
    ensures forall k :: 0 <= k < |frames| ==> frames[k] == stream[k].raw
    ensures stopped <==> FirstStop(stream, threshold, required, isHotword).Some?
    ensures stopped ==> |frames| == FirstStop(stream, threshold, required, isHotword).value + 1
    ensures stopped ==> |frames| > 0
    ensures !stopped ==> |frames| == |stream|
  {
    frames := [];
    stopped := false;
    var silentChunks := 0;
    var i := 0;
    while i < |stream|
      invariant 0 <= i <= |stream| && |frames| == i
      invariant forall k :: 0 <= k < i ==> frames[k] == stream[k].raw
      invariant silentChunks == SilentCount(stream[..i], threshold)
      invariant forall j :: 0 <= j < i ==> !StopsAt(stream, j, threshold, required, isHotword)
    {
      var data := stream[i];
      frames := frames + [data.raw];
      SilentCountStep(stream, threshold, i);
      i := i + 1;
      if |data.trimmed| == 0 {
        continue;
      }
      if SeqMax(data.trimmed) < threshold {
        silentChunks := silentChunks + 1;
      } else {
        silentChunks := 0;
      }
      assert silentChunks == SilentCount(stream[..i], threshold);
      assert StopsAt(stream, i - 1, threshold, required, isHotword) <==> StopRule(data, silentChunks, required, isHotword);
      if isHotword && data.elapsed >= HotWordInterval {
        FirstStopIs(stream, threshold, required, isHotword, i - 1);
        stopped := true;
        break;
      }
      if !isHotword && silentChunks >= required && data.elapsed >= MinCommandDuration {
        FirstStopIs(stream, threshold, required, isHotword, i - 1);
        stopped := true;
        break;
      }
      assert !StopRule(data, silentChunks, required, isHotword);
    }
    if !stopped {
      NoStopIsNone(stream, threshold, required, isHotword);
    }
  }

  /** Enough trailing quiet, non-empty chunks push the counter at least that high. */
  lemma {:induction false} QuietTailCounts(chunks: seq<Read>, threshold: int, m: nat)
    requires m <= |chunks|
    requires forall k :: |chunks| - m <= k < |chunks| ==> |chunks[k].trimmed| > 0 && SeqMax(chunks[k].trimmed) < threshold
    ensures SilentCount(chunks, threshold) >= m
  {
    if m > 0 {
      var init := chunks[..|chunks| - 1];
      forall k | |init| - (m - 1) <= k < |init|
        ensures |init[k].trimmed| > 0 && SeqMax(init[k].trimmed) < threshold
      {
        assert init[k] == chunks[k];
      }
      QuietTailCounts(init, threshold, m - 1);
    }
  }

  /**
   * In command mode, `required` consecutive quiet non-empty chunks ending at
   * a read taken after 3.0 s stop the recording there or earlier.
   */
  lemma QuietStretchStopsCommand(stream: seq<Read>, threshold: int, required: nat, j: nat)
    requires j < |stream| && required <= j + 1
    requires forall k :: j + 1 - required <= k <= j ==> |stream[k].trimmed| > 0 && SeqMax(stream[k].trimmed) < threshold
    requires |stream[j].trimmed| > 0 && stream[j].elapsed >= MinCommandDuration
    ensures FirstStop(stream, threshold, required, false).Some?
    ensures FirstStop(stream, threshold, required, false).value <= j
  {
    var prefix := stream[..j + 1];
    forall k | |prefix| - required <= k < |prefix|
      ensures |prefix[k].trimmed| > 0 && SeqMax(prefix[k].trimmed) < threshold
    {
      assert prefix[k] == stream[k];
    }
    QuietTailCounts(prefix, threshold, required);
    assert StopsAt(stream, j, threshold, required, false);
  }

  /**
   * Hot-word mode ignores loudness: two streams whose chunks are empty or
   * not in the same places and whose clocks agree stop at the same read.
   */
  lemma {:induction false} HotWordIgnoresLoudness(s1: seq<Read>, s2: seq<Read>, threshold1: int, threshold2: int,
                                                  required1: nat, required2: nat, from: nat)
    requires |s1| == |s2| && from <= |s1|
    requires forall k :: 0 <= k < |s1| ==> (|s1[k].trimmed| == 0 <==> |s2[k].trimmed| == 0) && s1[k].elapsed == s2[k].elapsed
    ensures FirstStopFrom(s1, from, threshold1, required1, true) == FirstStopFrom(s2, from, threshold2, required2, true)
    decreases |s1| - from
  {
    if from < |s1| {
      HotWordIgnoresLoudness(s1, s2, threshold1, threshold2, required1, required2, from + 1);
    }
  }

  /** The characters the hot-word normaliser keeps: `ch.isalpha() or ch.isdigit() or ch == ' '`. */
  predicate IsWordChar(c: char)
  {
    IsAlpha(c) || IsDigit(c) || c == ' '
  }

  /** The list comprehension of main.py line 179: the word characters of `s`, all of them, in order. */
  function KeepWordChars(s: string): (r: string)
    ensures |r| <= |s|
    ensures forall c :: c in r <==> c in s && IsWordChar(c)
    ensures (forall i :: 0 <= i < |s| ==> IsWordChar(s[i])) ==> r == s
    ensures (forall i :: 0 <= i < |s| ==> !IsUpper(s[i])) ==> forall i :: 0 <= i < |r| ==> !IsUpper(r[i])
  {
    if s == [] then []
    else (if IsWordChar(s[0]) then [s[0]] else []) + KeepWordChars(s[1..])
  }

  /** Filtering a concatenation filters each part: the kept characters stay in their order. */
  lemma {:induction false} KeepWordCharsAppend(s: string, t: string)
    ensures KeepWordChars(s + t) == KeepWordChars(s) + KeepWordChars(t)
    decreases |s|
  {
    if s == [] {
      assert s + t == t;
    } else {
      var head := if IsWordChar(s[0]) then [s[0]] else [];
      assert (s + t)[0] == s[0];
      assert (s + t)[1..] == s[1..] + t;
      KeepWordCharsAppend(s[1..], t);
      assert KeepWordChars(s + t) == head + (KeepWordChars(s[1..]) + KeepWordChars(t));
    }
  }

  lemma StrippedLowerHasNoCapitals(transcript: string)
    ensures forall k :: 0 <= k < |Strip(Lower(transcript))| ==> !IsUpper(Strip(Lower(transcript))[k])
  {
    var low := Lower(transcript);
    assert forall k :: 0 <= k < |low| ==> !IsUpper(low[k]);
    StripIsInnerSlice(low);
    var i, j :| 0 <= i <= j <= |low| && Strip(low) == low[i..j];
    assert forall k :: 0 <= k < j - i ==> low[i..j][k] == low[i + k];
  }

  /**
   * The hot-word transcript as main.py prepares it: lower-cased, stripped,
   * reduced to letters, digits and spaces, lower-cased again. What is left
   * holds only small letters, digits and spaces.
   */
  function NormalizeHotWord(transcript: string): (r: string)
    ensures forall i :: 0 <= i < |r| ==> IsLowerLetter(r[i]) || IsDigit(r[i]) || r[i] == ' '
    ensures forall c :: c in Lower(transcript) && (IsAlpha(c) || IsDigit(c)) ==> c in r
    ensures forall c :: c in r ==> c in Lower(transcript)
  {
    var kept := KeepWordChars(Strip(Lower(transcript)));
    StrippedLowerHasNoCapitals(transcript);
    LowerOfLowercase(kept);
    WordCharsSurviveStrip(Lower(transcript));
    Lower(kept)
  }

  /** Stripping before filtering loses no letter or digit and adds nothing. */
  lemma WordCharsSurviveStrip(low: string)
    ensures forall c :: c in low && (IsAlpha(c) || IsDigit(c)) ==> c in KeepWordChars(Strip(low))
    ensures forall c :: c in KeepWordChars(Strip(low)) ==> c in low
  {
    StripKeepsNonSpace(low);
    forall c | c in low && (IsAlpha(c) || IsDigit(c))
      ensures c in KeepWordChars(Strip(low))
    {
      assert !IsSpace(c);
    }
  }

  /** A transcript already in normal form (small letters, digits and inner spaces) is left as it is. */
  lemma NormalHotWordUnchanged(transcript: string)
    requires forall i :: 0 <= i < |transcript| ==> IsLowerLetter(transcript[i]) || IsDigit(transcript[i]) || transcript[i] == ' '
    requires transcript != [] ==> transcript[0] != ' ' && transcript[|transcript| - 1] != ' '
    ensures NormalizeHotWord(transcript) == transcript
  {
    LowerOfLowercase(transcript);
    StripOfTrimmed(transcript);
    LowerOfLowercase(KeepWordChars(transcript));
  }

  /**
   * A configured hot word holding a capital or a punctuation mark can never
   * be recognised, whatever was said.
   */
  lemma UnnormalisedHotWordNeverMatches(config: ConfigManager.Config, transcript: string)
    requires config.hotWords.Some?
    requires forall w :: w in config.hotWords.value ==> exists i :: 0 <= i < |w| && !(IsLowerLetter(w[i]) || IsDigit(w[i]) || w[i] == ' ')
    ensures BasicModeManager.Compare(config, NormalizeHotWord(transcript)) == Ok(false)
  {
    var text := NormalizeHotWord(transcript);
    forall w | w in config.hotWords.value
      ensures w != text
    {
      var i :| 0 <= i < |w| && !(IsLowerLetter(w[i]) || IsDigit(w[i]) || w[i] == ' ');
    }
  }

  /**
   * `analyze_text`: an empty transcript is dropped; otherwise one trailing
   * space, '.', '!' or '?' is removed before the text is dispatched.
   */
  function AnalyzeText(text: string): (r: Option<string>)
    ensures r.None? <==> text == ""
    ensures r.Some? ==> |text| - 1 <= |r.value| <= |text| && r.value == text[..|r.value|]
    ensures r.Some? ==> (|r.value| < |text| <==> text[|text| - 1] in " .!?")
  {
    if text == "" then None
    else if text[|text| - 1] in " .!?" then Some(text[..|text| - 1])
    else Some(text)
  }

  /** Only one mark is removed: "done.." is dispatched as "done.". */
  lemma OnlyOneMarkRemoved()
    ensures AnalyzeText("done..") == Some("done.")
  {
    assert "done.."[..5] == "done.";
  }

  /**
   * `analyze_text` followed by `launch_if_any` on the cleaned text: the
   * routed action, and for a matched binding the built-in step or the
   * launch it plans, with the mode flags it leaves behind.
   */
  method AnalyzeAndLaunch(manager: CommandManager.Manager, text: string, wRatio: Fuzzy.Scorer,
                          tokenSortRatio: Fuzzy.Scorer, canEnableMasterMode: bool)
    returns (dispatched: Option<CommandManager.Action>, launch: Option<CommandManager.Launch>)
    requires manager.Valid() && manager.settings.config.masterMode.Some?
    modifies manager`selfActivatedMasterMode, manager.settings`config
    ensures manager.Valid() && manager.commands == old(manager.commands) && manager.choices == old(manager.choices)
    ensures text == "" ==> dispatched.None? && launch.None? && unchanged(manager, manager.settings)
    ensures text != "" ==> dispatched == Some(CommandManager.Route(AnalyzeText(text).value, manager.commands,
                                                                   manager.choices, wRatio, tokenSortRatio))
    ensures dispatched.Some? && !dispatched.value.RunMatched? ==> launch.None? && unchanged(manager, manager.settings)
    ensures dispatched.Some? && dispatched.value.RunMatched? ==>
              var phrase := dispatched.value.phrase;
              var s := CommandManager.BuiltInStep(phrase, CommandManager.Flags(old(manager.settings.config.masterMode.value),
                                                                                old(manager.selfActivatedMasterMode)),
                                                  canEnableMasterMode);
              && manager.selfActivatedMasterMode == s.flags.selfActivated
              && manager.settings.config == old(manager.settings.config).(masterMode := Some(s.flags.masterMode))
              && launch == Some(if s.outcome.NotBuiltIn? then CommandManager.PlanLaunch(manager.commands.values[phrase])
                                else CommandManager.BuiltIn(s.outcome, s.said))
  {
    var cleaned := AnalyzeText(text);
    if cleaned.None? {
      return None, None;
    }
    var action;
    action, launch := manager.LaunchIfAny(cleaned.value, wRatio, tokenSortRatio, canEnableMasterMode);
    dispatched := Some(action);
  }

  datatype Startup = Startup(config: ConfigManager.Config, said: seq<Speech>)

  /**
   * The master-mode check at startup: when master mode is configured but
   * training-data/master-mode is absent, it is switched off. Reading the key
   * from a configuration without it raises.
   */
  function StartupMasterMode(config: ConfigManager.Config, trainingDataPresent: bool): (r: Result<Startup, KeyError>)
    ensures config.masterMode.None? <==> r.Err?
    ensures r.Err? ==> r.error == KeyError("master-mode")
    ensures r.Ok? ==> r.value.config == config.(masterMode := Some(config.masterMode.value && trainingDataPresent))
    ensures r.Ok? ==> (r.value.said == [] <==> !config.masterMode.value)
  {
    match config.masterMode
    case None => Err(KeyError("master-mode"))
    case Some(on) =>
      if !on then Ok(Startup(config, []))
      else if trainingDataPresent then Ok(Startup(config, [Speak("Master mode enabled, waiting for command...", Some(true))]))
      else Ok(Startup(config.(masterMode := Some(false)), [Speak("Configure master mode before using it!", Some(true))]))
  }

  /** The startup check applied to config_manager's global. */
  method CheckMasterModeAtStartup(settings: ConfigManager.Store, trainingDataPresent: bool)
    returns (r: Result<seq<Speech>, KeyError>)
    modifies settings`config
    ensures match StartupMasterMode(old(settings.config), trainingDataPresent)
            case Err(e) => r == Err(e) && settings.config == old(settings.config)
            case Ok(s) => r == Ok(s.said) && settings.config == s.config
  {
    match StartupMasterMode(settings.config, trainingDataPresent)
    case Err(e) => r := Err(e);
    case Ok(s) =>
      settings.config := s.config;
      r := Ok(s.said);
  }
}
