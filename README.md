# Voice assistant core, modelled in Dafny

This project models the decision logic of a Linux voice assistant written in
Python (`robot/voice/`). The assistant records the microphone until the
speaker falls silent and transcribes the audio. It then routes the text:
the response-style toggle, an internet search, opening an application,
Spotify control, the weather, the best fuzzy match among the user's command
bindings, or the Mistral chat API. The built-in master-mode and quit phrases
are bindings of the table, so they are reached only through the fuzzy match. Two helper scripts open and close desktop
applications by spoken name.

One Dafny module per source file:

- `ConfigManager` (config_manager.py): the configuration dictionaries and their validation.
- `BasicModeManager` (basic_mode_manager.py): hot-word comparison.
- `CommandManager` (command_manager.py):
  - the binding table and the word-boundary test;
  - the routing chain of `launch_if_any`;
  - the master-mode state machine of `check_for_built_in_actions`.
- `VoiceMain` (main.py):
  - silence detection and the recording loop;
  - transcript clean-up and hot-word normalisation;
  - the master-mode check at startup.
- `AiFunctions` (ai_functions.py):
  - the response-style toggle and the system prompt;
  - fuzzy detection of the toggle phrase;
  - how a streamed reply is accumulated and spoken.
- `OpenApp` and `CloseApp` (open_app.py, close_app.py):
  - candidate lists and the best match above 70;
  - the lookup tables;
  - the ordered fallback chains over subprocess results.

Shared modules:

- `Base`: Option, Result, KeyError, and ordered string dictionaries.
- `Strings`: the Python `str` operations the code uses.
- `Fuzzy`: `process.extractOne`, with the scorer as a parameter.
- `Effects`: what is spoken, and what a subprocess returns.

Module-level state that the source updates in place is a class:

- `ConfigManager.Store`: `config` and `live_config`.
- `CommandManager.Manager`: `commands`, `choices` and `self_activated_master_mode`.
- `AiFunctions.Assistant`: the AI configuration file and the conversation history file.

Loops are methods proved against specification functions:

- `DetectSilence` and `RecordUntilSilence`;
- `IsFuzzyCommandMatch` and `ReadStream` (the streaming loop; `StreamReply` adds the speech after it);
- `FindApps`.

Collaborators outside the core are parameters:

- the fuzzy scorers;
- `utils.trim` and the clock, given per chunk read;
- `canEnableMasterMode()`;
- `subprocess.run` (a `Runner`) and `subprocess.Popen` (a `Spawner`);
- the HTTP post and JSON decoding of one stream event.

Points of the code's behaviour that the model keeps as written:

- `launch_if_any` applies no score floor to `extractOne`'s best choice. The only check on it is the token-sort re-check of command_manager.py:210-216, which a single-word choice always passes (`CommandManager.SingleWordBestMatchAlwaysRuns`). A threshold of 70 appears only in open_app.py and close_app.py.
- The router detects the style toggle by exact lower-case membership (command_manager.py:80). The fuzzy ≥ 80 test exists only inside `chat_with_mistral` (ai_functions.py:116).
- The required number of silent chunks is `int(...)` of a float, so truncated rather than rounded up. The model takes this count as a natural-number parameter.
- The recording loop compares `max(trimmed)` with the threshold, not the largest absolute value. `detect_silence` does use `abs`.
- `is_text_prediction_applicable` is strict (`> 60`), so a multi-word choice scoring exactly 60 goes to the AI (`CommandManager.MultiWordAtSixtyGoesToAI`).
- Once its import-time setup succeeds, open_app.py exits with status 0 whenever it is given a name, even when it finds nothing and apologises. `launch_if_any` then says "Opened" after the script's apology (`CommandManager.OpenedReportedWhateverTheScriptFound`).

## Model

| member | source | states |
|---|---|---|
| ConfigManager.GetConfigFromFile | robot/voice/config_manager.py:18-22 | a parsed file yields its content; any load failure yields the empty dictionary |
| ConfigManager.ValidateConfig | robot/voice/config_manager.py:26-32 | validation passes iff the name is present and non-empty and record-duration is present and positive; a missing name is reported first, then a missing record-duration |
| ConfigManager.UnreadableConfigFailsOnName | robot/voice/config_manager.py:10-14 | an unreadable config.json leaves an empty dictionary, which fails validation on the missing 'name' key |
| ConfigManager.Store.constructor | robot/voice/config_manager.py:5-6 | both globals start as empty dictionaries |
| ConfigManager.Store.Init | robot/voice/config_manager.py:10-14 | `config` and `live_config` are loaded from their files before validation, and the outcome is the validation of the new `config` |
| BasicModeManager.Compare | robot/voice/basic_mode_manager.py:3-9 | true iff the text is exactly one of the configured hot words; a configuration without 'hot-words' raises KeyError |
| BasicModeManager.ExtraWordsRejected | robot/voice/basic_mode_manager.py:9 | a transcript with extra text around the only hot word is rejected: no partial matching |
| CommandManager.Table.Put | robot/voice/command_manager.py:41-43 | assigning a key overwrites its binding; a new key is appended to the key order and an existing key keeps its place |
| CommandManager.InitTable | robot/voice/command_manager.py:36-45 | the three built-in phrases map to "<built-in>", overwriting loaded bindings; every other loaded binding is kept; no other key appears; the loaded key order is a prefix of the new order |
| CommandManager.Manager.constructor | robot/voice/command_manager.py:19-32 | the table and the choices start empty and the self-activated flag starts false |
| CommandManager.Manager.Init | robot/voice/command_manager.py:36-46 | `commands` becomes the initialised table for the configured name and `choices` its key list |
| CommandManager.HasText | robot/voice/command_manager.py:254-258 | true iff the text occurs and its first occurrence starts the source or follows a non-letter |
| CommandManager.HasTextAtStart | robot/voice/command_manager.py:254-258 | a source that starts with the text contains it |
| CommandManager.HasTextRejectsMidWord | robot/voice/command_manager.py:254-258 | a first occurrence preceded by a letter is rejected |
| CommandManager.ReactivateIsNotActivate | robot/voice/command_manager.py:229 | "reactivate master control mode" does not contain the activation phrase |
| CommandManager.DeactivateIsNotActivate | robot/voice/command_manager.py:229-241 | the deactivation phrase does not trigger activation but does trigger deactivation |
| CommandManager.ActivateWithTrailingWords | robot/voice/command_manager.py:229 | trailing words after the activation phrase still activate |
| CommandManager.IsTextPredictionApplicable | robot/voice/command_manager.py:210-216 | a single-word prediction is always accepted; a multi-word one iff token_sort_ratio is strictly above 60 |
| CommandManager.MultiWordAtSixtyGoesToAI | robot/voice/command_manager.py:215 | a multi-word best match scoring exactly 60 goes to the AI |
| CommandManager.SingleWordBestMatchAlwaysRuns | robot/voice/command_manager.py:171-174 | a single-word best match is dispatched whatever its score |
| CommandManager.SearchAction | robot/voice/command_manager.py:90-110 | without a "search for *" binding the default search runs with the term; a record binding gives its exec template, feedback and the term; a bare-string binding is the TypeError case |
| CommandManager.FuzzyRoute | robot/voice/command_manager.py:171-206 | the result is either the choice `extractOne` picks (highest-scoring, earliest on a tie), accepted by the re-check, or the AI with the original text; the AI is asked only when that choice fails the re-check |
| CommandManager.FuzzyRouteRunsExtractOnesChoice | robot/voice/command_manager.py:171-174 | a dispatched binding is exactly `extractOne`'s choice, so a later choice with a tied score is never run |
| CommandManager.Route | robot/voice/command_manager.py:80-206 | the toggle iff the lower-cased text is a toggle phrase, with the unchanged text; a non-empty "search for" term, "open" and "play" decide their actions, with terms cut from the original-case text at the prefix length and stripped; pause, next, previous and weather iff their exact phrase; text matching no literal check goes to the fuzzy stage and only such text does |
| CommandManager.LiteralChecksExclusive | robot/voice/command_manager.py:80-168 | the literal checks never overlap: a "search for" text is no toggle phrase; an "open" text neither; a "play" text none of those; the four fixed phrases none of the prefixes or toggles |
| CommandManager.EmptySearchFallsThrough | robot/voice/command_manager.py:86-90 | "search for" with an empty remainder does not return: it reaches the fuzzy stage |
| CommandManager.EmptyPlayDoesNothing | robot/voice/command_manager.py:142-149 | "play" with an empty remainder ends routing with no action |
| CommandManager.RouteSearch | robot/voice/command_manager.py:86-111 | a search with a non-empty term is decided right after the toggle check |
| CommandManager.SearchForTerm | robot/voice/command_manager.py:86-110 | "search for " plus a trimmed term, without a custom binding, runs the default search with exactly that term |
| CommandManager.OpenNamedApp | robot/voice/command_manager.py:114-115 | "open " plus a trimmed name opens exactly that name |
| CommandManager.BuiltInStep | robot/voice/command_manager.py:221-250 | the quit prefix exits with 0 between the execution and exiting tones, speaking the deactivation notice iff self-activated; the activation phrase switches both flags on when off and set up, otherwise speaks "already activated" or the setup notice and changes nothing; the deactivation phrase switches both off when on, otherwise speaks "already off"; other text returns False and changes nothing |
| CommandManager.ActivateWithoutSetupRefused | robot/voice/command_manager.py:233-235 | activation without master-mode setup is refused with the setup notice and no flag changes |
| CommandManager.DeactivatePhraseSwitchesOff | robot/voice/command_manager.py:241-249 | deactivation while on clears both flags and says so |
| CommandManager.Manager.CheckForBuiltInActions | robot/voice/command_manager.py:221-250 | the global flags and the spoken log follow the state machine |
| CommandManager.PlanLaunch | robot/voice/command_manager.py:175-202 | an empty exec string is never launched; the exec string is `['exec']` of a record and the value of a plain binding; a record's non-empty feedback is spoken with its blocking flag, otherwise the execution tone |
| CommandManager.Delegate | robot/voice/command_manager.py:86-168 | the default search and open launch their scripts with the term as one argument; the search speaks "Searching the internet for" the term, a record binding its feedback; open speaks "Opened" the app on exit status 0 and the apology otherwise; play, pause, next and previous speak their sentences; the weather report is spoken twice, once by `get_weather` and once by the caller; "play" alone, the toggle, the AI and matched bindings do nothing here |
| CommandManager.OpenedReportedWhateverTheScriptFound | robot/voice/command_manager.py:114-139 | once its import-time setup succeeds, open_app.py exits with 0 for any name, so "Opened" is said even when the script found nothing |
| CommandManager.Manager.LaunchIfAny | robot/voice/command_manager.py:74-206 | the action is the routing decision; the table is untouched; only a fuzzy match may change the master-mode flags, through the built-in check, and otherwise the binding is planned for launch |
| VoiceMain.QuietRunCharacterised | robot/voice/main.py:51-60 | the counter after a prefix is at least m iff the last m amplitudes are quiet |
| VoiceMain.DetectSilence | robot/voice/main.py:41-62 | true iff the running counter of consecutive quiet amplitudes reaches the required count somewhere |
| VoiceMain.SilenceHasQuietWindow | robot/voice/main.py:54-60 | a detection point ends a window of `required` consecutive quiet amplitudes |
| VoiceMain.QuietWindowIsSilence | robot/voice/main.py:54-60 | any window of `required` quiet amplitudes is detected |
| VoiceMain.SeqMax | robot/voice/main.py:87 | `max` is an element and bounds every element |
| VoiceMain.FirstStopFrom | robot/voice/main.py:93-98 | the result is the first read at which a termination check fires, and None when none does |
| VoiceMain.SilentCountStep | robot/voice/main.py:83-90 | an empty trimmed chunk leaves the counter alone; a quiet one increments it; a loud one resets it |
| VoiceMain.FirstStopIs | robot/voice/main.py:77-98 | a read that stops the loop with none before it is the first stop |
| VoiceMain.NoStopIsNone | robot/voice/main.py:77-98 | when no read stops the loop there is no first stop |
| VoiceMain.RecordUntilSilence | robot/voice/main.py:65-100 | every chunk read is appended, including empty ones; the loop stops right after the first read whose checks fire, so the frames are non-empty |
| VoiceMain.QuietTailCounts | robot/voice/main.py:86-90 | m trailing quiet, non-empty chunks give a counter of at least m |
| VoiceMain.QuietStretchStopsCommand | robot/voice/main.py:96-98 | in command mode, `required` quiet chunks ending after 3.0 s stop the recording there or earlier |
| VoiceMain.HotWordIgnoresLoudness | robot/voice/main.py:92-94 | in hot-word mode, loudness and threshold do not matter: only the clock and empty chunks decide the stop |
| VoiceMain.KeepWordChars | robot/voice/main.py:179 | a character appears in the result iff it appears in the input and is a letter, digit or space; all-word input is unchanged; no capital appears when none was there |
| VoiceMain.KeepWordCharsAppend | robot/voice/main.py:179 | the filter works character by character: filtering a concatenation concatenates the filtered parts |
| VoiceMain.StrippedLowerHasNoCapitals | robot/voice/main.py:178 | the lower-cased, stripped transcript has no capitals |
| VoiceMain.NormalizeHotWord | robot/voice/main.py:178-179 | the normalised transcript holds only lower-case letters, digits and spaces; it keeps every letter and digit of the lower-cased transcript and adds no character |
| VoiceMain.WordCharsSurviveStrip | robot/voice/main.py:178-179 | stripping before filtering loses no letter or digit and adds no character |
| VoiceMain.NormalHotWordUnchanged | robot/voice/main.py:178-179 | a transcript already made of small letters, digits and inner spaces is returned unchanged |
| VoiceMain.UnnormalisedHotWordNeverMatches | robot/voice/main.py:178-181 | a configured hot word with a capital or punctuation can never be detected |
| VoiceMain.AnalyzeText | robot/voice/main.py:220-232 | the empty transcript is dropped; otherwise the text is kept, minus one last character exactly when it is in " .!?" |
| VoiceMain.OnlyOneMarkRemoved | robot/voice/main.py:229-230 | "done.." is dispatched as "done." |
| VoiceMain.AnalyzeAndLaunch | robot/voice/main.py:220-232 | an empty transcript changes nothing; otherwise the cleaned text is routed; an unmatched action leaves the flags alone; a matched binding runs the built-in step on the flags, then returns its outcome or plans the launch |
| VoiceMain.StartupMasterMode | robot/voice/main.py:153-161 | configured master mode without training data is switched off; nothing is spoken iff master mode is off; a missing key raises |
| VoiceMain.CheckMasterModeAtStartup | robot/voice/main.py:153-161 | the global config is updated as the startup check says |
| AiFunctions.GetSystemMessage | robot/voice/ai_functions.py:38-42 | the concise prompt iff the style is "short", the detailed prompt otherwise |
| AiFunctions.NextStyle | robot/voice/ai_functions.py:63 | "short" becomes "detailed" and anything else "short" |
| AiFunctions.ToggleTwice | robot/voice/ai_functions.py:60-64 | two toggles return "short" to "short" and make any other style "detailed" |
| AiFunctions.MaxTokens | robot/voice/ai_functions.py:138 | 35 iff short, 200 otherwise |
| AiFunctions.HistoryOrDefault | robot/voice/ai_functions.py:45-52 | an existing history file is returned; otherwise a single system message for the style |
| AiFunctions.WithSystemMessage | robot/voice/ai_functions.py:68-71 | only the content of a leading system message changes, to the new style's prompt; every other entry is unchanged |
| AiFunctions.FreshHistoryGetsNewPrompt | robot/voice/ai_functions.py:68-71 | toggling without a history file saves a history holding just the new prompt |
| AiFunctions.IsFuzzyCommandMatch | robot/voice/ai_functions.py:76-97 | true iff some command's lower-cased token_sort_ratio reaches the threshold (inclusive); an empty list gives false |
| AiFunctions.RoutedToggleIsFuzzyToggle | robot/voice/ai_functions.py:113-116 | a toggle phrase routed by exact membership is also detected by the fuzzy test |
| AiFunctions.Delta | robot/voice/ai_functions.py:170-178 | lines without "data: ", the "[DONE]" marker and undecodable events contribute nothing; other events contribute their decoded content |
| AiFunctions.Deltas | robot/voice/ai_functions.py:167-178 | one content per streamed line, in order |
| AiFunctions.JoinedGrows | robot/voice/ai_functions.py:185 | the reply so far is a prefix of the reply later |
| AiFunctions.JoinedEmpty | robot/voice/ai_functions.py:180-185 | empty contents add nothing |
| AiFunctions.NonDataLinesIgnored | robot/voice/ai_functions.py:170 | a stream without data lines gives an empty reply |
| AiFunctions.SentenceEnd | robot/voice/ai_functions.py:190-196 | the first-sentence position lies within the contents seen so far |
| AiFunctions.SentenceEndEndsSentence | robot/voice/ai_functions.py:194 | at that position a non-empty delta made the stripped text end with "." |
| AiFunctions.NothingSpokenBefore | robot/voice/ai_functions.py:190-196 | no earlier position ends a sentence |
| AiFunctions.SentenceEndIsFinal | robot/voice/ai_functions.py:190-196 | once found, the first sentence never changes as more contents arrive |
| AiFunctions.SentenceStep | robot/voice/ai_functions.py:180-196 | one more delta extends the reply by that delta; a sentence already found stays; otherwise the new delta ends the first sentence iff it is non-empty and the stripped reply then ends with "." |
| AiFunctions.SpokenReply | robot/voice/ai_functions.py:188-209 | short style speaks the stripped first sentence when one ends; otherwise it speaks the whole stripped reply, and nothing iff that is empty; detailed style speaks the whole stripped reply once |
| AiFunctions.ShortSentenceIsReplyPrefix | robot/voice/ai_functions.py:188-196 | the spoken first sentence is a prefix of the reply, ends with ".", and is what short style speaks |
| AiFunctions.ReadStream | robot/voice/ai_functions.py:158-199 | the accumulation loop yields the concatenated deltas; the first sentence is spoken iff the style is short and one ends, and it is the stripped reply up to its end; otherwise nothing is spoken during the loop, and in short style the current sentence is the whole reply |
| AiFunctions.StreamReply | robot/voice/ai_functions.py:158-209 | the reply is the concatenated deltas and what is spoken is what the speak policy prescribes for them |
| AiFunctions.Assistant.constructor | robot/voice/ai_functions.py:17-18 | the two files start as given |
| AiFunctions.Assistant.LoadAiConfig | robot/voice/ai_functions.py:26-30 | the file's content, or the default "short" style when it does not exist |
| AiFunctions.Assistant.LoadConversationHistory | robot/voice/ai_functions.py:45-52 | the file's content, or a fresh system prompt for the configured style; a config without "response_style" raises KeyError |
| AiFunctions.Assistant.ToggleResponseStyle | robot/voice/ai_functions.py:60-73 | the saved style flips and the saved history gets the new prompt; a missing key raises and changes nothing |
| AiFunctions.Assistant.ChatWithMistral | robot/voice/ai_functions.py:102-220 | a fuzzy toggle phrase toggles and announces the new style; otherwise status 200 returns the streamed reply, speaks per style and saves history plus the user and assistant messages; any other status speaks the apology and saves nothing |
| Fuzzy.ExtractOne | robot/voice/command_manager.py:171 | None only for no choices; otherwise a highest-scoring choice, the earliest on a tie |
| Fuzzy.FirstBestUnique | robot/voice/command_manager.py:171 | ties are broken by position, so at most one choice scores highest with every earlier choice scoring lower |
| Fuzzy.ExtractAbove | robot/voice/open_app.py:67-68 | a result exists iff some choice scores strictly above the floor, and it is the highest-scoring choice listed first |
| Base.Get | robot/voice/close_app.py:72 | None iff the key is absent; otherwise a value stored under the key |
| Base.GetFindsFirst | robot/voice/close_app.py:72 | the value found is that of the first entry carrying the key |
| Strings.StripIsInnerSlice | robot/voice/command_manager.py:87 | `strip()` keeps a slice of the text whose ends are not whitespace, cutting only whitespace |
| Strings.StripKeepsNonSpace | robot/voice/main.py:178 | stripping drops only whitespace: every other character survives and none is added |
| Strings.StripIdempotent | robot/voice/close_app.py:54 | stripping twice equals stripping once |
| Strings.Find | robot/voice/command_manager.py:256 | -1 iff the text does not occur; otherwise the first occurrence |
| Strings.SplitLines | robot/voice/close_app.py:53 | no line holds a line break; empty output gives no lines |
| Strings.SplitLinesJoin | robot/voice/close_app.py:53 | joining the lines with a line break gives back the text, less one final line break |
| OpenApp.FindApps | robot/voice/open_app.py:46-59 | the concatenated output lines of the `find` runs that exited with 0, in directory order |
| OpenApp.FoundComesFromSuccessfulSearch | robot/voice/open_app.py:51-56 | every found path was printed by a successful `find` |
| OpenApp.SuccessfulSearchIsFound | robot/voice/open_app.py:51-56 | every line of a successful `find` is found |
| OpenApp.Basename | robot/voice/open_app.py:66 | the text after the last '/': it holds no '/', ends the path, and is preceded by '/' when shorter than the path |
| OpenApp.Candidates | robot/voice/open_app.py:66 | the predefined names in order, then the base name of every found path |
| OpenApp.FindBestMatch | robot/voice/open_app.py:61-68 | a match exists iff some candidate scores above 70; it is the best-scoring candidate listed first, a predefined name or the base name of a found path |
| OpenApp.Said | robot/voice/open_app.py:103-107 | nothing is said on success and one apology otherwise |
| OpenApp.Start | robot/voice/open_app.py:80 | a failed `Popen` is reported as an error |
| OpenApp.ExitStatus | robot/voice/open_app.py:110-112 | the script exits with 1 iff it has fewer than two arguments, and with 0 otherwise |
| OpenApp.OpenApp | robot/voice/open_app.py:70-107 | a predefined name starts its command without probing; other names run which, snap list and flatpak list in order; every probe before the last exited without knowing the name; something is started iff the last probe knows it, and then the path `which` printed or `snap run`/`flatpak run` with the name; the generic apology iff Popen or a probe raised; "not found" iff all three ran and none knows it |
| OpenApp.NotFoundMeansEveryProbeFailed | robot/voice/open_app.py:91-104 | "not found" means which failed and neither list mentions the name |
| OpenApp.WhichWins | robot/voice/open_app.py:84-90 | a name `which` resolves starts from the stripped path without consulting snap or flatpak |
| OpenApp.PredefinedIgnoresProbes | robot/voice/open_app.py:76-80 | opening a predefined name does not depend on any probe |
| OpenApp.CodeAliases | robot/voice/open_app.py:35-37 | "code", "vscode" and "visual studio code" all start `code` |
| OpenApp.RunScript | robot/voice/open_app.py:109-125 | the exit status is 1 for fewer than two arguments and 0 otherwise; the best match is opened, or the not-found apology is spoken |
| CloseApp.StrippedNonBlank | robot/voice/close_app.py:54 | every kept name is non-empty and already stripped |
| CloseApp.StrippedNonBlankKeeps | robot/voice/close_app.py:54 | a name is kept iff it is the stripped form of some non-blank line |
| CloseApp.FindRunningApps | robot/voice/close_app.py:45-57 | on exit 0 the stripped non-blank lines of `ps`; otherwise, or on an exception, none |
| CloseApp.FindBestMatch | robot/voice/close_app.py:59-66 | a match exists iff some predefined name or running process scores above 70, and it is the best-scoring one listed first, predefined names before processes |
| CloseApp.GetProcessName | robot/voice/close_app.py:68-72 | the lower-cased name's table entry, or the name unchanged in its original case |
| CloseApp.ChromeProcess | robot/voice/close_app.py:38 | "chrome" is closed through the process `chrome` |
| CloseApp.GoogleChromeProcess | robot/voice/close_app.py:39 | "google chrome" is closed through the process `chrome` |
| CloseApp.LibreOfficeProcess | robot/voice/close_app.py:41 | "libreoffice" is closed through the process `soffice.bin` |
| CloseApp.CloseWith | robot/voice/close_app.py:78-109 | wmctrl with the name, then pkill -f and killall with the process name, run in that order; each step before the last exited non-zero; closed iff the last succeeded; the error apology iff it raised; "couldn't close" only after all three |
| CloseApp.ClosedIffSomeStepSucceeded | robot/voice/close_app.py:83-103 | closing is reported iff some step exits with 0 and no step before it raised |
| CloseApp.KeysNonEmpty | robot/voice/close_app.py:28-43 | no predefined name is empty |
| CloseApp.MatchNeverEmpty | robot/voice/close_app.py:120-122 | a match is never the empty string, so the `if matched_app` test only tells match from no match |
| CloseApp.RunScript | robot/voice/close_app.py:111-127 | fewer than two arguments exit with 1; otherwise exactly one sentence is spoken: the closing outcome for the best match, or the no-match apology |

## Left out

- Audio I/O: PyAudio, WAV files, Whisper and torch transcription, the click entry point and the endless outer loops of `main` are not modelled. Each recording is a finite sequence of chunk reads, and each transcript is an input.
- VoiceMain.RecordUntilSilence: models a finite prefix of the stream. When no termination check fires within it, `stopped` is false; the source would read on.
- The wall clock, `utils.trim`, `master_mode_manager.canEnableMasterMode()` and the thefuzz scorers are inputs. `WRatio` and `token_sort_ratio` are any functions into 0..100.
- The required silent-chunk count `int(silence_duration * rate / chunk)` is a float computation. It is a natural-number parameter here.
- Strings: `lower`, `isalpha` and `isdigit` are restricted to ASCII, and `splitlines` splits only at '\n'.
- CommandManager.PlanLaunch: a record binding always carries `exec`, `feedback` and `blocking`. A record missing `exec` or `feedback`, or one with non-empty feedback but no `blocking`, raises an uncaught KeyError (command_manager.py:176, 187-188) that ends the assistant; that record cannot be expressed.
- CommandManager.PlanLaunch: `shlex.split` quoting is not modelled. A command counts as splitting into nothing only when it is all whitespace. A ValueError from unbalanced quotes, which the source catches and logs, is not distinguished.
- CommandManager.Delegate: a "search for *" template is filled by `str.format` and split with `split(maxsplit=2)`; neither is modelled, so the launch is not reported. Only its unformatted feedback is.
- Logging, `print`, `notify` and `show_commands` have no effect on the model.
- spotify_control.py, weather.py, search_for.py and clean_history.py are not part of this model. Their results (song found, weather text) are probe values. `get_weather` speaks the text it returns (weather.py:48, 53), so that speech is part of the weather action's record.
- AiFunctions: the HTTP request, headers, temperature and model name are not modelled, and neither is JSON persistence. The files are fields holding their parsed content.
- AiFunctions.Assistant.LoadConversationHistory: a history file whose entries lack "role" or "content" is not modelled.
- AiFunctions.Delta: the KeyError or IndexError a malformed JSON event would raise in the delta extraction is not modelled; the decoder returns the content or None.
- ConfigManager.ValidateConfig: the second, identical record-duration check can never fire and is not repeated.
- ConfigManager: a non-string name or a non-number duration, which would raise TypeError in Python, cannot be expressed.
- OpenApp and CloseApp: `config_manager.init()` and the Whisper model load at import time are not modelled. They do not change which application is chosen, but when either fails the script ends with status 1 before doing anything, and `launch_if_any` then speaks the open apology. `OpenApp.ExitStatus` describes a script whose setup succeeded.
- CloseApp.CloseApp: carries no contract of its own. It passes the looked-up process name to `CloseApp.CloseWith`, which states the chain.
- Processes started by `Popen` run independently. Whether `pkill -f` also matches the script's own command line is an operating-system matter and is not modelled.
