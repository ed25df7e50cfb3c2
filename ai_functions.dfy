/**
 * ai_functions.py: the short/detailed response style, its system prompt,
 * fuzzy detection of the style toggle, and how a streamed reply from the
 * chat API is accumulated and spoken. The two JSON files become fields of an
 * `Assistant` (None: the file does not exist), the HTTP request a `Poster`
 * parameter, and JSON decoding of one event a `Decoder` parameter.
 */
module AiFunctions {
  import opened Base
  import opened Strings
  import opened Effects
  import Fuzzy
  import CommandManager

  const ShortStyle := "short"
  const DetailedStyle := "detailed"

  const ShortPrompt := "You are a helpful assistant that responds shortly and concisely, using only a few sentences."
  const DetailedPrompt := "You are a helpful assistant that provides detailed and comprehensive responses."

  /** The phrases `chat_with_mistral` treats as a style toggle. */
  const ToggleStyleCommands := ["toggle response style", "switch response style", "change response style"]

  const ToggleThreshold := 80

  const ApiApology := "Sorry, I encountered an error when trying to get a response."

  /** `get_system_message`: the concise prompt exactly for "short", the detailed one for anything else. */
  function GetSystemMessage(style: string): (r: string)
    ensures r == ShortPrompt <==> style == ShortStyle
    ensures r == DetailedPrompt <==> style != ShortStyle
  {
    if style == ShortStyle then ShortPrompt else DetailedPrompt
  }

  /** The style `toggle_response_style` switches to: "detailed" exactly from "short". */
  function NextStyle(style: string): (r: string)
    ensures r == DetailedStyle <==> style == ShortStyle
    ensures r == ShortStyle <==> style != ShortStyle
  {
    if style == ShortStyle then DetailedStyle else ShortStyle
  }

  /** Toggling twice returns to "short" from "short" and to "detailed" from anything else. */
  lemma ToggleTwice(style: string)
    ensures NextStyle(NextStyle(style)) == if style == ShortStyle then ShortStyle else DetailedStyle
  {
  }

  /** `max_tokens`: 35 in short style, 200 otherwise. */
  function MaxTokens(style: string): (n: nat)
    ensures n == 35 <==> style == ShortStyle
    ensures n == 200 <==> style != ShortStyle
  {
    if style == ShortStyle then 35 else 200
  }

  /** One entry of the conversation history. */
  datatype Message = Message(role: string, content: string)

  /** ai_config.json; `response_style` may be missing from a file written by hand. */
  datatype AiConfig = AiConfig(responseStyle: Option<string>)

  const DefaultAiConfig := AiConfig(Some(ShortStyle))

  /** The history as `load_conversation_history` gives it when the style is known. */
  function HistoryOrDefault(historyFile: Option<seq<Message>>, style: string): (h: seq<Message>)
    ensures historyFile.Some? ==> h == historyFile.value
    ensures historyFile.None? ==> h == [Message("system", GetSystemMessage(style))]
  {
    match historyFile
    case Some(h) => h
    case None => [Message("system", GetSystemMessage(style))]
  }

  /**
   * The history after the system prompt is rewritten for `style`: when the
   * first entry has role "system" only its content changes; otherwise
   * nothing does.
   */
  function WithSystemMessage(history: seq<Message>, style: string): (r: seq<Message>)
    ensures |r| == |history|
    ensures forall i :: 1 <= i < |r| ==> r[i] == history[i]
    ensures |r| > 0 ==> r[0].role == history[0].role
    ensures |r| > 0 && history[0].role == "system" ==> r[0].content == GetSystemMessage(style)
    ensures |r| > 0 && history[0].role != "system" ==> r[0] == history[0]
  {
    if |history| > 0 && history[0].role == "system" then history[0 := history[0].(content := GetSystemMessage(style))]
    else history
  }

  /** What history file a toggle to `style` leaves: it is written only when its first entry is the system prompt. */
  function ToggledHistoryFile(historyFile: Option<seq<Message>>, style: string): Option<seq<Message>>
  {
    var h := HistoryOrDefault(historyFile, style);
    if |h| > 0 && h[0].role == "system" then Some(WithSystemMessage(h, style)) else historyFile
  }

  /** A fresh history toggled to a style starts with that style's prompt. */
  lemma FreshHistoryGetsNewPrompt(style: string)
    ensures ToggledHistoryFile(None, style) == Some([Message("system", GetSystemMessage(style))])
  {
    var h := [Message("system", GetSystemMessage(style))];
    assert WithSystemMessage(h, style) == h;
  }

  /** Some command is, lower-cased, at least `threshold` similar to the lower-cased text. */
  predicate FuzzyMatches(text: string, commands: seq<string>, threshold: int, tokenSortRatio: Fuzzy.Scorer)
  {
    exists i :: 0 <= i < |commands| && tokenSortRatio(Lower(text), Lower(commands[i])) >= threshold
  }

  /** `is_fuzzy_command_match`: stops at the first command scoring at least the threshold. */
  method IsFuzzyCommandMatch(text: string, commands: seq<string>, threshold: int, tokenSortRatio: Fuzzy.Scorer)
    returns (matched: bool)
    ensures matched <==> FuzzyMatches(text, commands, threshold, tokenSortRatio)
  {
    var textLower := Lower(text);
    for i := 0 to |commands|
      invariant forall j :: 0 <= j < i ==> tokenSortRatio(textLower, Lower(commands[j])) < threshold
    {
      var similarity := tokenSortRatio(textLower, Lower(commands[i]));
      if similarity >= threshold {
        return true;
      }
    }
    return false;
  }

  /**
   * Whatever the router sends on as a style toggle passes the fuzzy check
   * here, for any scorer that rates identical strings 100.
   */
  lemma RoutedToggleIsFuzzyToggle(text: string, tokenSortRatio: Fuzzy.Scorer)
    requires forall s :: tokenSortRatio(s, s) == 100
    requires Lower(text) in CommandManager.ToggleCommands
    ensures FuzzyMatches(text, ToggleStyleCommands, ToggleThreshold, tokenSortRatio)
  {
    var i :| 0 <= i < 3 && CommandManager.ToggleCommands[i] == Lower(text);
    LowerOfLowercase(ToggleStyleCommands[i]);
    assert tokenSortRatio(Lower(text), Lower(ToggleStyleCommands[i])) == 100;
  }

  /** Decoding one event: None when it is not JSON, else the delta's content ("" when absent). */
  type Decoder = string -> Option<string>

  /** The text one streamed line adds to the reply. */
  function Delta(line: string, decode: Decoder): (content: string)
    ensures !StartsWith(line, "data: ") ==> content == ""
    ensures line == "data: [DONE]" ==> content == ""
    ensures StartsWith(line, "data: ") && line != "data: [DONE]" ==>
              content == match decode(line[6..]) case None => "" case Some(c) => c
  {
    if !StartsWith(line, "data: ") then ""
    else
      var data := line[6..];
      if data == "[DONE]" then ""
      else match decode(data)
        case None => ""
        case Some(c) => c
  }

  /** The text each streamed line adds, line by line. */
  function Deltas(lines: seq<string>, decode: Decoder): (contents: seq<string>)
    ensures |contents| == |lines|
    ensures forall i :: 0 <= i < |lines| ==> contents[i] == Delta(lines[i], decode)
  {
    seq(|lines|, i requires 0 <= i < |lines| => Delta(lines[i], decode))
  }

  /** The first `n` contents joined in order. */
  function Joined(contents: seq<string>, n: nat): string
    requires n <= |contents|
  {
    if n == 0 then "" else Joined(contents, n - 1) + contents[n - 1]
  }

  /** `full_response`: the deltas of all the lines, in order. */
  function Reply(lines: seq<string>, decode: Decoder): string
  {
    Joined(Deltas(lines, decode), |lines|)
  }

  /** What the first contents add up to is a prefix of what more contents add up to. */
  lemma {:induction false} JoinedGrows(contents: seq<string>, m: nat, n: nat)
    requires m <= n <= |contents|
    ensures StartsWith(Joined(contents, n), Joined(contents, m))
    decreases n
  {
    if m < n {
      JoinedGrows(contents, m, n - 1);
      var shorter := Joined(contents, n - 1);
      assert (shorter + contents[n - 1])[..|shorter|] == shorter;
    }
  }

  lemma {:induction false} JoinedEmpty(contents: seq<string>, n: nat)
    requires n <= |contents|
    requires forall i :: 0 <= i < n ==> contents[i] == ""
    ensures Joined(contents, n) == ""
  {
    if n > 0 {
      JoinedEmpty(contents, n - 1);
    }
  }

  /** Lines that are not data events add nothing to the reply. */
  lemma NonDataLinesIgnored(lines: seq<string>, decode: Decoder)
    requires forall i :: 0 <= i < |lines| ==> !StartsWith(lines[i], "data: ")
    ensures Reply(lines, decode) == ""
  {
    JoinedEmpty(Deltas(lines, decode), |lines|);
  }

  /** Short style speaks after the content at `n - 1` when it is not empty and the stripped text so far ends with ".". */
  predicate EndsSentence(contents: seq<string>, n: nat)
    requires 0 < n <= |contents|
  {
    contents[n - 1] != "" && EndsWith(Strip(Joined(contents, n)), ".")
  }

  /**
   * How many contents had been received when short style spoke its
   * sentence, if it has within the first `n`: the first that ends one.
   */
  function SentenceEnd(contents: seq<string>, n: nat): (r: Option<nat>)
    requires n <= |contents|
    ensures r.Some? ==> 0 < r.value <= n
  {
    if n == 0 then None
    else match SentenceEnd(contents, n - 1)
      case Some(k) => Some(k)
      case None => if EndsSentence(contents, n) then Some(n) else None
  }

  /** The sentence is spoken after a content that ends one. */
  lemma {:induction false} SentenceEndEndsSentence(contents: seq<string>, n: nat)
    requires n <= |contents| && SentenceEnd(contents, n).Some?
    ensures EndsSentence(contents, SentenceEnd(contents, n).value)
  {
    if SentenceEnd(contents, n - 1).Some? {
      SentenceEndEndsSentence(contents, n - 1);
    }
  }

  /** Before the sentence ends, no content ends one. */
  lemma {:induction false} NothingSpokenBefore(contents: seq<string>, n: nat, j: nat)
    requires n <= |contents| && 0 < j <= n
    requires SentenceEnd(contents, n).None? || j < SentenceEnd(contents, n).value
    ensures !EndsSentence(contents, j)
    decreases n
  {
    if j < n {
      NothingSpokenBefore(contents, n - 1, j);
    }
  }

  /** Once a sentence is spoken, later contents never change it: short style speaks at most once. */
  lemma {:induction false} SentenceEndIsFinal(contents: seq<string>, m: nat, n: nat)
    requires m <= n <= |contents| && SentenceEnd(contents, m).Some?
    ensures SentenceEnd(contents, n) == SentenceEnd(contents, m)
    decreases n
  {
    if m < n {
      SentenceEndIsFinal(contents, m, n - 1);
      var k := SentenceEnd(contents, n - 1).value;
      assert SentenceEnd(contents, n) == Some(k);
    }
  }

  /** One more content: the reply grows by it, and the first sentence ends there if it had not ended before and the content ends one. */
  lemma SentenceStep(contents: seq<string>, i: nat)
    requires i < |contents|
    ensures Joined(contents, i + 1) == Joined(contents, i) + contents[i]
    ensures SentenceEnd(contents, i).Some? ==> SentenceEnd(contents, i + 1) == SentenceEnd(contents, i)
    ensures SentenceEnd(contents, i).None? ==>
              if contents[i] != "" && EndsWith(Strip(Joined(contents, i) + contents[i]), ".")
              then SentenceEnd(contents, i + 1) == Some(i + 1)
              else SentenceEnd(contents, i + 1).None?
  {
  }

  /**
   * What is spoken for a streamed reply, given what each line added. Short
   * style: the first sentence, or else the stripped whole reply when that is
   * not empty. Detailed style: the stripped whole reply, once, even when
   * empty.
   */
  function SpokenReply(contents: seq<string>, style: string): (said: seq<Speech>)
    ensures style == ShortStyle ==> |said| <= 1
    ensures style == ShortStyle && SentenceEnd(contents, |contents|).Some? ==>
              said == [Speak(Strip(Joined(contents, SentenceEnd(contents, |contents|).value)), None)]
    ensures style == ShortStyle && SentenceEnd(contents, |contents|).None? ==>
              && (said == [] <==> Strip(Joined(contents, |contents|)) == "")
              && (said != [] ==> said == [Speak(Strip(Joined(contents, |contents|)), None)])
    ensures style != ShortStyle ==> said == [Speak(Strip(Joined(contents, |contents|)), None)]
  {
    var whole := Strip(Joined(contents, |contents|));
    if style != ShortStyle then [Speak(whole, None)]
    else match SentenceEnd(contents, |contents|)
      case Some(k) => [Speak(Strip(Joined(contents, k)), None)]
      case None => if whole != "" then [Speak(whole, None)] else []
  }

  /** The short-style sentence is the stripped text of a prefix of the reply, and ends with ".". */
  lemma ShortSentenceIsReplyPrefix(contents: seq<string>)
    requires SentenceEnd(contents, |contents|).Some?
    ensures var k := SentenceEnd(contents, |contents|).value;
            && StartsWith(Joined(contents, |contents|), Joined(contents, k))
            && EndsWith(Strip(Joined(contents, k)), ".")
            && SpokenReply(contents, ShortStyle) == [Speak(Strip(Joined(contents, k)), None)]
  {
    JoinedGrows(contents, SentenceEnd(contents, |contents|).value, |contents|);
    SentenceEndEndsSentence(contents, |contents|);
  }

  /**
   * The loop over the event stream in `chat_with_mistral`: accumulates the
   * reply and, in short style, the current sentence until a content makes it
   * end with "." and it is spoken.
   */
  method ReadStream(lines: seq<string>, decode: Decoder, style: string)
    returns (full: string, said: seq<Speech>, currentSentence: string, firstSentenceSpoken: bool)
    ensures full == Reply(lines, decode)
    ensures firstSentenceSpoken <==> style == ShortStyle && SentenceEnd(Deltas(lines, decode), |lines|).Some?
    ensures !firstSentenceSpoken ==> said == []
    ensures style == ShortStyle && !firstSentenceSpoken ==> currentSentence == full
    ensures firstSentenceSpoken ==>
              said == [Speak(Strip(Joined(Deltas(lines, decode), SentenceEnd(Deltas(lines, decode), |lines|).value)), None)]
  {
    ghost var contents := Deltas(lines, decode);
    ghost var spokenAt: nat := 0;
    full := "";
    said := [];
    currentSentence := "";
    firstSentenceSpoken := false;
    for i := 0 to |lines|
      invariant full == Joined(contents, i)
      invariant style != ShortStyle ==> said == [] && !firstSentenceSpoken
      invariant style == ShortStyle && !firstSentenceSpoken ==> SentenceEnd(contents, i).None? && currentSentence == full && said == []
      invariant firstSentenceSpoken ==> style == ShortStyle && SentenceEnd(contents, i) == Some(spokenAt)
                                        && said == [Speak(Strip(Joined(contents, spokenAt)), None)]
    {
      var content := Delta(lines[i], decode);
      assert content == contents[i];
      SentenceStep(contents, i);
      if content != "" {
        full := full + content;
        if style == ShortStyle && !firstSentenceSpoken {
          currentSentence := currentSentence + content;
          if EndsWith(Strip(currentSentence), ".") {
            said := said + [Speak(Strip(currentSentence), None)];
            firstSentenceSpoken := true;
            spokenAt := i + 1;
          }
        }
      } else {
        assert full + content == full;
      }
    }
  }

  /**
   * The streamed half of `chat_with_mistral`: after the stream, short style
   * speaks what is left of an unfinished first sentence, detailed style the
   * whole stripped reply.
   */
  method StreamReply(lines: seq<string>, decode: Decoder, style: string) returns (full: string, said: seq<Speech>)
    ensures full == Reply(lines, decode)
    ensures said == SpokenReply(Deltas(lines, decode), style)
  {
    var currentSentence, firstSentenceSpoken;
    full, said, currentSentence, firstSentenceSpoken := ReadStream(lines, decode, style);
    if style == ShortStyle {
      if Strip(currentSentence) != "" && !firstSentenceSpoken {
        said := said + [Speak(Strip(currentSentence), None)];
      }
    } else {
      said := said + [Speak(Strip(full), None)];
    }
  }

  /** The HTTP response: its status, its body text, and the decoded lines of its event stream. */
  datatype ApiResponse = ApiResponse(status: int, body: string, lines: seq<string>)

  /** The request: the messages sent and `max_tokens`. */
  type Poster = (seq<Message>, nat) -> ApiResponse

  /** What `chat_with_mistral` returns: a reply or notice text, or the API's error. */
  datatype ChatReply = Text(text: string) | ApiError(status: int, body: string)

  function SwitchedNotice(style: string): string
  {
    "Response style switched to " + style + " mode."
  }

  /** The two JSON files the assistant keeps. */
  class Assistant {
    var configFile: Option<AiConfig>
    var historyFile: Option<seq<Message>>

    constructor(configFile: Option<AiConfig>, historyFile: Option<seq<Message>>)
      ensures this.configFile == configFile && this.historyFile == historyFile
    {
      this.configFile := configFile;
      this.historyFile := historyFile;
    }

    /** `load_ai_config`: the file, or the default "short" configuration. */
    function LoadAiConfig(): (c: AiConfig)
      reads this
      ensures configFile.None? ==> c.responseStyle == Some(ShortStyle)
      ensures configFile.Some? ==> c == configFile.value
    {
      match configFile
      case Some(c) => c
      case None => DefaultAiConfig
    }

    /**
     * `load_conversation_history`: the file, or a history holding only the
     * system prompt for the configured style; a configuration without
     * `response_style` raises when it is needed.
     */
    function LoadConversationHistory(): (r: Result<seq<Message>, KeyError>)
      reads this
      ensures historyFile.Some? ==> r == Ok(historyFile.value)
      ensures historyFile.None? ==> (r.Err? <==> LoadAiConfig().responseStyle.None?)
      ensures r.Ok? && historyFile.None? ==> r.value == [Message("system", GetSystemMessage(LoadAiConfig().responseStyle.value))]
    {
      match historyFile
      case Some(h) => Ok(h)
      case None =>
        match LoadAiConfig().responseStyle
        case None => Err(KeyError("response_style"))
        case Some(style) => Ok(HistoryOrDefault(None, style))
    }

    /**
     * `toggle_response_style`: saves the next style and, when the history
     * starts with the system prompt, rewrites that prompt for the new style.
     */
    method ToggleResponseStyle() returns (r: Result<string, KeyError>)
      modifies this
      ensures old(LoadAiConfig()).responseStyle.None? ==> r == Err(KeyError("response_style")) && unchanged(this)
      ensures old(LoadAiConfig()).responseStyle.Some? ==>
                var newStyle := NextStyle(old(LoadAiConfig()).responseStyle.value);
                && r == Ok(newStyle)
                && configFile == Some(old(LoadAiConfig()).(responseStyle := Some(newStyle)))
                && historyFile == ToggledHistoryFile(old(historyFile), newStyle)
    {
      var aiConfig := LoadAiConfig();
      if aiConfig.responseStyle.None? {
        return Err(KeyError("response_style"));
      }
      var newStyle := NextStyle(aiConfig.responseStyle.value);
      configFile := Some(aiConfig.(responseStyle := Some(newStyle)));
      var history := LoadConversationHistory();
      assert history == Ok(HistoryOrDefault(old(historyFile), newStyle));
      if |history.value| > 0 && history.value[0].role == "system" {
        historyFile := Some(WithSystemMessage(history.value, newStyle));
      }
      return Ok(newStyle);
    }

    /**
     * `chat_with_mistral`: a prompt fuzzily matching a toggle phrase toggles
     * the style; otherwise the history plus the prompt is posted, and on
     * status 200 the streamed reply is spoken by the style's policy and both
     * messages are saved. Any other status speaks an apology and saves
     * nothing.
     */
    method ChatWithMistral(prompt: string, tokenSortRatio: Fuzzy.Scorer, post: Poster, decode: Decoder)
      returns (r: Result<ChatReply, KeyError>, said: seq<Speech>)
      modifies this
      ensures old(LoadConversationHistory()).Err? ==> r.Err? && said == [] && unchanged(this)
      ensures old(LoadConversationHistory()).Ok? && FuzzyMatches(prompt, ToggleStyleCommands, ToggleThreshold, tokenSortRatio) ==>
                match old(LoadAiConfig()).responseStyle
                case None => r.Err? && said == [] && unchanged(this)
                case Some(style) =>
                  && r == Ok(Text(SwitchedNotice(NextStyle(style))))
                  && said == [Speak(SwitchedNotice(NextStyle(style)), None)]
                  && configFile == Some(old(LoadAiConfig()).(responseStyle := Some(NextStyle(style))))
                  && historyFile == ToggledHistoryFile(old(historyFile), NextStyle(style))
      ensures old(LoadConversationHistory()).Ok? && !FuzzyMatches(prompt, ToggleStyleCommands, ToggleThreshold, tokenSortRatio) ==>
                match old(LoadAiConfig()).responseStyle
                case None => r.Err? && said == [] && unchanged(this)
                case Some(style) =>
                  var sent := old(LoadConversationHistory()).value + [Message("user", prompt)];
                  var response := post(sent, MaxTokens(style));
                  if response.status == 200 then
                    && r == Ok(Text(Reply(response.lines, decode)))
                    && said == SpokenReply(Deltas(response.lines, decode), style)
                    && historyFile == Some(sent + [Message("assistant", Reply(response.lines, decode))])
                    && configFile == old(configFile)
                  else
                    && r == Ok(ApiError(response.status, response.body))
                    && said == [Speak(ApiApology, None)]
                    && unchanged(this)
    {
      said := [];
      var loaded := LoadConversationHistory();
      if loaded.Err? {
        return Err(loaded.error), [];
      }
      var conversationHistory := loaded.value;
      var isToggle := IsFuzzyCommandMatch(prompt, ToggleStyleCommands, ToggleThreshold, tokenSortRatio);
      if isToggle {
        var newStyle := ToggleResponseStyle();
        if newStyle.Err? {
          return Err(newStyle.error), [];
        }
        var responseMsg := SwitchedNotice(newStyle.value);
        return Ok(Text(responseMsg)), [Speak(responseMsg, None)];
      }
      conversationHistory := conversationHistory + [Message("user", prompt)];
      var currentConfig := LoadAiConfig();
      if currentConfig.responseStyle.None? {
        return Err(KeyError("response_style")), [];
      }
      var responseStyle := currentConfig.responseStyle.value;
      var response := post(conversationHistory, MaxTokens(responseStyle));
      if response.status == 200 {
        var fullResponse;
        fullResponse, said := StreamReply(response.lines, decode, responseStyle);
        conversationHistory := conversationHistory + [Message("assistant", fullResponse)];
        historyFile := Some(conversationHistory);
        return Ok(Text(fullResponse)), said;
      } else {
        return Ok(ApiError(response.status, response.body)), [Speak(ApiApology, None)];
      }
    }
  }
}
