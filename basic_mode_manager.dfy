/** basic_mode_manager.py: recognising a hot word in a transcript. */
module BasicModeManager {
  import opened Base
  import opened ConfigManager

  /**
   * `compare(text)`: `text in config['hot-words']`, an exact membership test
   * on the configured list. A configuration without the key raises.
   * Being a function of the configuration, it cannot change it.
   */
  function Compare(config: Config, text: string): (r: Result<bool, KeyError>)
    ensures config.hotWords.None? ==> r == Err(KeyError("hot-words"))
    ensures config.hotWords.Some? ==> r.Ok? && (r.value <==> exists i :: 0 <= i < |config.hotWords.value| && config.hotWords.value[i] == text)
  {
    match config.hotWords
    case None => Err(KeyError("hot-words"))
    case Some(words) => Ok(text in words)
  }

  /** No partial matching: a hot word with anything said before or after it is not a hot word. */
  lemma ExtraWordsRejected(config: Config, word: string, before: string, after: string)
    requires config.hotWords == Some([word])
    requires before + after != []
    ensures Compare(config, before + word + after) == Ok(false)
  {
    assert |before + word + after| > |word|;
  }
}
