/** The application constants of src/config/constants.js. */
module Constants {

  import opened Seqs

  const PORT: nat := 3000

  /** The fixed vocabulary the word loop picks from. */
  const WORDS: seq<string> := ["cat", "dog", "mouse", "horse", "fox"]

  /** Milliseconds between two ticks of the word loop. */
  const WORD_CHANGE_INTERVAL: nat := 5000

  /** Close code and reason sent to every client at shutdown. */
  const WEBSOCKET_CLOSE_CODE: nat := 1000
  const WEBSOCKET_CLOSE_REASON: string := "Server shutting down"

  /** The message of the only error that starting the loop throws. src/config/constants.js
      has no such constant: the string is a literal in src/utils/wordManager.js,
      src/routes/apiRoutes.js and src/utils/errorHandler.js, and the model keeps the one
      copy here so that all three compare against the same text. */
  const ALREADY_RUNNING: string := "Loop is already running"

  /** The vocabulary is well formed: five distinct, non-empty words. */
  lemma WordsWellFormed()
    ensures |WORDS| == 5
    ensures Distinct(WORDS)
    ensures forall w :: w in WORDS ==> |w| > 0
  {
  }
}
