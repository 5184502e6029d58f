/** The two wire formats the server speaks: push messages on the real-time channel, and the
    JSON bodies of the HTTP control surface (shared by server.js and src/routes/apiRoutes.js). */
module Protocol {

  import opened Wrappers

  /** A pushed JSON object `{ type, word? }`; serialising it is not modelled, so the
      value itself is the payload every recipient gets. */
  datatype Message = Message(msgType: string, word: Option<string>)

  /** `{ type: 'wordUpdate', word }` */
  function WordUpdate(word: string): Message {
    Message("wordUpdate", Some(word))
  }

  const STATUS_OK: nat := 200
  const STATUS_INTERNAL_ERROR: nat := 500

  /** Response bodies; an absent `Option` is a key the JSON object does not have. */
  datatype Body =
    | LoopReply(success: bool, message: string, initialWord: Option<string>)
    | CurrentWordReply(currentWord: Option<string>, isLoopRunning: bool)
    | StatusReply(isRunning: bool, currentWord: Option<string>, connectedClients: nat)

  datatype HttpReply = HttpReply(status: nat, body: Body)
}
