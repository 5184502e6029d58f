/** The HTTP handlers of src/routes/apiRoutes.js over one word manager and one connection
    registry. The router has exactly three routes: start-loop, current-word and status;
    it has no stop-loop route. */
module ApiRouting {

  import opened Wrappers
  import opened Constants
  import opened Protocol
  import opened WordLoop
  import opened WebSocketRegistry
  import ErrorHandling

  const LOOP_STARTED: string := "Word loop started"

  /** The reply of `/start-loop` for how `startWordLoop` (and the broadcast after it) came out:
      success carries the initial word, the already-running rejection is a plain failure and any
      other exception is a 500. */
  function StartLoopReply(outcome: Result<string, Exception>): (reply: HttpReply)
    ensures reply.body.LoopReply?
    ensures reply.body.success <==> outcome.Success?
    ensures reply.body.initialWord == if outcome.Success? then Some(outcome.value) else None
    ensures reply.status == STATUS_INTERNAL_ERROR <==> outcome.Failure? && outcome.error.message != ALREADY_RUNNING
    ensures reply.status != STATUS_INTERNAL_ERROR ==> reply.status == STATUS_OK
    ensures reply.body.message ==
      if outcome.Success? then LOOP_STARTED
      else if outcome.error.message == ALREADY_RUNNING then ALREADY_RUNNING
      else ErrorHandling.INTERNAL_SERVER_ERROR
  {
    match outcome
    case Success(initialWord) => HttpReply(STATUS_OK, LoopReply(true, LOOP_STARTED, Some(initialWord)))
    case Failure(error) =>
      if error.message == ALREADY_RUNNING then HttpReply(STATUS_OK, LoopReply(false, ALREADY_RUNNING, None))
      else HttpReply(STATUS_INTERNAL_ERROR, LoopReply(false, ErrorHandling.INTERNAL_SERVER_ERROR, None))
  }

  /** The route's own failure replies agree, in status and message, with what the shared
      error handler produces outside development mode. */
  lemma StartLoopErrorsMatchHandler(error: Exception, nodeEnv: string)
    requires nodeEnv != "development"
    ensures var reply := StartLoopReply(Failure(error));
            var handled := ErrorHandling.HandleApiError<string>(error, nodeEnv);
            reply.status == handled.status && reply.body.message == handled.body.message &&
            reply.body.success == handled.body.success && handled.body.error.None?
  {
  }

  class ApiRoutes {
    const wordManager: WordManager
    const websocketManager: WebSocketManager

    /** Both managers are valid, and the only interval the router ever schedules is the one
        whose callback broadcasts the word. */
    ghost predicate Valid()
      reads this, wordManager, websocketManager
    {
      && wordManager.Valid() && websocketManager.Valid()
      && (wordManager.loopInterval.Some? ==> wordManager.loopInterval.value.notifies)
    }

    constructor (wordManager: WordManager, websocketManager: WebSocketManager)
      ensures this.wordManager == wordManager && this.websocketManager == websocketManager
    {
      this.wordManager := wordManager;
      this.websocketManager := websocketManager;
    }

    /** `POST /start-loop`: starts the loop with a callback that broadcasts each new word,
        broadcasts the initial word, and only then replies. A rejected start broadcasts nothing. */
    method StartLoop(pick: nat, timer: nat, failed: set<Socket>) returns (reply: HttpReply)
      requires Valid() && pick < |wordManager.words|
      modifies wordManager, websocketManager
      ensures Valid()
      ensures var (s, outcome) := Start(wordManager.words, old(wordManager.State()), pick, timer, true);
        && wordManager.State() == s
        && reply == StartLoopReply(outcome)
        && websocketManager.clients == old(websocketManager.clients)
        && websocketManager.wss == old(websocketManager.wss)
        && websocketManager.outbox == old(websocketManager.outbox) +
             if outcome.Success? then Offers(websocketManager.clients, WordUpdate(outcome.value), failed) else []
    {
      var outcome := wordManager.StartWordLoop(pick, timer, true);
      if outcome.Success? {
        websocketManager.Broadcast(WordUpdate(outcome.value), failed);
      }
      reply := StartLoopReply(outcome);
    }

    /** One firing of the interval started by `StartLoop`: the new word is always broadcast
        as a `wordUpdate` through the callback. */
    method IntervalFired(pick: nat, failed: set<Socket>)
      requires Valid() && pick < |wordManager.words| && wordManager.loopInterval.Some?
      modifies wordManager, websocketManager
      ensures Valid()
      ensures var (s, notified) := Tick(wordManager.words, old(wordManager.State()), pick);
        && wordManager.State() == s
        && notified.Some? && notified == wordManager.currentWord
        && websocketManager.clients == old(websocketManager.clients)
        && websocketManager.wss == old(websocketManager.wss)
        && websocketManager.outbox == old(websocketManager.outbox) +
             Offers(websocketManager.clients, WordUpdate(notified.value), failed)
    {
      var notified := wordManager.IntervalFired(pick);
      if notified.Some? {
        websocketManager.Broadcast(WordUpdate(notified.value), failed);
      }
    }

    /** `GET /current-word`: the snapshot of the manager, as it is. */
    function CurrentWord(): (reply: HttpReply)
      reads this, wordManager
      ensures reply.status == STATUS_OK
      ensures reply.body == CurrentWordReply(wordManager.currentWord, wordManager.isLoopRunning)
    {
      var state := wordManager.GetCurrentState();
      HttpReply(STATUS_OK, CurrentWordReply(state.currentWord, state.isLoopRunning))
    }

    /** `GET /status`: the loop state and the number of registered connections. */
    function Status(): (reply: HttpReply)
      reads this, wordManager, websocketManager
      requires websocketManager.Valid()
      ensures reply.status == STATUS_OK
      ensures reply.body.StatusReply?
      ensures reply.body.isRunning == wordManager.isLoopRunning
      ensures reply.body.currentWord == wordManager.currentWord
      ensures reply.body.connectedClients == |websocketManager.Members()|
    {
      var state := wordManager.GetCurrentState();
      HttpReply(STATUS_OK, StatusReply(state.isLoopRunning, state.currentWord, websocketManager.GetConnectedClientsCount()))
    }
  }

  /** Two starts in a row through the router: the second is rejected with the first's state
      kept, and the initial word is broadcast once. */
  method StartTwice(routes: ApiRoutes, p1: nat, p2: nat, t1: nat, t2: nat, failed: set<Socket>)
    returns (first: HttpReply, second: HttpReply)
    requires routes.Valid() && !routes.wordManager.isLoopRunning
    requires p1 < |routes.wordManager.words| && p2 < |routes.wordManager.words|
    modifies routes.wordManager, routes.websocketManager
    ensures first.body.LoopReply? && first.body.success && first.body.initialWord.Some?
    ensures first.body.initialWord == routes.wordManager.currentWord
    ensures second == HttpReply(STATUS_OK, LoopReply(false, ALREADY_RUNNING, None))
    ensures routes.websocketManager.outbox == old(routes.websocketManager.outbox) +
      Offers(routes.websocketManager.clients, WordUpdate(first.body.initialWord.value), failed)
  {
    first := routes.StartLoop(p1, t1, failed);
    second := routes.StartLoop(p2, t2, failed);
  }
}
