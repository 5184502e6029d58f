/** The single-file server of server.js: the same word loop kept in three module globals and
    driven directly by the HTTP handlers, with no real-time channel.

    `clearInterval(loopInterval)` cancels the timer but leaves the stale handle in
    `loopInterval`, so whether a timer is still scheduled is kept apart, in `armed`. */
module SingleFileServer {

  import opened Wrappers
  import opened Constants
  import opened Protocol
  import WordLoop

  /** The file's own copy of the vocabulary. */
  const words: seq<string> := ["cat", "dog", "mouse", "horse", "fox"]

  const LOOP_STARTED: string := "Word loop started"
  const LOOP_STOPPED: string := "Word loop stopped"
  const NOT_RUNNING: string := "Loop is not running"

  /** `currentWord`, `isLoopRunning`, `loopInterval`, and whether that interval is scheduled. */
  datatype Globals = Globals(currentWord: Option<string>, isLoopRunning: bool, loopInterval: Option<nat>, armed: bool)

  const INITIAL: Globals := Globals(None, false, None, false)

  /** A word is held exactly while the loop runs, and so is a scheduled timer. */
  ghost predicate Inv(g: Globals) {
    && (g.currentWord.Some? <==> g.isLoopRunning)
    && (g.armed <==> g.isLoopRunning)
    && (g.isLoopRunning ==> g.loopInterval.Some?)
    && (g.currentWord.Some? ==> g.currentWord.value in words)
  }

  /** `getRandomWord`, over the same vocabulary as the application constants. */
  function GetRandomWord(pick: nat): (w: string)
    requires pick < |words|
    ensures w in words && w in WORDS
  {
    words[pick]
  }

  /** `POST /api/start-loop` */
  function StartLoop(g: Globals, pick: nat, timer: nat): (r: (Globals, HttpReply))
    requires pick < |words|
    ensures g.isLoopRunning ==> r.0 == g && r.1 == HttpReply(STATUS_OK, LoopReply(false, ALREADY_RUNNING, None))
    ensures !g.isLoopRunning ==>
      && r.0.isLoopRunning && r.0.armed && r.0.loopInterval == Some(timer)
      && r.0.currentWord.Some? && r.0.currentWord.value in words
      && r.1 == HttpReply(STATUS_OK, LoopReply(true, LOOP_STARTED, r.0.currentWord))
  {
    if g.isLoopRunning then
      (g, HttpReply(STATUS_OK, LoopReply(false, ALREADY_RUNNING, None)))
    else
      var w := GetRandomWord(pick);
      (Globals(Some(w), true, Some(timer), true), HttpReply(STATUS_OK, LoopReply(true, LOOP_STARTED, Some(w))))
  }

  /** The interval body: only a scheduled timer fires, and it replaces the word. */
  function Tick(g: Globals, pick: nat): (t: Globals)
    requires pick < |words| && g.armed
    ensures t.currentWord.Some? && t.currentWord.value in words
    ensures t.isLoopRunning == g.isLoopRunning && t.loopInterval == g.loopInterval && t.armed == g.armed
  {
    g.(currentWord := Some(GetRandomWord(pick)))
  }

  /** `POST /api/stop-loop`: stopping clears the word; stopping an idle loop is rejected. */
  function StopLoop(g: Globals): (r: (Globals, HttpReply))
    ensures !g.isLoopRunning ==> r.0 == g && r.1 == HttpReply(STATUS_OK, LoopReply(false, NOT_RUNNING, None))
    ensures g.isLoopRunning ==>
      && !r.0.isLoopRunning && !r.0.armed && r.0.currentWord.None?
      && r.0.loopInterval == g.loopInterval
      && r.1 == HttpReply(STATUS_OK, LoopReply(true, LOOP_STOPPED, None))
  {
    if !g.isLoopRunning then
      (g, HttpReply(STATUS_OK, LoopReply(false, NOT_RUNNING, None)))
    else
      (g.(armed := false, isLoopRunning := false, currentWord := None), HttpReply(STATUS_OK, LoopReply(true, LOOP_STOPPED, None)))
  }

  datatype Request =
    | StartRequest(pick: nat, timer: nat)
    | TimerFired(pick: nat)
    | StopRequest

  ghost predicate PicksInRange(requests: seq<Request>) {
    forall k :: 0 <= k < |requests| && !requests[k].StopRequest? ==> requests[k].pick < |words|
  }

  /** One request; a `TimerFired` with no scheduled timer cannot happen and changes nothing. */
  function Step(g: Globals, request: Request): Globals
    requires !request.StopRequest? ==> request.pick < |words|
  {
    match request
    case StartRequest(pick, timer) => StartLoop(g, pick, timer).0
    case TimerFired(pick) => if g.armed then Tick(g, pick) else g
    case StopRequest => StopLoop(g).0
  }

  /** Every sequence of requests keeps the invariant. */
  function Serve(g: Globals, requests: seq<Request>): (t: Globals)
    requires PicksInRange(requests)
    requires Inv(g)
    ensures Inv(t)
    decreases |requests|
  {
    if requests == [] then g
    else
      assert !requests[0].StopRequest? ==> requests[0].pick < |words|;
      Serve(Step(g, requests[0]), requests[1..])
  }

  /** Start followed by stop: the single-file server clears the word and reports success,
      whereas `WordManager` keeps the word it last picked. */
  lemma StopClearsWordUnlikeWordManager(pick: nat, timer: nat)
    requires pick < |words|
    ensures var (g, _) := StartLoop(INITIAL, pick, timer);
            var (h, reply) := StopLoop(g);
            h.currentWord.None? && reply.body.LoopReply? && reply.body.success
    ensures var (s, _) := WordLoop.Start(WORDS, WordLoop.IDLE, pick, timer, true);
            WordLoop.Stop(s).currentWord == Some(WORDS[pick])
  {
  }

  /** The module globals and the handlers that reassign them. */
  class Server {
    var currentWord: Option<string>
    var isLoopRunning: bool
    var loopInterval: Option<nat>
    var armed: bool

    function State(): Globals
      reads this
    {
      Globals(currentWord, isLoopRunning, loopInterval, armed)
    }

    ghost predicate Valid()
      reads this
    {
      Inv(State())
    }

    constructor ()
      ensures Valid() && State() == INITIAL
    {
      currentWord := None;
      isLoopRunning := false;
      loopInterval := None;
      armed := false;
    }

    method HandleStartLoop(pick: nat, timer: nat) returns (reply: HttpReply)
      requires Valid() && pick < |words|
      modifies this
      ensures Valid()
      ensures (State(), reply) == StartLoop(old(State()), pick, timer)
    {
      if isLoopRunning {
        return HttpReply(STATUS_OK, LoopReply(false, ALREADY_RUNNING, None));
      }
      currentWord := Some(GetRandomWord(pick));
      isLoopRunning := true;
      loopInterval := Some(timer);
      armed := true;
      reply := HttpReply(STATUS_OK, LoopReply(true, LOOP_STARTED, currentWord));
    }

    method IntervalFired(pick: nat)
      requires Valid() && pick < |words| && armed
      modifies this
      ensures Valid()
      ensures State() == Tick(old(State()), pick)
    {
      currentWord := Some(GetRandomWord(pick));
    }

    method HandleStopLoop() returns (reply: HttpReply)
      requires Valid()
      modifies this
      ensures Valid()
      ensures (State(), reply) == StopLoop(old(State()))
    {
      if !isLoopRunning {
        return HttpReply(STATUS_OK, LoopReply(false, NOT_RUNNING, None));
      }
      armed := false;
      isLoopRunning := false;
      currentWord := None;
      reply := HttpReply(STATUS_OK, LoopReply(true, LOOP_STOPPED, None));
    }

    /** `GET /api/current-word` reports the globals and changes nothing. */
    method HandleCurrentWord() returns (reply: HttpReply)
      ensures reply == HttpReply(STATUS_OK, CurrentWordReply(currentWord, isLoopRunning))
    {
      reply := HttpReply(STATUS_OK, CurrentWordReply(currentWord, isLoopRunning));
    }
  }
}
