/** The word loop of src/utils/wordManager.js: a two-state machine (idle, running) over the
    current word and the interval timer that re-picks it.

    The random index `Math.floor(Math.random() * words.length)` is the parameter `pick`,
    the handle `setInterval` returns is the parameter `timer`, and one firing of the interval
    is an explicit `Tick`, which only a scheduled interval can perform. */
module WordLoop {

  import opened Wrappers
  import opened Constants

  /** A scheduled interval: its handle, its period in milliseconds, and whether the closure
      it runs was given an `onWordChange` callback to notify. */
  datatype Interval = Interval(id: nat, period: nat, notifies: bool)

  /** The fields `currentWord`, `isLoopRunning` and `loopInterval` (null is `None`). */
  datatype ManagerState = ManagerState(
    currentWord: Option<string>,
    isLoopRunning: bool,
    loopInterval: Option<Interval>)

  /** The object `getCurrentState` returns. */
  datatype Snapshot = Snapshot(currentWord: Option<string>, isLoopRunning: bool)

  /** The state of a new manager. */
  const IDLE: ManagerState := ManagerState(None, false, None)

  /** The manager's invariant: an interval is scheduled exactly while the loop runs, a
      running loop has a word, and every word it holds comes from the vocabulary. */
  ghost predicate Inv(words: seq<string>, s: ManagerState) {
    && (s.loopInterval.Some? <==> s.isLoopRunning)
    && (s.isLoopRunning ==> s.currentWord.Some?)
    && (s.currentWord.Some? ==> s.currentWord.value in words)
    && (s.loopInterval.Some? ==> s.loopInterval.value.period == WORD_CHANGE_INTERVAL)
  }

  /** `getRandomWord`: the word at the drawn index. */
  function RandomWord(words: seq<string>, pick: nat): (w: string)
    requires pick < |words|
    ensures w in words
  {
    words[pick]
  }

  /** `startWordLoop(onWordChange)`; `notify` says whether a callback was passed. */
  function Start(words: seq<string>, s: ManagerState, pick: nat, timer: nat, notify: bool)
    : (r: (ManagerState, Result<string, Exception>))
    requires pick < |words|
    ensures r.1.Failure? <==> s.isLoopRunning
    ensures r.1.Failure? ==> r.0 == s && r.1.error.message == ALREADY_RUNNING
    ensures r.1.Success? ==>
      && r.1.value in words
      && r.0.currentWord == Some(r.1.value)
      && r.0.isLoopRunning
      && r.0.loopInterval == Some(Interval(timer, WORD_CHANGE_INTERVAL, notify))
  {
    if s.isLoopRunning then
      (s, Failure(Exception(ALREADY_RUNNING)))
    else
      var w := RandomWord(words, pick);
      (ManagerState(Some(w), true, Some(Interval(timer, WORD_CHANGE_INTERVAL, notify))), Success(w))
  }

  /** One firing of the interval: a fresh word becomes current and, when the loop was started
      with a callback, that same word is what the callback receives (the second component). */
  function Tick(words: seq<string>, s: ManagerState, pick: nat): (r: (ManagerState, Option<string>))
    requires pick < |words|
    requires s.loopInterval.Some?
    ensures r.0.currentWord.Some? && r.0.currentWord.value in words
    ensures r.0.isLoopRunning == s.isLoopRunning && r.0.loopInterval == s.loopInterval
    ensures r.1.Some? <==> s.loopInterval.value.notifies
    ensures r.1.Some? ==> r.0.currentWord == r.1
  {
    var w := RandomWord(words, pick);
    (s.(currentWord := Some(w)), if s.loopInterval.value.notifies then Some(w) else None)
  }

  /** `stopWordLoop`: clears any interval and marks the loop stopped, from either state;
      unlike the single-file server, it keeps the last word. */
  function Stop(s: ManagerState): (t: ManagerState)
    ensures !t.isLoopRunning && t.loopInterval.None?
    ensures t.currentWord == s.currentWord
  {
    var cleared := if s.loopInterval.Some? then s.(loopInterval := None) else s;
    cleared.(isLoopRunning := false)
  }

  /** Stopping twice is stopping once. */
  lemma StopIdempotent(s: ManagerState)
    ensures Stop(Stop(s)) == Stop(s)
  {
  }

  /** After a stop, whatever state the manager was in, a start succeeds again. */
  lemma StartAfterStop(words: seq<string>, s: ManagerState, pick: nat, timer: nat, notify: bool)
    requires pick < |words|
    ensures Start(words, Stop(s), pick, timer, notify).1.Success?
  {
  }

  /** The operations that change a manager, as they arrive over its lifetime. A `TickEvent`
      while no interval is scheduled stands for a timer that cannot fire, and changes nothing. */
  datatype Event =
    | StartEvent(pick: nat, timer: nat, notify: bool)
    | TickEvent(pick: nat)
    | StopEvent

  ghost predicate PicksInRange(words: seq<string>, events: seq<Event>) {
    forall k :: 0 <= k < |events| && !events[k].StopEvent? ==> events[k].pick < |words|
  }

  function Step(words: seq<string>, s: ManagerState, e: Event): ManagerState
    requires !e.StopEvent? ==> e.pick < |words|
  {
    match e
    case StartEvent(pick, timer, notify) => Start(words, s, pick, timer, notify).0
    case TickEvent(pick) => if s.loopInterval.Some? then Tick(words, s, pick).0 else s
    case StopEvent => Stop(s)
  }

  /** Every sequence of operations keeps the invariant. */
  function Run(words: seq<string>, s: ManagerState, events: seq<Event>): (t: ManagerState)
    requires PicksInRange(words, events)
    requires Inv(words, s)
    ensures Inv(words, t)
    decreases |events|
  {
    if events == [] then s
    else
      assert !events[0].StopEvent? ==> events[0].pick < |words|;
      Run(words, Step(words, s, events[0]), events[1..])
  }

  class WordManager {
    const words: seq<string>
    var currentWord: Option<string>
    var isLoopRunning: bool
    var loopInterval: Option<Interval>

    function State(): ManagerState
      reads this
    {
      ManagerState(currentWord, isLoopRunning, loopInterval)
    }

    ghost predicate Valid()
      reads this
    {
      words == WORDS && Inv(words, State())
    }

    /** A new manager is idle: no word, not running, no interval. */
    constructor ()
      ensures Valid() && State() == IDLE
    {
      words := WORDS;
      currentWord := None;
      isLoopRunning := false;
      loopInterval := None;
    }

    method StartWordLoop(pick: nat, timer: nat, notify: bool) returns (r: Result<string, Exception>)
      requires Valid() && pick < |words|
      modifies this
      ensures Valid()
      ensures (State(), r) == Start(words, old(State()), pick, timer, notify)
    {
      if isLoopRunning {
        return Failure(Exception(ALREADY_RUNNING));
      }
      var w := RandomWord(words, pick);
      currentWord := Some(w);
      isLoopRunning := true;
      loopInterval := Some(Interval(timer, WORD_CHANGE_INTERVAL, notify));
      r := Success(w);
    }

    /** The body of the interval; `notified` is the word handed to `onWordChange`, if any. */
    method IntervalFired(pick: nat) returns (notified: Option<string>)
      requires Valid() && pick < |words| && loopInterval.Some?
      modifies this
      ensures Valid()
      ensures (State(), notified) == Tick(words, old(State()), pick)
    {
      currentWord := Some(RandomWord(words, pick));
      notified := if loopInterval.value.notifies then currentWord else None;
    }

    method StopWordLoop()
      requires Valid()
      modifies this
      ensures Valid()
      ensures State() == Stop(old(State()))
    {
      if loopInterval.Some? {
        loopInterval := None;
      }
      isLoopRunning := false;
    }

    /** `getCurrentState` reports exactly the two public fields. */
    function GetCurrentState(): (snap: Snapshot)
      reads this
      ensures snap.currentWord == currentWord && snap.isLoopRunning == isLoopRunning
    {
      Snapshot(currentWord, isLoopRunning)
    }

    method Cleanup()
      requires Valid()
      modifies this
      ensures Valid()
      ensures State() == Stop(old(State()))
    {
      StopWordLoop();
    }
  }
}
