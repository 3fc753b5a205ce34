/**
 * The body of `start` in both trafficlight clients: poll, stop on "exit",
 * skip an action with no callback, otherwise run the callback, turn a thrown
 * error into the result "error", and post the result only when it is truthy.
 * The HTTP exchanges are a script of replies: what each poll returns and
 * what status the server answers the respond post of that iteration with.
 */
module PollLoop {
  import opened Common

  type Data = map<string, string>

  /** What an awaited callback produced: its value (`None` for `undefined`), or an exception. */
  datatype CallbackOutcome = Returned(value: Option<string>) | Threw

  /** A callback value passes `if (result)`: a non-empty string. */
  predicate Truthy(v: Option<string>) {
    v.Some? && v.value != ""
  }

  /** What one iteration does once its poll succeeded. */
  datatype Step =
    | Exit               // action "exit": the loop stops
    | Skip               // no callback for the action: `continue`
    | Respond(result: string)  // the result is posted to the respond URL
    | Silent             // a falsy result: nothing is posted

  /**
   * The try/catch and `if (result)` after a callback ran: a thrown error is
   * posted as "error", a truthy value is posted as it is, a falsy one is not
   * posted at all.
   */
  function Settle(o: CallbackOutcome): (s: Step)
    ensures s.Respond? || s == Silent
    ensures o == Threw ==> s == Respond("error")
    ensures o.Returned? ==> (s.Respond? <==> Truthy(o.value))
    ensures o.Returned? && s.Respond? ==> s.result == o.value.value
  {
    match o
    case Threw => Respond("error")
    case Returned(v) => if Truthy(v) then Respond(v.value) else Silent
  }

  /**
   * The decision of one iteration for the polled `action`; `outcome` is what
   * calling its callback yields, `None` when `get(action)` is `undefined`.
   * "exit" stops the loop whatever callback is registered for it.
   */
  function Decide(action: string, outcome: Option<CallbackOutcome>): (s: Step)
    ensures s == Exit <==> action == "exit"
    ensures s == Skip <==> action != "exit" && outcome.None?
    ensures action != "exit" && outcome.Some? ==> s == Settle(outcome.value)
  {
    if action == "exit" then Exit
    else match outcome
      case None => Skip
      case Some(o) => Settle(o)
  }

  /** One scripted round trip: the poll's status and content, and the status the respond post gets. */
  datatype PollReply = PollReply(status: int, action: string, data: Data, respondStatus: int)

  /** Why `start` returned: "exit", a failed poll, a failed respond post, or the script ran out. */
  datatype LoopEnd = Exited | PollFailed(status: int) | RespondFailed(status: int) | OutOfReplies

  /** The results posted, in order, and how the loop ended. */
  datatype Transcript = Transcript(posted: seq<string>, end: LoopEnd)

  /**
   * The transcript of `start` over a script of replies. `invoke(action, data)`
   * is `None` when no callback is registered for `action`, otherwise what
   * calling it yields. Only truthy results are posted, never more than one
   * per poll, the loop ends with `Exited` only on an "exit" poll, and a
   * failed poll or respond post carries a status other than 200.
   */
  function Run(polls: seq<PollReply>, invoke: (string, Data) -> Option<CallbackOutcome>): (t: Transcript)
    ensures |t.posted| <= |polls|
    ensures forall i :: 0 <= i < |t.posted| ==> t.posted[i] != ""
    ensures t.end == Exited ==> exists i :: 0 <= i < |polls| && polls[i].action == "exit"
    ensures t.end.PollFailed? || t.end.RespondFailed? ==> t.end.status != 200
    decreases |polls|
  {
    if polls == [] then Transcript([], OutOfReplies)
    else
      var p := polls[0];
      if p.status != 200 then Transcript([], PollFailed(p.status))
      else
        var outcome := if p.action == "exit" then None else invoke(p.action, p.data);
        match Decide(p.action, outcome)
        case Exit => Transcript([], Exited)
        case Skip => Run(polls[1..], invoke)
        case Silent => Run(polls[1..], invoke)
        case Respond(v) =>
          if p.respondStatus != 200 then Transcript([v], RespondFailed(p.respondStatus))
          else
            var rest := Run(polls[1..], invoke);
            assert rest.end == Exited ==> exists i :: 0 <= i < |polls| && polls[i].action == "exit" by {
              if rest.end == Exited {
                var i :| 0 <= i < |polls[1..]| && polls[1..][i].action == "exit";
                assert polls[i + 1].action == "exit";
              }
            }
            Transcript([v] + rest.posted, rest.end)
  }

  /**
   * Replies after the one that ends the loop are never read; when the
   * script runs out first, the loop goes on with the further replies after
   * what it has posted so far.
   */
  lemma {:induction false} RunOverMoreReplies(polls: seq<PollReply>, more: seq<PollReply>, invoke: (string, Data) -> Option<CallbackOutcome>)
    ensures Run(polls + more, invoke) ==
              if Run(polls, invoke).end == OutOfReplies
              then After(Run(polls, invoke).posted, Run(more, invoke))
              else Run(polls, invoke)
  {
    if polls == [] {
      assert polls + more == more;
    } else {
      var p := polls[0];
      assert (polls + more)[0] == p;
      assert (polls + more)[1..] == polls[1..] + more;
      RunOverMoreReplies(polls[1..], more, invoke);
      if p.status == 200 {
        var outcome := if p.action == "exit" then None else invoke(p.action, p.data);
        var d := Decide(p.action, outcome);
        if d.Respond? && p.respondStatus == 200 {
          var rest := Run(polls[1..], invoke);
          if rest.end == OutOfReplies {
            var tail := Run(more, invoke);
            assert [d.result] + (rest.posted + tail.posted) == ([d.result] + rest.posted) + tail.posted;
          }
        }
      }
    }
  }

  /** A transcript preceded by results already posted. */
  function After(posted: seq<string>, t: Transcript): Transcript {
    Transcript(posted + t.posted, t.end)
  }

  /** The `while (!shouldExit)` loop of `start`, run over a script of replies. */
  method Drive(polls: seq<PollReply>, invoke: (string, Data) -> Option<CallbackOutcome>)
    returns (posted: seq<string>, end: LoopEnd)
    ensures Transcript(posted, end) == Run(polls, invoke)
  {
    posted := [];
    var i := 0;
    var shouldExit := false;
    while !shouldExit && i < |polls|
      invariant 0 <= i <= |polls|
      invariant !shouldExit ==> Run(polls, invoke) == After(posted, Run(polls[i..], invoke))
      invariant shouldExit ==> Run(polls, invoke) == Transcript(posted, Exited)
      decreases |polls| - i, !shouldExit
    {
      var p := polls[i];
      assert polls[i..][1..] == polls[i + 1..];
      if p.status != 200 {
        return posted, PollFailed(p.status);
      }
      if p.action == "exit" {
        shouldExit := true;
      } else {
        var outcome := invoke(p.action, p.data);
        if outcome.None? {
          i := i + 1;
          continue;
        }
        var step := Settle(outcome.value);
        if step.Respond? {
          posted := posted + [step.result];
          if p.respondStatus != 200 {
            return posted, RespondFailed(p.respondStatus);
          }
        }
        i := i + 1;
      }
    }
    end := if shouldExit then Exited else OutOfReplies;
  }
}
