/**
 * The earlier trafficlight client (`trafficlight/TrafficLightClient.ts`):
 * the client is itself the action map, callbacks receive the action name as
 * well as the data, and the poll and respond URLs hang directly off the
 * server URL, with no uuid.
 */
module LegacyTrafficLight {
  import opened Common
  import opened Registry
  import opened PollLoop

  /** A callback of this client: `(action, data) => Promise<string>`. */
  type ActionCallback = (string, Data) -> CallbackOutcome

  /** `pollUrl`: the server URL and "/poll", with no client identity. */
  function PollUrl(server: string): (u: string)
    ensures |u| == |server| + 5 && u[..|server|] == server && u[|server|..] == "/poll"
  {
    server + "/poll"
  }

  /** `respondUrl`: the server URL and "/respond", with no client identity. */
  function RespondUrl(server: string): (u: string)
    ensures |u| == |server| + 8 && u[..|server|] == server && u[|server|..] == "/respond"
  {
    server + "/respond"
  }

  /**
   * Both URLs extend the server URL by one fixed segment, hold no client
   * identity, and differ from each other.
   */
  lemma {:induction false} ServerUrls(server: string)
    ensures PollUrl(server)[..|server|] == server && PollUrl(server)[|server|..] == "/poll"
    ensures RespondUrl(server)[..|server|] == server && RespondUrl(server)[|server|..] == "/respond"
    ensures PollUrl(server) != RespondUrl(server)
  {
    assert PollUrl(server)[|server| + 1] == 'p';
    assert RespondUrl(server)[|server| + 1] == 'r';
  }

  /** How `start` invokes the callbacks: `callback(action, data)`. */
  function Invoker(actions: map<string, ActionCallback>): (string, Data) -> Option<CallbackOutcome> {
    (action, data) => if action in actions then Some(actions[action](action, data)) else None
  }

  class Client {
    const server: string
    var actions: map<string, ActionCallback>

    constructor (server: string)
      ensures this.server == server && actions == map[]
    {
      this.server := server;
      actions := map[];
    }

    /** `on(action, cb)`, inherited from the action map. */
    method On(action: string, cb: ActionCallback) returns (r: Outcome<RegistryError>)
      modifies this`actions
      ensures Register(old(actions), action, cb).Ok? ==> r == Pass && actions == Register(old(actions), action, cb).value
      ensures Register(old(actions), action, cb).Err? ==> r == Fail(AlreadySpecified(action)) && actions == old(actions)
    {
      if action in actions {
        return Fail(AlreadySpecified(action));
      }
      actions := actions[action := cb];
      r := Pass;
    }

    /** `off(action)`, inherited from the action map. */
    method Off(action: string) returns (r: Outcome<RegistryError>)
      modifies this`actions
      ensures Unregister(old(actions), action).Ok? ==> r == Pass && actions == Unregister(old(actions), action).value
      ensures Unregister(old(actions), action).Err? ==> r == Fail(NotSpecified(action)) && actions == old(actions)
    {
      if action !in actions {
        return Fail(NotSpecified(action));
      }
      actions := actions - {action};
      r := Pass;
    }

    /** `get(action)`: the registered callback, or `undefined` for a name without one. */
    function Get(action: string): (r: Option<ActionCallback>)
      reads this
      ensures r.Some? <==> action in actions
      ensures r.Some? ==> r.value == actions[action]
    {
      Lookup(actions, action)
    }

    /** `start()` over a script of replies: the transcript `Run` gives for this client's callbacks. */
    method Start(polls: seq<PollReply>) returns (posted: seq<string>, end: LoopEnd)
      ensures Transcript(posted, end) == Run(polls, Invoker(actions))
    {
      posted, end := Drive(polls, Invoker(actions));
    }
  }
}
