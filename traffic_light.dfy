/**
 * The current trafficlight client (`src/trafficlight/TrafficLightClient.ts`):
 * an `ActionMap` object the client owns, the URLs it derives from the server
 * URL and its uuid, and its poll loop.
 */
module TrafficLight {
  import opened Common
  import opened Registry
  import opened PollLoop
  import opened UriComponent

  /** A callback of this client: `(data, client) => Promise<string | void>`; the client argument is not modelled. */
  type ActionCallback = Data -> CallbackOutcome

  /** The `ActionMap` class; `C` is the type of its callbacks. */
  class ActionMap<C> {
    var actions: map<string, C>

    constructor ()
      ensures actions == map[]
    {
      actions := map[];
    }

    /** `on(action, cb)`: throws "already specified" for an action that has a callback. */
    method On(action: string, cb: C) returns (r: Outcome<RegistryError>)
      modifies this
      ensures Register(old(actions), action, cb).Ok? ==> r == Pass && actions == Register(old(actions), action, cb).value
      ensures Register(old(actions), action, cb).Err? ==> r == Fail(AlreadySpecified(action)) && actions == old(actions)
    {
      if action in actions {
        return Fail(AlreadySpecified(action));
      }
      actions := actions[action := cb];
      r := Pass;
    }

    /** `off(action)`: throws "not specified" for an action without a callback. */
    method Off(action: string) returns (r: Outcome<RegistryError>)
      modifies this
      ensures Unregister(old(actions), action).Ok? ==> r == Pass && actions == Unregister(old(actions), action).value
      ensures Unregister(old(actions), action).Err? ==> r == Fail(NotSpecified(action)) && actions == old(actions)
    {
      if action !in actions {
        return Fail(NotSpecified(action));
      }
      actions := actions - {action};
      r := Pass;
    }

    /** `get(action)`: the registered callback, or `undefined` for a name without one. */
    function Get(action: string): (r: Option<C>)
      reads this
      ensures r.Some? <==> action in actions
      ensures r.Some? ==> r.value == actions[action]
    {
      Lookup(actions, action)
    }
  }

  /** `${this.uuid}` before `_register` assigned it is "undefined". */
  function UuidText(uuid: Option<string>): string {
    match uuid
    case None => "undefined"
    case Some(u) => u
  }

  /**
   * `clientBaseUrl`: the server URL, "/client/", then the percent-encoded
   * uuid, which forms a single path segment (it holds no '/') and reads back
   * as the uuid's UTF-8 bytes.
   */
  function ClientBaseUrl(server: string, uuid: Option<string>): (u: string)
    ensures |u| >= |server| + 8 && u[..|server| + 8] == server + "/client/"
    ensures forall i :: |server| + 8 <= i < |u| ==> u[i] != '/'
    ensures PercentDecode(u[|server| + 8..]) == Some(Utf8Bytes(UuidText(uuid)))
  {
    var prefix := server + "/client/";
    var segment := EncodeURIComponent(UuidText(uuid));
    EncodeThenDecode(UuidText(uuid));
    NoSlashIn(segment);
    Concatenation(prefix, segment);
    prefix + segment
  }

  /** The two halves of a concatenation, and where each character of the second half lands. */
  lemma Concatenation(prefix: string, rest: string)
    ensures (prefix + rest)[..|prefix|] == prefix && (prefix + rest)[|prefix|..] == rest
    ensures forall i :: |prefix| <= i < |prefix + rest| ==> (prefix + rest)[i] == rest[i - |prefix|]
  {
  }

  /** Encoded text holds no '/', so it stays one path segment. */
  lemma NoSlashIn(segment: string)
    requires forall i :: 0 <= i < |segment| ==> Unescaped(segment[i]) || segment[i] == '%'
    ensures forall i :: 0 <= i < |segment| ==> segment[i] != '/'
  {
    assert !Unescaped('/');
  }

  /**
   * `pollUrl`: the server URL, "/client/", the uuid's segment, then "/poll";
   * the segment between them reads back as the uuid's UTF-8 bytes.
   */
  function PollUrl(server: string, uuid: Option<string>): (u: string)
    ensures |u| >= |server| + 8 + 5
    ensures u[..|server| + 8] == server + "/client/" && u[|u| - 5..] == "/poll"
    ensures PercentDecode(u[|server| + 8..|u| - 5]) == Some(Utf8Bytes(UuidText(uuid)))
  {
    var base := ClientBaseUrl(server, uuid);
    SegmentBetween(server, base, "/poll");
    base + "/poll"
  }

  /**
   * `respondUrl`: the server URL, "/client/", the uuid's segment, then
   * "/respond"; the segment between them reads back as the uuid's UTF-8 bytes.
   */
  function RespondUrl(server: string, uuid: Option<string>): (u: string)
    ensures |u| >= |server| + 8 + 8
    ensures u[..|server| + 8] == server + "/client/" && u[|u| - 8..] == "/respond"
    ensures PercentDecode(u[|server| + 8..|u| - 8]) == Some(Utf8Bytes(UuidText(uuid)))
  {
    var base := ClientBaseUrl(server, uuid);
    SegmentBetween(server, base, "/respond");
    base + "/respond"
  }

  /** Appending a suffix to a base URL keeps its prefix and its uuid segment. */
  lemma SegmentBetween(server: string, base: string, suffix: string)
    requires |base| >= |server| + 8
    ensures (base + suffix)[..|server| + 8] == base[..|server| + 8]
    ensures (base + suffix)[|server| + 8..|base + suffix| - |suffix|] == base[|server| + 8..]
    ensures (base + suffix)[|base + suffix| - |suffix|..] == suffix
  {
  }

  /**
   * The poll and respond URLs are the client's base URL with "/poll" and
   * "/respond" appended, so they differ; a uuid made of unescaped characters
   * (as `crypto.randomUUID` makes) appears in them as it is.
   */
  lemma ClientUrls(server: string, uuid: Option<string>)
    ensures PollUrl(server, uuid) != RespondUrl(server, uuid)
    ensures uuid.Some? && (forall i :: 0 <= i < |uuid.value| ==> Unescaped(uuid.value[i])) ==>
              PollUrl(server, uuid) == server + "/client/" + uuid.value + "/poll"
  {
    var base := ClientBaseUrl(server, uuid);
    Concatenation(base, "/poll");
    Concatenation(base, "/respond");
    assert PollUrl(server, uuid)[|base| + 1] != RespondUrl(server, uuid)[|base| + 1];
  }

  /** How `start` invokes the callbacks of a registry: `callback(data, this)`. */
  function Invoker(actions: map<string, ActionCallback>): (string, Data) -> Option<CallbackOutcome> {
    (action, data) => if action in actions then Some(actions[action](data)) else None
  }

  class Client {
    const server: string
    const actionMap: ActionMap<ActionCallback>
    var uuid: Option<string>

    /** `new TrafficLightClient(server, actionMap)`; the uuid is unset until `_register`. */
    constructor (server: string, actionMap: ActionMap<ActionCallback>)
      ensures this.server == server && this.actionMap == actionMap && uuid == None
    {
      this.server := server;
      this.actionMap := actionMap;
      uuid := None;
    }

    /**
     * `_register`: the fresh uuid is stored before the registration is
     * posted, so it stays even when the server refuses the registration with
     * a status other than 200 and the call throws.
     */
    method Register(freshUuid: string, status: int) returns (r: Outcome<int>)
      modifies this`uuid
      ensures uuid == Some(freshUuid)
      ensures r == if status == 200 then Pass else Fail(status)
    {
      uuid := Some(freshUuid);
      r := if status == 200 then Pass else Fail(status);
    }

    /** `start()` over a script of replies: the transcript `Run` gives for this client's callbacks. */
    method Start(polls: seq<PollReply>) returns (posted: seq<string>, end: LoopEnd)
      ensures Transcript(posted, end) == Run(polls, Invoker(actionMap.actions))
    {
      posted, end := Drive(polls, Invoker(actionMap.actions));
    }
  }
}
