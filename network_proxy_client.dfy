/**
 * The trafficlight client that drives a proxy
 * (`src/trafficlight/NetworkProxyTrafficClient.ts`): it registers five
 * actions on its action map and, when they are polled, builds a proxy in
 * front of the requested homeserver URL, with the login and well-known
 * responses rewritten to point at the proxy, or blocks and unblocks
 * endpoints on it.
 */
module NetworkProxy {
  import opened Common
  import opened Text
  import opened PollLoop
  import opened BlockList
  import opened ResponseBody
  import ProxyEngine
  import TrafficLight

  /** The five callbacks `hookActionsToMethods` registers, by what they do. */
  datatype ProxyAction = IdleAction | ProxyToAction | DisableAction | EnableAction | ExitAction

  /** The action map after `hookActionsToMethods`. */
  const HookedActions: map<string, ProxyAction> := map[
    "idle" := IdleAction, "proxyTo" := ProxyToAction, "disableEndpoint" := DisableAction,
    "enableEndpoint" := EnableAction, "exit" := ExitAction]

  /** `hookActionsToMethods`: the five actions are registered, in this order, on an empty map. */
  method HookActionsToMethods(m: TrafficLight.ActionMap<ProxyAction>)
    requires m.actions == map[]
    modifies m
    ensures m.actions == HookedActions
  {
    var r := m.On("idle", IdleAction);
    r := m.On("proxyTo", ProxyToAction);
    r := m.On("disableEndpoint", DisableAction);
    r := m.On("enableEndpoint", EnableAction);
    r := m.On("exit", ExitAction);
  }

  /** Proof step for `CreateProxy`: the table the three `addResponseModifier` calls build has one modifier on each login endpoint. */
  lemma LoginModifiers(f: Modifier)
    ensures var table := map[]["/_matrix/client/v3/login" := f]["/_matrix/client/r0/login" := f]["/.well-known/matrix/client" := f];
      table.Keys == LoginEndpoints && forall k :: k in table ==> table[k] == f
  {
  }

  /** The value each callback resolves to when it does not throw. */
  function Reply(a: ProxyAction): (r: Option<string>)
    ensures Truthy(r) <==> a in {ProxyToAction, DisableAction, EnableAction}
  {
    match a
    case ProxyToAction => Some("proxyToSet")
    case DisableAction => Some("endpointDisabled")
    case EnableAction => Some("endpointDisabled")
    case IdleAction => None
    case ExitAction => None
  }

  /** The endpoints whose responses `createProxy` rewrites. */
  const LoginEndpoints: set<string> := {
    "/_matrix/client/v3/login", "/_matrix/client/r0/login", "/.well-known/matrix/client"}

  /**
   * `replaceSynapseServerUrlWithProxyUrl`: every occurrence of the
   * homeserver URL followed by "/" becomes the proxy URL; text without one is
   * returned unchanged.
   */
  function Replacer(url: string, proxyUrl: string, data: string): (r: string)
    ensures !Contains(data, url + "/") ==> r == data
  {
    ReplaceAll(data, url + "/", proxyUrl)
  }

  /**
   * A body that mentions the homeserver URL once comes back with the proxy
   * URL in its place and nothing else changed (for a proxy URL without `$`,
   * which `replaceAll` would expand).
   */
  lemma ReplacerRewritesBaseUrl(url: string, proxyUrl: string, before: string, after: string)
    requires NoDollar(proxyUrl)
    requires forall j: nat | j < |before| :: !MatchesAt(before + (url + "/") + after, url + "/", j)
    requires !Contains(after, url + "/")
    ensures Replacer(url, proxyUrl, before + (url + "/") + after) == before + proxyUrl + after
  {
    ReplaceFirstOccurrence(before, url + "/", after, proxyUrl);
  }

  datatype ClientError =
    | UrlMissing       // `"url" is not supplied with proxyTo action!`
    | EndpointMissing  // `"endpoint" is not supplied with ...`
    | InvalidTarget    // `Proxy.target` rejected the URL
    | NoProxy          // a method called on `this.proxy` while it is `undefined`: TypeError

  /** `data[key]`, `None` when absent. */
  function Argument(data: Data, key: string): Option<string> {
    if key in data then Some(data[key]) else None
  }

  /** The argument passes the `if (!x) throw` guard: present and non-empty. */
  predicate Supplied(v: Option<string>) {
    v.Some? && v.value != ""
  }

  /**
   * Whether the callback for `a` throws: `urlParses` is whether the polled
   * URL parses, `hasProxy` whether `this.proxy` is set.
   */
  predicate Throws(a: ProxyAction, data: Data, urlParses: bool, hasProxy: bool) {
    match a
    case IdleAction => false
    case ProxyToAction => !Supplied(Argument(data, "url")) || !urlParses
    case DisableAction => !Supplied(Argument(data, "endpoint")) || !hasProxy
    case EnableAction => !Supplied(Argument(data, "endpoint")) || !hasProxy
    case ExitAction => !hasProxy
  }

  /**
   * What one poll of this client does, given its action map: "exit" stops
   * the loop, an action without a callback is skipped, a callback that throws
   * posts "error", and one that completes posts its reply when truthy.
   */
  function Expected(actions: map<string, ProxyAction>, action: string, data: Data, urlParses: bool, hasProxy: bool): Step {
    var outcome :=
      if action == "exit" || action !in actions then None
      else if Throws(actions[action], data, urlParses, hasProxy) then Some(Threw)
      else Some(Returned(Reply(actions[action])));
    Decide(action, outcome)
  }

  /**
   * The replies of the hooked actions: "proxyTo" posts "proxyToSet",
   * "disableEndpoint" and "enableEndpoint" both post "endpointDisabled",
   * "idle" posts nothing, a missing argument posts "error", and "exit" stops
   * the loop without its callback (which would close the proxy) ever running.
   */
  lemma HookedReplies(data: Data, urlParses: bool, hasProxy: bool)
    ensures Supplied(Argument(data, "url")) && urlParses ==>
              Expected(HookedActions, "proxyTo", data, urlParses, hasProxy) == Respond("proxyToSet")
    ensures !Supplied(Argument(data, "url")) ==>
              Expected(HookedActions, "proxyTo", data, urlParses, hasProxy) == Respond("error")
    ensures Supplied(Argument(data, "endpoint")) && hasProxy ==>
              && Expected(HookedActions, "disableEndpoint", data, urlParses, hasProxy) == Respond("endpointDisabled")
              && Expected(HookedActions, "enableEndpoint", data, urlParses, hasProxy) == Respond("endpointDisabled")
    ensures !Supplied(Argument(data, "endpoint")) ==>
              && Expected(HookedActions, "disableEndpoint", data, urlParses, hasProxy) == Respond("error")
              && Expected(HookedActions, "enableEndpoint", data, urlParses, hasProxy) == Respond("error")
    ensures Expected(HookedActions, "idle", data, urlParses, hasProxy) == Silent
    ensures Expected(HookedActions, "exit", data, urlParses, hasProxy) == Step.Exit
  {
    assert HookedActions["proxyTo"] == ProxyToAction;
    assert HookedActions["disableEndpoint"] == DisableAction;
    assert HookedActions["enableEndpoint"] == EnableAction;
    assert HookedActions["idle"] == IdleAction;
  }

  class Client {
    const proxyUrl: string      // `this.proxyURL.toString()`
    const port: Port            // `parseInt(this.proxyURL.port, 10)`
    const actionMap: TrafficLight.ActionMap<ProxyAction>
    var proxy: ProxyEngine.Proxy?

    ghost predicate Valid()
      reads this, proxy
    {
      proxy != null ==> proxy.Valid()
    }

    /** The constructor: the five actions are hooked onto a fresh action map; no proxy yet. */
    constructor (proxyUrl: string, port: Port)
      ensures Valid() && proxy == null
      ensures this.proxyUrl == proxyUrl && this.port == port
      ensures fresh(actionMap) && actionMap.actions == HookedActions
    {
      var m := new TrafficLight.ActionMap<ProxyAction>();
      HookActionsToMethods(m);
      this.proxyUrl, this.port := proxyUrl, port;
      actionMap := m;
      proxy := null;
    }

    /**
     * The proxy `createProxy(url)` builds: bound to `url`, listening on the
     * proxy URL's port, nothing blocked, no watches, and the replacer on
     * exactly the three login and well-known endpoints.
     */
    ghost predicate Serving(p: ProxyEngine.Proxy, url: string)
      reads p
    {
      && p.targetURL == Some(url) && p.hasProxy && p.hasServer
      && p.listeningOn == Some(port) && p.strayPorts == []
      && p.disabledEndpoints == []
      && p.responseModifierMap.Keys == LoginEndpoints
      && (forall k, s :: k in p.responseModifierMap ==> p.responseModifierMap[k](s) == Replacer(url, proxyUrl, s))
      && p.waitForMap == map[] && p.resolvedSignals == {}
    }

    /**
     * `createProxy(url)`: a missing or empty URL throws before any proxy is
     * built, a URL the proxy rejects throws and leaves `this.proxy` as it was;
     * otherwise a fresh proxy targets the URL, rewrites the three login
     * endpoints with the replacer, listens on the proxy URL's port, and
     * replaces `this.proxy`. The proxy it replaces is not closed.
     */
    method CreateProxy(url: Option<string>, urlParses: bool) returns (r: Outcome<ClientError>)
      requires Valid()
      modifies this`proxy
      ensures Valid()
      ensures !Supplied(url) ==> r == Fail(UrlMissing)
      ensures Supplied(url) && !urlParses ==> r == Fail(InvalidTarget)
      ensures r.Fail? ==> proxy == old(proxy)
      ensures r.Pass? <==> Supplied(url) && urlParses
      ensures r.Pass? ==> proxy != null && fresh(proxy) && Serving(proxy, url.value)
    {
      if !Supplied(url) {
        return Fail(UrlMissing);
      }
      var target := url.value;
      var base := proxyUrl;
      var p := new ProxyEngine.Proxy();
      var t := p.Target(target, urlParses);
      if t.Fail? {
        return Fail(InvalidTarget);
      }
      var replacer: Modifier := data => Replacer(target, base, data);
      p.AddResponseModifier("/_matrix/client/v3/login", replacer);
      p.AddResponseModifier("/_matrix/client/r0/login", replacer);
      p.AddResponseModifier("/.well-known/matrix/client", replacer);
      LoginModifiers(replacer);
      var l := p.Listen(port);
      proxy := p;
      r := Pass;
    }

    /**
     * `disableEndpoint(endpoint)`: guard first, then the proxy's own
     * `disableEndpoint`; only the block list of the proxy changes.
     */
    method DisableEndpoint(endpoint: Option<string>) returns (r: Outcome<ClientError>)
      requires Valid()
      modifies proxy
      ensures Valid()
      ensures !Supplied(endpoint) ==> r == Fail(EndpointMissing)
      ensures Supplied(endpoint) && proxy == null ==> r == Fail(NoProxy)
      ensures r.Fail? && proxy != null ==> unchanged(proxy)
      ensures r.Pass? <==> Supplied(endpoint) && proxy != null
      ensures r.Pass? ==>
                proxy.State() == old(proxy.State()).(disabledEndpoints := Disabled(old(proxy.disabledEndpoints), endpoint.value))
    {
      if !Supplied(endpoint) {
        return Fail(EndpointMissing);
      }
      if proxy == null {
        return Fail(NoProxy);
      }
      var warned := proxy.DisableEndpoint(endpoint.value);
      r := Pass;
    }

    /**
     * `enableEndpoint(endpoint)`: guard first, then the proxy's own
     * `enableEndpoint`; only the block list of the proxy changes.
     */
    method EnableEndpoint(endpoint: Option<string>) returns (r: Outcome<ClientError>)
      requires Valid()
      modifies proxy
      ensures Valid()
      ensures !Supplied(endpoint) ==> r == Fail(EndpointMissing)
      ensures Supplied(endpoint) && proxy == null ==> r == Fail(NoProxy)
      ensures r.Fail? && proxy != null ==> unchanged(proxy)
      ensures r.Pass? <==> Supplied(endpoint) && proxy != null
      ensures r.Pass? ==>
                proxy.State() == old(proxy.State()).(disabledEndpoints := RemoveFirst(old(proxy.disabledEndpoints), endpoint.value))
    {
      if !Supplied(endpoint) {
        return Fail(EndpointMissing);
      }
      if proxy == null {
        return Fail(NoProxy);
      }
      var returnedThis := proxy.EnableEndpoint(endpoint.value);
      r := Pass;
    }

    /**
     * `exit()`: closes the proxy, a TypeError when there is none. Closing
     * clears the proxy's `httpProxy` and, when it had one, stops its server
     * listening; the block list, the modifiers and the watches stay.
     */
    method ExitProxy() returns (r: Outcome<ClientError>)
      requires Valid()
      modifies proxy
      ensures Valid()
      ensures r == if proxy == null then Fail(NoProxy) else Pass
      ensures proxy != null ==> proxy.State() == old(proxy.State()).(
                hasProxy := false,
                listeningOn := if old(proxy.hasProxy) then None else old(proxy.listeningOn))
    {
      if proxy == null {
        return Fail(NoProxy);
      }
      var warned := proxy.Close();
      r := Pass;
    }

    /**
     * What running the callback for `a` does to `this.proxy`, given whether
     * it threw: a callback that throws, and "idle", leave the proxy as it
     * was; "proxyTo" installs a fresh proxy serving the URL; "disableEndpoint"
     * and "enableEndpoint" change only the block list of the same proxy; and
     * "exit" closes it.
     */
    twostate predicate Effect(a: ProxyAction, data: Data, threw: bool)
      reads this, proxy
    {
      if threw || a == IdleAction then
        proxy == old(proxy) && (proxy != null ==> proxy.State() == old(proxy.State()))
      else
        match a
        case ProxyToAction =>
          proxy != null && fresh(proxy) && Argument(data, "url").Some? && Serving(proxy, Argument(data, "url").value)
        case DisableAction =>
          && proxy == old(proxy) && proxy != null && Argument(data, "endpoint").Some?
          && proxy.State() == old(proxy.State()).(
               disabledEndpoints := Disabled(old(proxy.disabledEndpoints), Argument(data, "endpoint").value))
        case EnableAction =>
          && proxy == old(proxy) && proxy != null && Argument(data, "endpoint").Some?
          && proxy.State() == old(proxy.State()).(
               disabledEndpoints := RemoveFirst(old(proxy.disabledEndpoints), Argument(data, "endpoint").value))
        case ExitAction =>
          && proxy == old(proxy) && proxy != null
          && proxy.State() == old(proxy.State()).(
               hasProxy := false,
               listeningOn := if old(proxy.hasProxy) then None else old(proxy.listeningOn))
        case IdleAction => true
    }

    /** Running the callback registered as `a` on the polled data. */
    method Invoke(a: ProxyAction, data: Data, urlParses: bool) returns (o: CallbackOutcome)
      requires Valid()
      modifies this`proxy, proxy
      ensures Valid()
      ensures o == if Throws(a, data, urlParses, old(proxy) != null) then Threw else Returned(Reply(a))
      ensures Effect(a, data, o == Threw)
    {
      match a {
        case IdleAction =>
          o := Returned(None);
        case ProxyToAction =>
          var r := CreateProxy(Argument(data, "url"), urlParses);
          o := if r.Fail? then Threw else Returned(Some("proxyToSet"));
        case DisableAction =>
          var r := DisableEndpoint(Argument(data, "endpoint"));
          o := if r.Fail? then Threw else Returned(Some("endpointDisabled"));
        case EnableAction =>
          var r := EnableEndpoint(Argument(data, "endpoint"));
          o := if r.Fail? then Threw else Returned(Some("endpointDisabled"));
        case ExitAction =>
          var r := ExitProxy();
          o := if r.Fail? then Threw else Returned(None);
      }
    }

    /**
     * One iteration of `start` for this client, after a successful poll of
     * `action` with `data`. "exit" stops the loop and leaves the proxy as it
     * is (still listening), and so does an unknown action; the step is the
     * one `Expected` gives, and a known action has its callback's effect.
     */
    method HandlePoll(action: string, data: Data, urlParses: bool) returns (s: Step)
      requires Valid()
      modifies this`proxy, proxy
      ensures Valid()
      ensures s == Expected(actionMap.actions, action, data, urlParses, old(proxy) != null)
      ensures action == "exit" || action !in actionMap.actions ==> proxy == old(proxy) && (proxy != null ==> unchanged(proxy))
      ensures action != "exit" && action in actionMap.actions ==>
                var a := actionMap.actions[action];
                Effect(a, data, Throws(a, data, urlParses, old(proxy) != null))
    {
      if action == "exit" {
        return Step.Exit;
      }
      var callback := actionMap.Get(action);
      if callback.None? {
        return Skip;
      }
      var o := Invoke(callback.value, data, urlParses);
      s := Settle(o);
    }
  }
}
