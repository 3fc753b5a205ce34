/**
 * The current proxy (`src/proxy/Proxy.ts`): an object that is bound to one
 * target URL, listens on a port, and decides per request whether to answer
 * "Blocked" itself or to forward it, resolves the endpoint watches the
 * request matches, and rewrites the bodies of responses for which a modifier
 * is registered.
 *
 * The sockets are not modelled: `listen` records the port, a request is the
 * URL it carries, and a response handler returns the actions it performs on
 * the client's response. A watch's resolver is a signal number; calling it
 * puts the number into `resolvedSignals`.
 */
module ProxyEngine {
  import opened Common
  import opened Text
  import opened BlockList
  import opened ResponseBody

  datatype ProxyError =
    | InvalidUrl        // "Invalid URL provided to Proxy.target() method"
    | NotTargeted       // "You must call Proxy.target() before you can use listen()"
    | AlreadyListening  // Node's ERR_SERVER_ALREADY_LISTEN from `httpSever.listen`
    | BadPort           // Node's ERR_SOCKET_BAD_PORT from `httpSever.listen`

  /** Every field of a proxy at one moment, so that a contract can say which ones a call changes. */
  datatype ProxyState = ProxyState(
    targetURL: Option<string>, hasProxy: bool, hasServer: bool, listeningOn: Option<int>,
    strayPorts: seq<int>, disabledEndpoints: seq<string>, responseModifierMap: map<string, Modifier>,
    waitForMap: map<string, nat>, resolvedSignals: set<nat>, nextSignal: nat)

  /** The result of `httpServerHandle` for one request. */
  datatype Routing =
    | Blocked     // answered 503 "Blocked", never forwarded
    | Forwarded   // handed to `httpProxy.web`
    | ProxyGone   // `httpProxy.web` called on the `undefined` that `close` left: TypeError

  /** How a call to `waitForEndpoint` starts. */
  datatype WatchStart =
    | CompletedAtOnce       // a watch on the key existed: its resolver is returned, nothing waits
    | Waiting(signal: nat)  // a new watch was registered under this signal

  /** How an awaited watch ends. */
  datatype WatchOutcome = Resolved | TimedOut  // TimedOut: rejected with WatchTimeoutError

  /** The signals the watches whose key occurs in `url` resolve. */
  ghost function Triggered(watches: map<string, nat>, url: string): set<nat> {
    set k | k in watches && Contains(url, k) :: watches[k]
  }

  class Proxy {
    var targetURL: Option<string>
    var hasProxy: bool                      // `httpProxy` is set
    var hasServer: bool                     // `httpSever` is set
    var listeningOn: Option<int>            // the port the current server listens on
    var strayPorts: seq<int>                // ports of dropped servers that still listen
    var disabledEndpoints: seq<string>
    var responseModifierMap: map<string, Modifier>
    var waitForMap: map<string, nat>        // endpoint key to the signal of its resolver
    var resolvedSignals: set<nat>           // the resolvers called so far
    var nextSignal: nat                     // the next fresh resolver

    /** All fields together. */
    function State(): ProxyState
      reads this
    {
      ProxyState(targetURL, hasProxy, hasServer, listeningOn, strayPorts, disabledEndpoints,
                 responseModifierMap, waitForMap, resolvedSignals, nextSignal)
    }

    ghost predicate Valid()
      reads this
    {
      && NoDuplicates(disabledEndpoints)
      && (hasProxy ==> hasServer)
      && (hasServer ==> targetURL.Some?)
      && (listeningOn.Some? ==> hasServer)
      && (forall k :: k in waitForMap ==> waitForMap[k] < nextSignal)
      && (forall k1, k2 :: k1 in waitForMap && k2 in waitForMap && k1 != k2 ==> waitForMap[k1] != waitForMap[k2])
      && (forall s :: s in resolvedSignals ==> s < nextSignal)
    }

    /** `new Proxy()`: nothing bound, every table empty. */
    constructor ()
      ensures Valid()
      ensures targetURL == None && !hasProxy && !hasServer && listeningOn == None && strayPorts == []
      ensures disabledEndpoints == [] && responseModifierMap == map[]
      ensures waitForMap == map[] && resolvedSignals == {}
    {
      targetURL, hasProxy, hasServer, listeningOn, strayPorts := None, false, false, None, [];
      disabledEndpoints, responseModifierMap := [], map[];
      waitForMap, resolvedSignals, nextSignal := map[], {}, 0;
    }

    /**
     * `target(url)`: a URL that does not parse is rejected before any field is
     * assigned; otherwise the target is recorded and a fresh proxy and server
     * (not yet listening) replace any earlier ones. The replaced server is
     * never closed: if it was listening, its port joins `strayPorts`.
     * `urlParses` is whether `new URL(url)` succeeds.
     */
    method Target(url: string, urlParses: bool) returns (r: Outcome<ProxyError>)
      requires Valid()
      modifies this
      ensures Valid()
      ensures !urlParses ==> r == Fail(InvalidUrl) && unchanged(this)
      ensures urlParses ==> r == Pass && targetURL == Some(url) && hasProxy && hasServer && listeningOn == None
      ensures urlParses ==> strayPorts == old(strayPorts) + Elements(old(listeningOn))
      ensures disabledEndpoints == old(disabledEndpoints) && responseModifierMap == old(responseModifierMap)
      ensures waitForMap == old(waitForMap) && resolvedSignals == old(resolvedSignals) && nextSignal == old(nextSignal)
    {
      if !urlParses {
        return Fail(InvalidUrl);
      }
      targetURL := Some(url);
      strayPorts := strayPorts + Elements(listeningOn);
      hasProxy, hasServer, listeningOn := true, true, None;
      r := Pass;
    }

    /**
     * `listen(port)`: only after a successful `target`, and not after
     * `close`; then `httpSever.listen(port)` throws when that server already
     * listens, or when the port is not an integer in 0..65535.
     */
    method Listen(port: int) returns (r: Outcome<ProxyError>)
      requires Valid()
      modifies this`listeningOn
      ensures Valid()
      ensures r == if !(hasProxy && hasServer) then Fail(NotTargeted)
                   else if old(listeningOn).Some? then Fail(AlreadyListening)
                   else if !ValidPort(port) then Fail(BadPort)
                   else Pass
      ensures listeningOn == if r.Pass? then Some(port) else old(listeningOn)
    {
      if !hasProxy || !hasServer {
        return Fail(NotTargeted);
      }
      if listeningOn.Some? {
        return Fail(AlreadyListening);
      }
      if !ValidPort(port) {
        return Fail(BadPort);
      }
      listeningOn := Some(port);
      r := Pass;
    }

    /** `disableEndpoint(e)`: pushed when absent, otherwise a warning and no change. */
    method DisableEndpoint(e: string) returns (warned: bool)
      requires Valid()
      modifies this`disabledEndpoints
      ensures Valid()
      ensures disabledEndpoints == Disabled(old(disabledEndpoints), e)
      ensures warned <==> e in old(disabledEndpoints)
    {
      warned := e in disabledEndpoints;
      if !warned {
        disabledEndpoints := disabledEndpoints + [e];
      }
    }

    /**
     * `enableEndpoint(e)`: the entry equal to `e` is spliced out and `this` is
     * returned; when there is none, a warning is logged and `undefined` is
     * returned (`returnedThis` false).
     */
    method EnableEndpoint(e: string) returns (returnedThis: bool)
      requires Valid()
      modifies this`disabledEndpoints
      ensures Valid()
      ensures disabledEndpoints == RemoveFirst(old(disabledEndpoints), e)
      ensures returnedThis <==> e in old(disabledEndpoints)
    {
      var index := FindIndex(disabledEndpoints, e);
      if index == -1 {
        return false;
      }
      SpliceIsRemoveFirst(disabledEndpoints, e, index);
      RemoveFirstKeepsNoDuplicates(disabledEndpoints, e);
      disabledEndpoints := disabledEndpoints[..index] + disabledEndpoints[index + 1..];
      returnedThis := true;
    }

    /** `addResponseModifier(e, m)`: replaces any modifier registered for exactly `e`. */
    method AddResponseModifier(e: string, m: Modifier)
      requires Valid()
      modifies this`responseModifierMap
      ensures Valid()
      ensures responseModifierMap == old(responseModifierMap)[e := m]
    {
      responseModifierMap := responseModifierMap[e := m];
    }

    /**
     * `resolveWaitIfNeeded(url)`: calls the resolver of every watch whose key
     * occurs in the URL.
     */
    method ResolveWaitIfNeeded(url: string)
      requires Valid()
      modifies this`resolvedSignals
      ensures Valid()
      ensures resolvedSignals == old(resolvedSignals) + Triggered(waitForMap, url)
    {
      var pending := waitForMap.Keys;
      ghost var visited: set<string> := {};
      while pending != {}
        invariant pending + visited == waitForMap.Keys && pending !! visited
        invariant resolvedSignals == old(resolvedSignals) + Triggered(waitForMap - pending, url)
        invariant forall s :: s in resolvedSignals ==> s < nextSignal
        decreases pending
      {
        var k :| k in pending;
        if Contains(url, k) {
          resolvedSignals := resolvedSignals + {waitForMap[k]};
        }
        pending := pending - {k};
        visited := visited + {k};
      }
      assert waitForMap - pending == waitForMap;
    }

    /**
     * `httpServerHandle` for a request to `url`: the matching watches are
     * resolved first, so a blocked request resolves them too; then the request
     * is blocked exactly when some disabled key occurs in its URL. A blocked
     * request is answered 503 "Blocked" and not forwarded.
     */
    method HandleRequest(url: string) returns (routing: Routing, reply: seq<ResAction>)
      requires Valid()
      modifies this`resolvedSignals
      ensures Valid()
      ensures resolvedSignals == old(resolvedSignals) + Triggered(waitForMap, url)
      ensures forall k :: k in waitForMap ==>
                (waitForMap[k] in resolvedSignals <==> waitForMap[k] in old(resolvedSignals) || Contains(url, k))
      ensures routing == Blocked <==> BlockedBySubstring(disabledEndpoints, url)
      ensures routing == Forwarded <==> !BlockedBySubstring(disabledEndpoints, url) && hasProxy
      ensures reply == if routing == Blocked then BlockedReply else []
    {
      ResolveWaitIfNeeded(url);
      forall k | k in waitForMap
        ensures waitForMap[k] in Triggered(waitForMap, url) <==> Contains(url, k)
      {
        if waitForMap[k] in Triggered(waitForMap, url) {
          var k' :| k' in waitForMap && Contains(url, k') && waitForMap[k'] == waitForMap[k];
        }
      }
      var blocked := SomeContained(disabledEndpoints, url);
      if blocked {
        return Blocked, BlockedReply;
      }
      routing := if hasProxy then Forwarded else ProxyGone;
      reply := [];
    }

    /**
     * The `proxyRes` handler: the upstream status and headers are mirrored;
     * with no modifier registered for exactly this URL the upstream body is
     * piped through untouched, otherwise the whole body is rewritten.
     */
    method OnProxyResponse(url: string, upstream: Upstream, c: Codec) returns (actions: seq<ResAction>)
      requires Valid()
      ensures |actions| == 2 && actions[0] == WriteHead(upstream.status)
      ensures url !in responseModifierMap <==> actions[1] == PipeUpstream
      ensures url in responseModifierMap ==>
                actions[1] == EndRewritten(RewriteBody(upstream.body, upstream.contentEncoding, responseModifierMap[url], c))
    {
      actions := [WriteHead(upstream.status)];
      if url !in responseModifierMap {
        actions := actions + [PipeUpstream];
      } else {
        var m := responseModifierMap[url];
        actions := actions + [EndRewritten(RewriteBody(upstream.body, upstream.contentEncoding, m, c))];
      }
    }

    /**
     * `waitForEndpoint(e, timeout)` up to its `await`: when a watch on `e`
     * exists, its resolver is returned and the call completes at once without
     * waiting; otherwise a fresh, unresolved signal is registered under `e`.
     */
    method WaitForEndpoint(e: string) returns (w: WatchStart)
      requires Valid()
      modifies this`waitForMap, this`nextSignal
      ensures Valid()
      ensures e in old(waitForMap) ==> w == CompletedAtOnce && waitForMap == old(waitForMap) && nextSignal == old(nextSignal)
      ensures e !in old(waitForMap) ==>
                && w == Waiting(old(nextSignal))
                && waitForMap == old(waitForMap)[e := old(nextSignal)]
                && nextSignal == old(nextSignal) + 1
                && w.signal !in resolvedSignals
    {
      if e in waitForMap {
        return CompletedAtOnce;
      }
      w := Waiting(nextSignal);
      waitForMap := waitForMap[e := nextSignal];
      nextSignal := nextSignal + 1;
    }

    /**
     * The `await Promise.race` of a waiting watch settles: if its signal was
     * resolved the entry for `e` is deleted; if the timer won, the race
     * rejects with WatchTimeoutError before the `delete`, so the entry stays.
     */
    method SettleWatch(e: string, signal: nat) returns (o: WatchOutcome)
      requires Valid()
      modifies this`waitForMap
      ensures Valid()
      ensures o == if signal in resolvedSignals then Resolved else TimedOut
      ensures waitForMap == if o == Resolved then old(waitForMap) - {e} else old(waitForMap)
    {
      if signal in resolvedSignals {
        waitForMap := waitForMap - {e};
        return Resolved;
      }
      return TimedOut;
    }

    /**
     * `close()`: with no proxy it only warns; otherwise the server stops
     * listening and the proxy is cleared, so a second `close` only warns.
     */
    method Close() returns (warned: bool)
      requires Valid()
      modifies this`hasProxy, this`listeningOn
      ensures Valid()
      ensures warned <==> !old(hasProxy)
      ensures !hasProxy
      ensures listeningOn == if warned then old(listeningOn) else None
    {
      if !hasProxy {
        return true;
      }
      listeningOn := None;
      hasProxy := false;
      warned := false;
    }

    /**
     * What the name `existingPromise` (src/proxy/Proxy.ts:78) and the
     * `delete` after the race (src/proxy/Proxy.ts:89) evidently intend: a
     * second watch on a key joins the pending signal, and the entry is
     * deleted however the race ends, so a later watch on the same key starts
     * afresh.
     */
    method WaitForEndpointIntended(e: string) returns (w: WatchStart)
      requires Valid()
      modifies this`waitForMap, this`nextSignal
      ensures Valid()
      ensures w.Waiting?
      ensures e in old(waitForMap) ==> w.signal == old(waitForMap)[e] && waitForMap == old(waitForMap) && nextSignal == old(nextSignal)
      ensures e !in old(waitForMap) ==>
                && w.signal == old(nextSignal) && w.signal !in resolvedSignals
                && waitForMap == old(waitForMap)[e := old(nextSignal)]
                && nextSignal == old(nextSignal) + 1
    {
      if e in waitForMap {
        return Waiting(waitForMap[e]);
      }
      w := Waiting(nextSignal);
      waitForMap := waitForMap[e := nextSignal];
      nextSignal := nextSignal + 1;
    }

    /** Settling as intended: the entry of this watch goes whichever way the race ends. */
    method SettleWatchIntended(e: string, signal: nat) returns (o: WatchOutcome)
      requires Valid()
      modifies this`waitForMap
      ensures Valid()
      ensures o == if signal in resolvedSignals then Resolved else TimedOut
      ensures waitForMap == if e in old(waitForMap) && old(waitForMap)[e] == signal then old(waitForMap) - {e} else old(waitForMap)
    {
      if e in waitForMap && waitForMap[e] == signal {
        waitForMap := waitForMap - {e};
      }
      o := if signal in resolvedSignals then Resolved else TimedOut;
    }
  }

  /**
   * As written, a watch that timed out poisons its key: with no request in
   * between, the next `waitForEndpoint` on the same key completes at once.
   */
  method TimedOutWatchCompletesLaterWatches(p: Proxy, key: string) returns (first: WatchOutcome, second: WatchStart)
    requires p.Valid() && key !in p.waitForMap
    modifies p
    ensures first == TimedOut && second == CompletedAtOnce
  {
    var start := p.WaitForEndpoint(key);
    first := p.SettleWatch(key, start.signal);
    second := p.WaitForEndpoint(key);
  }

  /** As intended, the next watch after a timeout waits for a new hit. */
  method TimedOutWatchThenFreshWatch(p: Proxy, key: string) returns (first: WatchOutcome, second: WatchStart)
    requires p.Valid() && key !in p.waitForMap
    modifies p
    ensures first == TimedOut && second.Waiting? && second.signal !in p.resolvedSignals
  {
    var start := p.WaitForEndpointIntended(key);
    first := p.SettleWatchIntended(key, start.signal);
    second := p.WaitForEndpointIntended(key);
  }

  /**
   * As written, a second watch on a key that is being watched completes at
   * once although no request has hit the key; as intended it shares the
   * first watch's pending signal.
   */
  method SecondWatchDoesNotWait(p: Proxy, key: string) returns (second: WatchStart, intended: WatchStart)
    requires p.Valid() && key !in p.waitForMap
    modifies p
    ensures second == CompletedAtOnce
    ensures intended.Waiting? && intended.signal !in p.resolvedSignals
  {
    var first := p.WaitForEndpoint(key);
    second := p.WaitForEndpoint(key);
    intended := p.WaitForEndpointIntended(key);
    assert intended.signal == first.signal;
  }
}
