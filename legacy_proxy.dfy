/**
 * The earlier proxy (`proxy/Proxy.ts`): the same block list and modifier
 * map, but no server of its own, no watches, and a block decision made only
 * in the `proxyRes` handler, after the upstream has answered, by exact
 * equality with the request URL. Its end handler rewrites the body whenever
 * a modifier is registered, even for a request it has just answered
 * "Blocked".
 */
module LegacyProxyEngine {
  import opened Common
  import opened BlockList
  import opened ResponseBody

  datatype ProxyError =
    | InvalidUrl   // "Invalid URL provided to Proxy.target() method"
    | NotTargeted  // "You must call Proxy.target() before you can use listen()"
    | BadPort      // Node's ERR_SOCKET_BAD_PORT from the new server's `listen`

  class Proxy {
    var targetURL: Option<string>
    var hasProxy: bool                      // `httpProxy` is set
    var listeningOn: Option<int>            // the port of the server `httpProxy` holds now
    var strayPorts: seq<int>                // ports of dropped servers that still listen
    var disabledEndpoints: seq<string>
    var responseModifierMap: map<string, Modifier>

    ghost predicate Valid()
      reads this
    {
      && NoDuplicates(disabledEndpoints)
      && (hasProxy ==> targetURL.Some?)
      && (listeningOn.Some? ==> hasProxy)
    }

    constructor ()
      ensures Valid()
      ensures targetURL == None && !hasProxy && listeningOn == None && strayPorts == []
      ensures disabledEndpoints == [] && responseModifierMap == map[]
    {
      targetURL, hasProxy, listeningOn, strayPorts := None, false, None, [];
      disabledEndpoints, responseModifierMap := [], map[];
    }

    /**
     * `target(url)`: rejects a URL that does not parse before assigning
     * anything; otherwise a fresh `httpProxy` replaces the old one, whose
     * server, if it listened, is never closed and joins `strayPorts`.
     */
    method Target(url: string, urlParses: bool) returns (r: Outcome<ProxyError>)
      requires Valid()
      modifies this
      ensures Valid()
      ensures !urlParses ==> r == Fail(InvalidUrl) && unchanged(this)
      ensures urlParses ==> r == Pass && targetURL == Some(url) && hasProxy && listeningOn == None
      ensures urlParses ==> strayPorts == old(strayPorts) + Elements(old(listeningOn))
      ensures disabledEndpoints == old(disabledEndpoints) && responseModifierMap == old(responseModifierMap)
    {
      if !urlParses {
        return Fail(InvalidUrl);
      }
      targetURL := Some(url);
      strayPorts := strayPorts + Elements(listeningOn);
      hasProxy, listeningOn := true, None;
      r := Pass;
    }

    /**
     * `listen(port)`: throws unless a proxy exists. http-proxy's `listen`
     * then creates a new server each time and makes it the proxy's server
     * before listening, so a server listening from an earlier call is
     * dropped, still listening, into `strayPorts`; a port outside 0..65535
     * makes the new server's `listen` throw, leaving a server that does not
     * listen.
     */
    method Listen(port: int) returns (r: Outcome<ProxyError>)
      requires Valid()
      modifies this`listeningOn, this`strayPorts
      ensures Valid()
      ensures r == if !hasProxy then Fail(NotTargeted) else if !ValidPort(port) then Fail(BadPort) else Pass
      ensures r == Fail(NotTargeted) ==> listeningOn == old(listeningOn) && strayPorts == old(strayPorts)
      ensures r != Fail(NotTargeted) ==>
                && strayPorts == old(strayPorts) + Elements(old(listeningOn))
                && listeningOn == if r.Pass? then Some(port) else None
    {
      if !hasProxy {
        return Fail(NotTargeted);
      }
      strayPorts := strayPorts + Elements(listeningOn);
      if !ValidPort(port) {
        listeningOn := None;
        return Fail(BadPort);
      }
      listeningOn := Some(port);
      r := Pass;
    }

    /** `disableEndpoint(e)`: pushed when absent, otherwise a warning and no change. */
    method DisableEndpoint(e: string) returns (warned: bool)
      requires Valid()
      modifies this`disabledEndpoints
      ensures Valid()
      ensures disabledEndpoints == Disabled(old(disabledEndpoints), e)
      ensures warned <==> e in old(disabledEndpoints)
    {
      warned := e in disabledEndpoints;
      if !warned {
        disabledEndpoints := disabledEndpoints + [e];
      }
    }

    /** `enableEndpoint(e)`: splices out the entry equal to `e`, or warns and returns `undefined`. */
    method EnableEndpoint(e: string) returns (returnedThis: bool)
      requires Valid()
      modifies this`disabledEndpoints
      ensures Valid()
      ensures disabledEndpoints == RemoveFirst(old(disabledEndpoints), e)
      ensures returnedThis <==> e in old(disabledEndpoints)
    {
      var index := FindIndex(disabledEndpoints, e);
      if index == -1 {
        return false;
      }
      SpliceIsRemoveFirst(disabledEndpoints, e, index);
      RemoveFirstKeepsNoDuplicates(disabledEndpoints, e);
      disabledEndpoints := disabledEndpoints[..index] + disabledEndpoints[index + 1..];
      returnedThis := true;
    }

    /** `addResponseModifier(e, m)`: replaces any modifier registered for exactly `e`. */
    method AddResponseModifier(e: string, m: Modifier)
      requires Valid()
      modifies this`responseModifierMap
      ensures Valid()
      ensures responseModifierMap == old(responseModifierMap)[e := m]
    {
      responseModifierMap := responseModifierMap[e := m];
    }

    /**
     * `close()`: warns when no proxy exists; otherwise closes it, with the
     * server it holds now (not the stray ones), and clears it.
     */
    method Close() returns (warned: bool)
      requires Valid()
      modifies this`hasProxy, this`listeningOn
      ensures Valid()
      ensures warned <==> !old(hasProxy)
      ensures !hasProxy
      ensures listeningOn == if warned then old(listeningOn) else None
    {
      if !hasProxy {
        return true;
      }
      listeningOn := None;
      hasProxy := false;
      warned := false;
    }

    /**
     * The `proxyRes` handler, which runs for every request once the upstream
     * has answered it. A request whose URL equals a disabled key is answered
     * 503 "Blocked"; any other gets the upstream status and headers, and its
     * body piped when no modifier is registered for the URL. Whenever a
     * modifier is registered the end handler then calls `end` with the
     * rewritten body; on a blocked URL that is a second `end` after
     * `end("Blocked")`, which Node rejects as a write after end, so the
     * client receives "Blocked".
     */
    method OnProxyResponse(url: string, upstream: Upstream, c: Codec) returns (actions: seq<ResAction>)
      requires Valid()
      ensures |actions| == if url in disabledEndpoints && url in responseModifierMap then 3 else 2
      ensures url in disabledEndpoints ==> actions[..2] == BlockedReply
      ensures url !in disabledEndpoints ==> actions[0] == WriteHead(upstream.status)
      ensures PipeUpstream in actions <==> url !in disabledEndpoints && url !in responseModifierMap
      ensures url in responseModifierMap ==>
                actions[|actions| - 1]
                == EndRewritten(RewriteBody(upstream.body, upstream.contentEncoding, responseModifierMap[url], c))
    {
      var blocked := SomeEqual(disabledEndpoints, url);
      var needsDataProcessing := url in responseModifierMap;
      if !blocked {
        actions := [WriteHead(upstream.status)];
        if !needsDataProcessing {
          actions := actions + [PipeUpstream];
        }
      } else {
        actions := BlockedReply;
      }
      if needsDataProcessing {
        var m := responseModifierMap[url];
        actions := actions + [EndRewritten(RewriteBody(upstream.body, upstream.contentEncoding, m, c))];
      }
    }
  }
}
