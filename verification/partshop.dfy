/** The pure rules inside the `PartShop` client: the URL checks of its
    constructor, how `pull` turns its argument into endpoints and each endpoint
    into a request URI, how a reply's status is classified, and what a pull
    leaves in the target document. The HTTP transport is the `fetch` parameter
    and parsing a reply body is an opaque effect recorded in the document. */
module PartShop {
  import opened Results
  import opened SbolErrors

  /** The state a constructed shop keeps; `key` is the login token. */
  datatype Shop = Shop(resource: string, key: string, spoofedResource: string)

  /** True when the last character of `s` is a forward slash; the empty string has none. */
  predicate EndsWithSlash(s: string) {
    |s| > 0 && s[|s| - 1] == '/'
  }

  /** The state the constructor is able to leave behind. */
  predicate ValidShop(shop: Shop) {
    !EndsWithSlash(shop.resource) && !EndsWithSlash(shop.spoofedResource) && shop.key == ""
  }

  /** `PartShop(url, spoofed_url)`: the resource URL is checked first, then the
      spoofed one; either ending in `/` is an invalid argument. */
  function NewShop(url: string, spoofedUrl: string): (r: Result<Shop, Error>)
    ensures r.Success? <==> !EndsWithSlash(url) && !EndsWithSlash(spoofedUrl)
    ensures r.Success? ==> r.value == Shop(url, "", spoofedUrl) && ValidShop(r.value)
    ensures r.Failure? ==> IsSbolError(r.error) && Code(r.error) == InvalidArgument
    ensures EndsWithSlash(url) ==> r.error == TerminalSlashInResource
    ensures !EndsWithSlash(url) && EndsWithSlash(spoofedUrl) ==> r.error == TerminalSlashInSpoofedResource
  {
    if EndsWithSlash(url) then Failure(TerminalSlashInResource)
    else if EndsWithSlash(spoofedUrl) then Failure(TerminalSlashInSpoofedResource)
    else Success(Shop(url, "", spoofedUrl))
  }

  /** `PartShop(url)`: the spoofed URL defaults to the empty string, which
      always passes, so only the resource URL is checked. */
  function NewShopWithDefaults(url: string): (r: Result<Shop, Error>)
    ensures r.Success? <==> !EndsWithSlash(url)
    ensures r.Success? ==> r.value == Shop(url, "", "")
    ensures r.Failure? ==> r.error == TerminalSlashInResource
  {
    NewShop(url, "")
  }

  /** Any URL written as some prefix followed by `/` is rejected, whatever the spoofed URL. */
  lemma SlashTerminatedUrlRejected(prefix: string, spoofedUrl: string)
    ensures NewShop(prefix + "/", spoofedUrl) == Failure(TerminalSlashInResource)
  {
  }

  /** A spoofed URL written as some prefix followed by `/` is rejected once the URL itself passes. */
  lemma SlashTerminatedSpoofedUrlRejected(url: string, prefix: string)
    requires !EndsWithSlash(url)
    ensures NewShop(url, prefix + "/") == Failure(TerminalSlashInSpoofedResource)
  {
  }

  /** Empty URLs pass, and only the final character is inspected: two URLs with
      the same last character (and a spoofed URL likewise) get the same verdict. */
  lemma OnlyFinalCharacterInspected(p1: string, p2: string, c: char, q1: string, q2: string, d: char)
    ensures NewShop("", "").Success?
    ensures NewShop(p1 + [c], q1 + [d]).Success? == NewShop(p2 + [c], q2 + [d]).Success?
    ensures NewShop(p1 + [c], "").Success? == NewShop(p2 + [c], "").Success?
    ensures NewShop("", q1 + [d]).Success? == NewShop("", q2 + [d]).Success?
  {
  }

  /** The `uris` argument of `pull`: a `str`, a `list`, or a value of any other type. */
  datatype UrisArgument = Single(uri: string) | Many(uris: seq<string>) | OtherType(typeName: string)

  /** The endpoint list `pull` iterates over. */
  function Endpoints(uris: UrisArgument): (r: Result<seq<string>, Error>)
    ensures r.Success? <==> !uris.OtherType?
    ensures uris.Single? ==> r.value == [uris.uri]
    ensures uris.Many? ==> r.value == uris.uris
    ensures uris.OtherType? ==> r.error == UrisTypeError(uris.typeName)
  {
    match uris
    case Single(u) => Success([u])
    case Many(us) => Success(us)
    case OtherType(t) => Failure(UrisTypeError(t))
  }

  const RecursiveSuffix: string := "/sbol"
  const NonRecursiveSuffix: string := "/sbolnr"

  /** The URI of the GET request issued for one endpoint. */
  function RequestUri(endpoint: string, recursive: bool): (r: string)
    ensures |r| >= |endpoint| && r[..|endpoint|] == endpoint
    ensures recursive ==> r[|endpoint|..] == RecursiveSuffix
    ensures !recursive ==> r[|endpoint|..] == NonRecursiveSuffix
  {
    var uri := endpoint + "/sbol";
    if recursive then uri else uri + "nr"
  }

  /** Recovers the endpoint and the recursion flag from a request URI. */
  function ParseRequestUri(uri: string): Option<(string, bool)>
  {
    if |uri| >= |NonRecursiveSuffix| && uri[|uri| - |NonRecursiveSuffix|..] == NonRecursiveSuffix then
      Some((uri[..|uri| - |NonRecursiveSuffix|], false))
    else if |uri| >= |RecursiveSuffix| && uri[|uri| - |RecursiveSuffix|..] == RecursiveSuffix then
      Some((uri[..|uri| - |RecursiveSuffix|], true))
    else
      None
  }

  /** Every request URI names its endpoint and its recursion flag unambiguously. */
  lemma ParseRequestUriInverts(endpoint: string, recursive: bool)
    ensures ParseRequestUri(RequestUri(endpoint, recursive)) == Some((endpoint, recursive))
  {
    var uri := RequestUri(endpoint, recursive);
    if recursive {
      assert uri[|uri| - 1] == 'l';
      assert uri[|uri| - |RecursiveSuffix|..] == RecursiveSuffix;
      if |uri| >= |NonRecursiveSuffix| {
        assert uri[|uri| - |NonRecursiveSuffix|..][|NonRecursiveSuffix| - 1] == 'l';
      }
    } else {
      assert uri[|uri| - |NonRecursiveSuffix|..] == NonRecursiveSuffix;
    }
  }

  /** Distinct (endpoint, flag) pairs never share a request URI. */
  lemma RequestUriInjective(e1: string, r1: bool, e2: string, r2: bool)
    requires RequestUri(e1, r1) == RequestUri(e2, r2)
    ensures e1 == e2 && r1 == r2
  {
    ParseRequestUriInverts(e1, r1);
    ParseRequestUriInverts(e2, r2);
  }

  /** The outcome of one GET request: a reply with its status code, whether
      the response object is truthy (the HTTP library's success flag) and its
      body; or a failure of the transport itself (connection error, timeout),
      which the HTTP library raises as an exception. */
  datatype Response =
    | Reply(statusCode: int, ok: bool, content: string)
    | TransportFailure(reason: string)

  /** The transport: the response to the request at position `n` of this pull
      (counting from 0), issued to the given URI. Indexing by position lets two
      requests to the same URI get different responses. */
  type Transport = (nat, string) -> Response

  /** The body of a reply; a transport failure has none. */
  function Body(resp: Response): string {
    if resp.Reply? then resp.content else ""
  }

  /** A response that `pull` goes on to read into the document. */
  predicate Accepted(resp: Response) {
    resp.Reply? && resp.ok && resp.statusCode != 404 && resp.statusCode != 401
  }

  /** The checks of `pull` on one response: a transport failure propagates as
      the library's exception; a reply is checked for 404, then 401, then
      falsiness; `None` means the reply is read. */
  function CheckResponse(uri: string, resp: Response): (r: Option<Error>)
    ensures r.None? <==> Accepted(resp)
    ensures resp.TransportFailure? ==> r == Some(RequestFailed(resp.reason))
    ensures resp.Reply? && r.Some? ==> IsSbolError(r.value)
    ensures resp.Reply? && resp.statusCode == 404 <==> r == Some(PartNotFound(uri))
    ensures resp.Reply? && resp.statusCode == 401 <==> r == Some(Unauthorized)
    ensures r.Some? && IsSbolError(r.value) && Code(r.value) == BadHttpRequest <==>
              resp.Reply? && resp.statusCode != 404 && resp.statusCode != 401 && !resp.ok
  {
    match resp
    case TransportFailure(reason) => Some(RequestFailed(reason))
    case Reply(status, ok, _) =>
      if status == 404 then Some(PartNotFound(uri))
      else if status == 401 then Some(Unauthorized)
      else if !ok then Some(BadRequest(status))
      else None
  }

  /** The part of a Document a pull touches: the bodies passed to
      `readString`, in call order (not the Document's parsed contents), and its
      set of resource namespaces. `readString` is taken never to raise and never
      to change the namespaces. */
  datatype Document = Document(loaded: seq<string>, resourceNamespaces: set<string>)

  /** `doc.readString(content)` followed by adding the shop's resource to the namespaces. */
  function Absorb(doc: Document, resource: string, content: string): Document
  {
    Document(doc.loaded + [content], doc.resourceNamespaces + {resource})
  }

  /** The namespaces `n` read replies add to a document: the shop's resource, once any reply was read. */
  function NamespacesAdded(resource: string, n: nat): set<string>
  {
    if n == 0 then {} else {resource}
  }

  /** The bodies of the replies to the requests `uris`, issued in order from position 0. */
  function Contents(uris: seq<string>, fetch: Transport): (r: seq<string>)
    ensures |r| == |uris|
    ensures forall j :: 0 <= j < |uris| ==> r[j] == Body(fetch(j, uris[j]))
  {
    if |uris| == 0 then [] else Contents(uris[..|uris| - 1], fetch) + [Body(fetch(|uris| - 1, uris[|uris| - 1]))]
  }

  /** `d` is `doc` after reading the replies to `requested`, in order. */
  predicate ReadSoFar(doc: Document, d: Document, requested: seq<string>, resource: string, fetch: Transport)
  {
    && d.loaded == doc.loaded + Contents(requested, fetch)
    && d.resourceNamespaces == doc.resourceNamespaces + NamespacesAdded(resource, |requested|)
  }

  /** Reading one more reply extends the record by that reply. */
  lemma ReadStep(doc: Document, d: Document, requested: seq<string>, uri: string, resource: string,
                 fetch: Transport)
    requires ReadSoFar(doc, d, requested, resource, fetch)
    ensures ReadSoFar(doc, Absorb(d, resource, Body(fetch(|requested|, uri))), requested + [uri], resource, fetch)
  {
  }

  /** What `pull` leaves behind: the document (changed in place, so the
      `readString` calls before a later failure are not undone), the request URIs issued in
      order, and the error that ended it, if any. */
  datatype PullOutcome = PullOutcome(doc: Document, requested: seq<string>, error: Option<Error>)

  /** The requests whose replies were read into the document. */
  function Absorbed(r: PullOutcome): (a: seq<string>)
    ensures |a| <= |r.requested|
  {
    if r.error.Some? && |r.requested| > 0 then r.requested[..|r.requested| - 1] else r.requested
  }

  /** `r` is what the loop of `pull` over `endpoints` leaves: one request per
      endpoint, in list order, until the first reply that is not accepted; the
      accepted replies are read into the document in order; a failing reply
      ends the pull with its error. */
  predicate IsPullOutcome(shop: Shop, endpoints: seq<string>, doc: Document, recursive: bool,
                          fetch: Transport, r: PullOutcome)
  {
    && |r.requested| <= |endpoints|
    && (forall j :: 0 <= j < |r.requested| ==> r.requested[j] == RequestUri(endpoints[j], recursive))
    && (r.error.None? ==> |r.requested| == |endpoints|)
    && (r.error.Some? ==>
          && |r.requested| > 0
          && r.error == CheckResponse(r.requested[|r.requested| - 1],
                                  fetch(|r.requested| - 1, r.requested[|r.requested| - 1])))
    && (forall j :: 0 <= j < |Absorbed(r)| ==> Accepted(fetch(j, Absorbed(r)[j])))
    && ReadSoFar(doc, r.doc, Absorbed(r), shop.resource, fetch)
  }

  /** The loop state after `|requested|` accepted endpoints. */
  predicate LoopState(shop: Shop, endpoints: seq<string>, doc: Document, recursive: bool,
                      fetch: Transport, d: Document, requested: seq<string>)
  {
    && |requested| <= |endpoints|
    && (forall j :: 0 <= j < |requested| ==> requested[j] == RequestUri(endpoints[j], recursive))
    && (forall j :: 0 <= j < |requested| ==> Accepted(fetch(j, requested[j])))
    && ReadSoFar(doc, d, requested, shop.resource, fetch)
  }

  /** A rejected reply to the next endpoint ends the pull with its error. */
  lemma StopAtRejected(shop: Shop, endpoints: seq<string>, doc: Document, recursive: bool,
                       fetch: Transport, d: Document, requested: seq<string>)
    requires LoopState(shop, endpoints, doc, recursive, fetch, d, requested)
    requires |requested| < |endpoints|
    requires !Accepted(fetch(|requested|, RequestUri(endpoints[|requested|], recursive)))
    ensures var uri := RequestUri(endpoints[|requested|], recursive);
            IsPullOutcome(shop, endpoints, doc, recursive, fetch,
                          PullOutcome(d, requested + [uri], CheckResponse(uri, fetch(|requested|, uri))))
  {
  }

  /** An accepted reply to the next endpoint is read and the loop moves on. */
  lemma ContinueAfterAccepted(shop: Shop, endpoints: seq<string>, doc: Document, recursive: bool,
                              fetch: Transport, d: Document, requested: seq<string>)
    requires LoopState(shop, endpoints, doc, recursive, fetch, d, requested)
    requires |requested| < |endpoints|
    requires Accepted(fetch(|requested|, RequestUri(endpoints[|requested|], recursive)))
    ensures var uri := RequestUri(endpoints[|requested|], recursive);
            LoopState(shop, endpoints, doc, recursive, fetch,
                      Absorb(d, shop.resource, Body(fetch(|requested|, uri))), requested + [uri])
  {
  }

  /** The loop of `pull` over an endpoint list. */
  method PullEndpoints(shop: Shop, endpoints: seq<string>, doc: Document, recursive: bool, fetch: Transport)
    returns (r: PullOutcome)
    ensures IsPullOutcome(shop, endpoints, doc, recursive, fetch, r)
  {
    var d := doc;
    var requested: seq<string> := [];
    while |requested| < |endpoints|
      invariant LoopState(shop, endpoints, doc, recursive, fetch, d, requested)
      decreases |endpoints| - |requested|
    {
      var uri := RequestUri(endpoints[|requested|], recursive);
      var resp := fetch(|requested|, uri);
      var check := CheckResponse(uri, resp);
      if check.Some? {
        StopAtRejected(shop, endpoints, doc, recursive, fetch, d, requested);
        return PullOutcome(d, requested + [uri], check);
      }
      ContinueAfterAccepted(shop, endpoints, doc, recursive, fetch, d, requested);
      d := Absorb(d, shop.resource, Body(resp));
      requested := requested + [uri];
    }
    r := PullOutcome(d, requested, None);
  }

  /** `shop.pull(uris, doc, recursive)`: the argument's type is checked before
      any request is issued. */
  method Pull(shop: Shop, uris: UrisArgument, doc: Document, recursive: bool, fetch: Transport)
    returns (r: PullOutcome)
    ensures uris.OtherType? ==> r == PullOutcome(doc, [], Some(UrisTypeError(uris.typeName)))
    ensures uris.Single? ==> 0 < |r.requested| <= 1 && r.requested[0] == RequestUri(uris.uri, recursive)
    ensures uris.Many? ==>
              (|r.requested| <= |uris.uris| &&
               forall j :: 0 <= j < |r.requested| ==> r.requested[j] == RequestUri(uris.uris[j], recursive))
    ensures r.error.None? ==> !uris.OtherType? && |r.requested| == |Endpoints(uris).value|
    ensures !uris.OtherType? ==> IsPullOutcome(shop, Endpoints(uris).value, doc, recursive, fetch, r)
    ensures forall j :: 0 <= j < |Absorbed(r)| ==> Accepted(fetch(j, Absorbed(r)[j]))
    ensures r.doc.loaded == doc.loaded + Contents(Absorbed(r), fetch)
    ensures |Absorbed(r)| > 0 ==> shop.resource in r.doc.resourceNamespaces
    ensures |Absorbed(r)| == 0 ==> r.doc == doc
  {
    var endpoints := Endpoints(uris);
    if endpoints.Failure? {
      return PullOutcome(doc, [], Some(endpoints.error));
    }
    r := PullEndpoints(shop, endpoints.value, doc, recursive, fetch);
  }

  /** `shop.pull(uris, doc)`: `recursive` defaults to true, so every request
      URI ends in `/sbol`. */
  method PullWithDefaults(shop: Shop, uris: UrisArgument, doc: Document, fetch: Transport)
    returns (r: PullOutcome)
    ensures uris.OtherType? ==> r == PullOutcome(doc, [], Some(UrisTypeError(uris.typeName)))
    ensures !uris.OtherType? ==> IsPullOutcome(shop, Endpoints(uris).value, doc, true, fetch, r)
    ensures forall j :: 0 <= j < |r.requested| ==>
              (|r.requested[j]| >= |RecursiveSuffix| &&
               r.requested[j][|r.requested[j]| - |RecursiveSuffix|..] == RecursiveSuffix)
  {
    r := Pull(shop, uris, doc, true, fetch);
  }

  /** Every request is sent afresh: pulling the same endpoint twice may read
      the first reply and then fail on the second. */
  lemma RepeatedEndpointCanFailLater(shop: Shop, a: string, doc: Document, body: string)
    ensures var uri := RequestUri(a, true);
            var fetch: Transport := (n: nat, u: string) => if n == 0 then Reply(200, true, body) else Reply(404, false, "");
            IsPullOutcome(shop, [a, a], doc, true, fetch,
                          PullOutcome(Absorb(doc, shop.resource, body), [uri, uri], Some(PartNotFound(uri))))
  {
  }
}
