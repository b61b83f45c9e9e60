/** The request middleware: every page view outside the API and the static
    assets is recorded as a visit with the visitor's IP, taken from the
    first proxy header that has one, before the page is served. A failing
    insert is only logged: the page is served whatever happens. */
module Middleware {
  import opened Common

  const UNKNOWN_ADDRESS: string := "desconocida"

  /** Paths that are passed straight on: the API, Astro's internals, the
      style and image folders, and files with a static-asset extension. */
  predicate Untracked(path: string) {
    StartsWith(path, "/api/") || StartsWith(path, "/_") || StartsWith(path, "/styles/") ||
    StartsWith(path, "/images/") || EndsWith(path, ".css") || EndsWith(path, ".js") ||
    EndsWith(path, ".svg") || EndsWith(path, ".png") || EndsWith(path, ".jpg") || EndsWith(path, ".ico")
  }

  /** Outside a folder, a path is outside it once rooted. */
  lemma OutsideFolder(name: string, folder: string)
    requires !StartsWith(name, folder)
    ensures !StartsWith("/" + name, "/" + folder)
  {
    if |folder| <= |name| {
      assert ("/" + name)[..|folder| + 1][1..] == name[..|folder|];
      assert ("/" + folder)[1..] == folder;
    }
  }

  /** A path without a dot has no file extension. */
  lemma NoExtension(p: string, ext: string)
    requires forall i :: 0 <= i < |p| ==> p[i] != '.'
    requires |ext| > 0 && ext[0] == '.'
    ensures !EndsWith(p, ext)
  {
    if |ext| <= |p| {
      assert p[|p| - |ext|..][0] == p[|p| - |ext|];
    }
  }

  /** A page path in the shop's own form is tracked: a slash, then a name
      that does not start with '_' nor with one of the skipped folders, and
      that has no dot (so no file extension). */
  lemma PagesTracked(name: string)
    requires name == "" || name[0] != '_'
    requires forall i :: 0 <= i < |name| ==> name[i] != '.'
    requires !StartsWith(name, "api/") && !StartsWith(name, "styles/") && !StartsWith(name, "images/")
    ensures !Untracked("/" + name)
  {
    var p := "/" + name;
    forall i | 1 <= i < |p|
      ensures p[i] == name[i - 1]
    {
    }
    OutsideFolder(name, "api/");
    OutsideFolder(name, "styles/");
    OutsideFolder(name, "images/");
    OutsideFolder(name, "_");
    NoExtension(p, ".css");
    NoExtension(p, ".js");
    NoExtension(p, ".svg");
    NoExtension(p, ".png");
    NoExtension(p, ".jpg");
    NoExtension(p, ".ico");
  }

  /** Everything under the API and every file with a skipped extension is
      left alone, whatever comes before the extension. */
  lemma AssetsUntracked(rest: string)
    ensures Untracked("/api/" + rest) && Untracked("/_" + rest)
    ensures Untracked(rest + ".css") && Untracked(rest + ".js") && Untracked(rest + ".ico")
    ensures Untracked(rest + ".png") && Untracked(rest + ".jpg") && Untracked(rest + ".svg")
  {
    assert ("/api/" + rest)[..5] == "/api/";
    assert ("/_" + rest)[..2] == "/_";
    assert (rest + ".css")[|rest|..] == ".css";
    assert (rest + ".js")[|rest|..] == ".js";
    assert (rest + ".ico")[|rest|..] == ".ico";
    assert (rest + ".png")[|rest|..] == ".png";
    assert (rest + ".jpg")[|rest|..] == ".jpg";
    assert (rest + ".svg")[|rest|..] == ".svg";
  }

  /** The request headers the middleware reads; an absent header is None. */
  datatype Headers = Headers(
    cfConnectingIp: Option<string>, xRealIp: Option<string>, xForwardedFor: Option<string>,
    xClientIp: Option<string>, trueClientIp: Option<string>, userAgent: Option<string>, referer: Option<string>)

  /** `headers.get('x-forwarded-for')?.split(',')[0]?.trim()`: the first
      address of the list. */
  function ForwardedClient(h: Headers): (r: Option<string>)
    ensures h.xForwardedFor.None? ==> r.None?
    ensures h.xForwardedFor.Some? ==> r == Some(Trim(BeforeFirst(h.xForwardedFor.value, ',')))
  {
    if h.xForwardedFor.Some? then Some(Trim(BeforeFirst(h.xForwardedFor.value, ','))) else None
  }

  /** The IP recorded for the visit: the first non-empty of the proxy
      headers, in their order of reliability, else the socket address
      (`clientAddr`, already defaulted). */
  function ClientIp(h: Headers, clientAddr: string): (ip: string)
    ensures clientAddr != "" ==> ip != ""
    ensures NonEmpty(h.cfConnectingIp).Some? ==> ip == h.cfConnectingIp.value
    ensures NonEmpty(h.cfConnectingIp).None? && NonEmpty(h.xRealIp).Some? ==> ip == h.xRealIp.value
    ensures (NonEmpty(h.cfConnectingIp).None? && NonEmpty(h.xRealIp).None? && NonEmpty(ForwardedClient(h)).Some?) ==>
              ip == ForwardedClient(h).value
    ensures (NonEmpty(h.cfConnectingIp).None? && NonEmpty(h.xRealIp).None? && NonEmpty(ForwardedClient(h)).None? &&
             NonEmpty(h.xClientIp).Some?) ==> ip == h.xClientIp.value
    ensures (NonEmpty(h.cfConnectingIp).None? && NonEmpty(h.xRealIp).None? && NonEmpty(ForwardedClient(h)).None? &&
             NonEmpty(h.xClientIp).None? && NonEmpty(h.trueClientIp).Some?) ==> ip == h.trueClientIp.value
    ensures (NonEmpty(h.cfConnectingIp).None? && NonEmpty(h.xRealIp).None? && NonEmpty(ForwardedClient(h)).None? &&
             NonEmpty(h.xClientIp).None? && NonEmpty(h.trueClientIp).None?) ==> ip == clientAddr
  {
    OrElse(h.cfConnectingIp, OrElse(h.xRealIp, OrElse(ForwardedClient(h), OrElse(h.xClientIp,
      OrElse(h.trueClientIp, Some(clientAddr)))))).value
  }

  /** The chain is the general `a || b || ... || dflt` over the five headers. */
  lemma ClientIpChain(h: Headers, clientAddr: string)
    ensures ClientIp(h, clientAddr) ==
            FirstNonEmpty([h.cfConnectingIp, h.xRealIp, ForwardedClient(h), h.xClientIp, h.trueClientIp], clientAddr)
  {
    var xs := [h.cfConnectingIp, h.xRealIp, ForwardedClient(h), h.xClientIp, h.trueClientIp];
    var x1, x2, x3, x4 := xs[1..], xs[2..], xs[3..], xs[4..];
    assert x1[1..] == x2 && x2[1..] == x3 && x3[1..] == x4 && x4[1..] == [];
    FirstNonEmptyStep(xs, clientAddr);
    FirstNonEmptyStep(x1, clientAddr);
    FirstNonEmptyStep(x2, clientAddr);
    FirstNonEmptyStep(x3, clientAddr);
    FirstNonEmptyStep(x4, clientAddr);
  }

  /** Behind a proxy that only sets `X-Forwarded-For`, the visitor is the
      first address of the list, spaces trimmed. */
  lemma ForwardedForUsed(list: string, ua: Option<string>, ref: Option<string>, clientAddr: string)
    requires Trim(BeforeFirst(list, ',')) != ""
    ensures ClientIp(Headers(None, None, Some(list), None, None, ua, ref), clientAddr) == Trim(BeforeFirst(list, ','))
  {
  }

  /** Without any proxy header the socket address is used. */
  lemma NoProxyHeaders(ua: Option<string>, ref: Option<string>, clientAddr: string)
    ensures ClientIp(Headers(None, None, None, None, None, ua, ref), clientAddr) == clientAddr
  {
  }

  /** The row inserted into `visits`. */
  datatype Visit = Visit(ip: string, page: string, userAgent: string, referer: string)

  /** What one request does besides serving the page: the visit it tries
      to insert and the one stored. */
  datatype Tracking = Tracking(attempted: Option<Visit>, stored: Option<Visit>)

  /** `onRequest`. `clientAddress` is None where reading it throws (a
      prerendered page), `insertOk` the insert's outcome and `next` the
      response of the rest of the chain, which is what every path returns. */
  function OnRequest<R>(path: string, clientAddress: Option<string>, h: Headers, insertOk: bool, next: R)
      : (r: (R, Tracking))
    ensures r.0 == next
    ensures r.1.attempted.Some? <==> !Untracked(path) && clientAddress.Some?
    ensures r.1.stored.Some? <==> r.1.attempted.Some? && insertOk
    ensures r.1.stored.Some? ==> r.1.stored == r.1.attempted
    ensures r.1.attempted.Some? ==>
              var v := r.1.attempted.value;
              v.page == path && v.ip != "" &&
              v.ip == ClientIp(h, OrElse(clientAddress, Some(UNKNOWN_ADDRESS)).value) &&
              v.userAgent == OrElse(h.userAgent, Some("")).value && v.referer == OrElse(h.referer, Some("")).value
  {
    if Untracked(path) || clientAddress.None? then (next, Tracking(None, None))
    else
      var clientAddr := OrElse(clientAddress, Some(UNKNOWN_ADDRESS)).value;
      var visit := Visit(ClientIp(h, clientAddr), path, OrElse(h.userAgent, Some("")).value,
                         OrElse(h.referer, Some("")).value);
      (next, Tracking(Some(visit), if insertOk then Some(visit) else None))
  }
}
