/** Cookie-session authentication: the `AuthInset` of rexsl-page.

    An inset holds the current request, a security key and salt, and a set
    of authentication providers. Resolving the identity walks the providers;
    the first one that reports a non-anonymous identity ends the request with
    a 303 redirect that carries a fresh `Rexsl-Auth` cookie, a provider I/O
    failure ends it with an illegal-state failure, and when every provider is
    anonymous the identity is recovered from the `Rexsl-Auth` cookie of the
    request (a cookie that does not decrypt is logged and yields anonymous).
    Rendering then adds login links or the identity to the page, and a
    `rexsl-logout` query flag ends the request with a redirect that clears the
    cookie.

    The exceptions the source throws to abort rendering are typed outcomes
    here (`Abort`), and the cipher behind the cookie value is a pair of
    functions (`Codec`) that the model does not interpret. */
module Auth {
  import opened Wrappers
  import opened Web

  const AUTH_COOKIE := "Rexsl-Auth"
  const LOGOUT_FLAG := "rexsl-logout"
  const IDENTITY_HEADER := "X-Rexsl-Identity"
  const LOGOUT_REL := "auth-logout"
  /** HTTP 303 "see other" (section 6.4.4 of RFC 7231). */
  const SEE_OTHER: nat := 303

  /** A resolved principal, or the distinguished anonymous identity. */
  datatype Identity = Anonymous | Known(urn: string, name: string, photo: string)

  /** What a provider's `identity()` gives for the current request. */
  datatype Reply = Answered(identity: Identity) | IoFailure(cause: string)

  /** A registered provider: which object it is, what its `identity()` gives
      for this request and what its `link()` advertises. */
  datatype Provider = Provider(id: nat, reply: Reply, login: Link)

  /** What decrypting a cookie value gives. */
  datatype Decryption = Decrypted(identity: Identity) | DecryptionFailure(cause: string)

  /** The `Encrypted` cipher: `seal` renders an identity as cookie text under a
      key and salt, `open` parses such text back. Neither is interpreted. */
  datatype Codec = Codec(
    seal: (Identity, string, string) -> string,
    open: (string, string, string) -> Decryption)

  /** The warning logged when the cookie does not decrypt. */
  datatype Warning = DecryptFailed(cookie: string, remoteAddr: string, requestUri: string, cause: string)

  /** The exceptions that abort the request: a `WebApplicationException`
      holding a redirect, or an `IllegalStateException`. */
  datatype Abort = Redirect(status: nat, location: Uri, cookie: Cookie) | IllegalState(cause: string)

  /** What `identity()` does: returns an identity (possibly after logging a
      warning) or aborts. */
  datatype Resolution = Resolved(identity: Identity, warning: Option<Warning>) | Aborted(abort: Abort)

  /** What `render()` does: returns normally or aborts. */
  datatype Outcome = Rendered | Interrupted(abort: Abort)

  /** The verdict of walking the providers. */
  datatype Scan = NoneSignedIn | SignedIn(identity: Identity) | ProviderFailed(cause: string)

  // ---------------------------------------------------------------------
  // The cookie

  /** `AuthInset.encrypt`: the text of `Encrypted(identity, key, salt)`. */
  function Encrypt(codec: Codec, identity: Identity, key: string, salt: string): string
  {
    codec.seal(identity, key, salt)
  }

  /** `cookie(identity)`: the temporary `Rexsl-Auth` cookie whose value is the
      encrypted identity. */
  function AuthCookie(req: Request, codec: Codec, key: string, salt: string, identity: Identity): (c: Cookie)
    ensures c.name == AUTH_COOKIE && c.temporary
    ensures c.value == Some(Encrypt(codec, identity, key, salt))
  {
    Cookie(AUTH_COOKIE, Some(Encrypt(codec, identity, key, salt)), true, req.baseUri)
  }

  /** The cookie of the logout redirect: named `Rexsl-Auth`, with no value. */
  function LogoutCookie(req: Request): (c: Cookie)
    ensures c.name == AUTH_COOKIE && c.value == None
  {
    Cookie(AUTH_COOKIE, None, false, req.baseUri)
  }

  /** The assumption, not proved here, that the cipher recovers what it sealed. */
  ghost predicate RoundTrips(codec: Codec, key: string, salt: string)
  {
    forall id: Identity :: id != Anonymous ==> codec.open(codec.seal(id, key, salt), key, salt) == Decrypted(id)
  }

  // ---------------------------------------------------------------------
  // Resolution

  /** The iteration order of the provider set: every provider exactly once. */
  predicate Enumerates(order: seq<Provider>, providers: set<Provider>)
  {
    && (forall i, j :: 0 <= i < j < |order| ==> order[i] != order[j])
    && (set p | p in order) == providers
  }

  /** A reply that ends the walk: anything but an anonymous answer. */
  predicate Decisive(r: Reply)
  {
    r != Answered(Anonymous)
  }

  /** Provider `k` is the first one in `order` whose reply ends the walk. */
  predicate FirstDecisive(order: seq<Provider>, k: int)
  {
    && 0 <= k < |order|
    && Decisive(order[k].reply)
    && forall j :: 0 <= j < k ==> !Decisive(order[j].reply)
  }

  /** The verdict a decisive reply leads to. */
  function Verdict(r: Reply): Scan
  {
    match r
    case IoFailure(cause) => ProviderFailed(cause)
    case Answered(id) => if id == Anonymous then NoneSignedIn else SignedIn(id)
  }

  /** The provider loop of `identity()`, one provider at a time. */
  function ScanProviders(order: seq<Provider>): Scan
  {
    if order == [] then NoneSignedIn
    else if Decisive(order[0].reply) then Verdict(order[0].reply)
    else ScanProviders(order[1..])
  }

  /** The cookie lookup of `identity()`, once every provider was anonymous. */
  function FromCookie(req: Request, codec: Codec, key: string, salt: string): Resolution
  {
    if AUTH_COOKIE in req.cookies then
      var value := req.cookies[AUTH_COOKIE];
      match codec.open(value, key, salt)
      case Decrypted(id) => Resolved(id, None)
      case DecryptionFailure(cause) =>
        Resolved(Anonymous, Some(DecryptFailed(value, req.remoteAddr, req.path, cause)))
    else
      Resolved(Anonymous, None)
  }

  /** What `identity()` does when the providers are visited in `order`. */
  function Resolve(req: Request, codec: Codec, key: string, salt: string, order: seq<Provider>): Resolution
  {
    match ScanProviders(order)
    case ProviderFailed(cause) => Aborted(IllegalState(cause))
    case SignedIn(id) => Aborted(Redirect(SEE_OTHER, WithoutQuery(req.uri), AuthCookie(req, codec, key, salt, id)))
    case NoneSignedIn => FromCookie(req, codec, key, salt)
  }

  /** The walk gets past every provider exactly when none of them is decisive. */
  lemma {:induction false} ScanNoneSignedIn(order: seq<Provider>)
    ensures ScanProviders(order) == NoneSignedIn <==> forall i :: 0 <= i < |order| ==> !Decisive(order[i].reply)
  {
    if order != [] {
      ScanNoneSignedIn(order[1..]);
      if !Decisive(order[0].reply) {
        forall i | 0 <= i < |order| && i != 0 ensures order[i] == order[1..][i - 1] { }
      }
    }
  }

  /** The first decisive provider decides the walk. */
  lemma {:induction false} ScanFirstDecisive(order: seq<Provider>, k: int)
    requires FirstDecisive(order, k)
    ensures ScanProviders(order) == Verdict(order[k].reply)
    decreases k
  {
    if k > 0 {
      assert !Decisive(order[0].reply);
      assert FirstDecisive(order[1..], k - 1) by {
        forall j | 0 <= j < k - 1 ensures !Decisive(order[1..][j].reply) {
          assert order[1..][j] == order[j + 1];
        }
      }
      ScanFirstDecisive(order[1..], k - 1);
    }
  }

  /** Once a provider is decisive, the providers after it are never consulted:
      replacing them changes nothing. */
  lemma ScanIgnoresLaterProviders(before: seq<Provider>, p: Provider, after: seq<Provider>, after': seq<Provider>)
    requires forall j :: 0 <= j < |before| ==> !Decisive(before[j].reply)
    requires Decisive(p.reply)
    ensures ScanProviders(before + [p] + after) == ScanProviders(before + [p] + after') == Verdict(p.reply)
  {
    var o, o' := before + [p] + after, before + [p] + after';
    assert FirstDecisive(o, |before|) by {
      forall j | 0 <= j < |before| ensures o[j] == before[j] { }
    }
    assert FirstDecisive(o', |before|) by {
      forall j | 0 <= j < |before| ensures o'[j] == before[j] { }
    }
    ScanFirstDecisive(o, |before|);
    ScanFirstDecisive(o', |before|);
  }

  /** The first provider with a non-anonymous identity ends resolution with a
      303 redirect to the request URI with an empty query, carrying the cookie
      that encrypts exactly that identity. */
  lemma FirstSignInRedirects(req: Request, codec: Codec, key: string, salt: string, order: seq<Provider>, k: int, id: Identity)
    requires FirstDecisive(order, k) && order[k].reply == Answered(id)
    ensures id != Anonymous
    ensures Resolve(req, codec, key, salt, order)
         == Aborted(Redirect(SEE_OTHER, Uri(req.uri.location, []), AuthCookie(req, codec, key, salt, id)))
    ensures AuthCookie(req, codec, key, salt, id).value == Some(Encrypt(codec, id, key, salt))
  {
    ScanFirstDecisive(order, k);
  }

  /** A provider I/O failure before any sign-in is never skipped: it is fatal. */
  lemma ProviderFailureIsFatal(req: Request, codec: Codec, key: string, salt: string, order: seq<Provider>, k: int, cause: string)
    requires FirstDecisive(order, k) && order[k].reply == IoFailure(cause)
    ensures Resolve(req, codec, key, salt, order) == Aborted(IllegalState(cause))
  {
    ScanFirstDecisive(order, k);
  }

  /** All providers anonymous and no `Rexsl-Auth` cookie: anonymous, nothing logged. */
  lemma AnonymousWithoutCookie(req: Request, codec: Codec, key: string, salt: string, order: seq<Provider>)
    requires forall i :: 0 <= i < |order| ==> order[i].reply == Answered(Anonymous)
    requires AUTH_COOKIE !in req.cookies
    ensures Resolve(req, codec, key, salt, order) == Resolved(Anonymous, None)
  {
    ScanNoneSignedIn(order);
  }

  /** All providers anonymous and a `Rexsl-Auth` cookie: the decrypted identity,
      or anonymous with a warning naming the cookie, the remote address and the
      request path when decryption fails; it never aborts. */
  lemma IdentityFromCookie(req: Request, codec: Codec, key: string, salt: string, order: seq<Provider>)
    requires forall i :: 0 <= i < |order| ==> order[i].reply == Answered(Anonymous)
    requires AUTH_COOKIE in req.cookies
    ensures var value := req.cookies[AUTH_COOKIE];
            Resolve(req, codec, key, salt, order)
            == match codec.open(value, key, salt)
               case Decrypted(id) => Resolved(id, None)
               case DecryptionFailure(cause) =>
                 Resolved(Anonymous, Some(DecryptFailed(value, req.remoteAddr, req.path, cause)))
  {
    ScanNoneSignedIn(order);
  }

  /** A non-anonymous identity is only ever returned from the cookie: an
      identity a provider reports is accepted through the redirect, never
      directly. */
  lemma {:induction false} ResolvedOnlyFromCookie(req: Request, codec: Codec, key: string, salt: string, order: seq<Provider>)
    requires Resolve(req, codec, key, salt, order).Resolved?
    ensures forall i :: 0 <= i < |order| ==> order[i].reply == Answered(Anonymous)
    ensures var id := Resolve(req, codec, key, salt, order).identity;
            id != Anonymous ==>
              AUTH_COOKIE in req.cookies && codec.open(req.cookies[AUTH_COOKIE], key, salt) == Decrypted(id)
  {
    ScanNoneSignedIn(order);
  }

  /** When every registered provider is anonymous the iteration order of the
      provider set does not matter. */
  lemma OrderIrrelevantWhenAnonymous(req: Request, codec: Codec, key: string, salt: string,
                                     providers: set<Provider>, o1: seq<Provider>, o2: seq<Provider>)
    requires Enumerates(o1, providers) && Enumerates(o2, providers)
    requires forall p :: p in providers ==> p.reply == Answered(Anonymous)
    ensures Resolve(req, codec, key, salt, o1) == Resolve(req, codec, key, salt, o2)
  {
    ScanNoneSignedIn(o1);
    ScanNoneSignedIn(o2);
    assert forall i :: 0 <= i < |o1| ==> o1[i] in providers;
    assert forall i :: 0 <= i < |o2| ==> o2[i] in providers;
  }

  /** Login followed by the next request: if the cipher round-trips, the
      cookie set by the login redirect makes the next request (with all
      providers anonymous) resolve to the identity that signed in. */
  lemma LoginCookieRestoresIdentity(req: Request, codec: Codec, key: string, salt: string,
                                    order: seq<Provider>, k: int, id: Identity,
                                    next: Request, nextOrder: seq<Provider>)
    requires RoundTrips(codec, key, salt)
    requires FirstDecisive(order, k) && order[k].reply == Answered(id)
    requires forall i :: 0 <= i < |nextOrder| ==> nextOrder[i].reply == Answered(Anonymous)
    requires Resolve(req, codec, key, salt, order).Aborted?
    requires var a := Resolve(req, codec, key, salt, order).abort;
             a.Redirect? && a.cookie.value.Some? && next.cookies == req.cookies[AUTH_COOKIE := a.cookie.value.value]
    ensures Resolve(next, codec, key, salt, nextOrder) == Resolved(id, None)
  {
    FirstSignInRedirects(req, codec, key, salt, order, k, id);
    ScanNoneSignedIn(nextOrder);
    assert next.cookies[AUTH_COOKIE] == codec.seal(id, key, salt);
  }

  // ---------------------------------------------------------------------
  // Rendering

  /** One login link per provider, in iteration order. */
  function LoginLinks(order: seq<Provider>): (items: seq<PageItem>)
    ensures |items| == |order|
    ensures forall i :: 0 <= i < |order| ==> items[i] == LinkItem(order[i].login)
  {
    if order == [] then []
    else LoginLinks(order[..|order| - 1]) + [LinkItem(order[|order| - 1].login)]
  }

  /** The value of the first field named `n`, if any: how a reader of the
      page finds a field of a bundle. */
  function FieldValue(fields: seq<Field>, n: string): Option<string>
  {
    if fields == [] then None
    else if fields[0].name == n then Some(fields[0].value)
    else FieldValue(fields[1..], n)
  }

  /** The `identity` bundle with the urn, name and photo of a known identity. */
  function IdentityBundle(id: Identity): (b: PageItem)
    requires id.Known?
    ensures b.Bundle? && b.name == "identity" && |b.fields| == 3
    ensures FieldValue(b.fields, "urn") == Some(id.urn)
    ensures FieldValue(b.fields, "name") == Some(id.name)
    ensures FieldValue(b.fields, "photo") == Some(id.photo)
  {
    var fields := [Field("urn", id.urn), Field("name", id.name), Field("photo", id.photo)];
    assert FieldValue(fields[2..], "photo") == Some(id.photo);
    assert fields[1..][1..] == fields[2..];
    Bundle("identity", fields)
  }

  /** The logout link: the request URI with `rexsl-logout=true` added. */
  function LogoutLink(u: Uri): (l: Link)
    ensures l.rel == LOGOUT_REL && HasParam(l.href, LOGOUT_FLAG)
    ensures WithoutQuery(l.href) == WithoutQuery(u)
    ensures |l.href.query| == |u.query| + 1 && l.href.query[..|u.query|] == u.query
    ensures l.href.query[|u.query|] == Param(LOGOUT_FLAG, "true")
  {
    WithParamHasParam(u, LOGOUT_FLAG, "true");
    Link(LOGOUT_REL, WithParam(u, LOGOUT_FLAG, "true"))
  }

  class AuthInset {
    const resource: Request
    const key: string
    const salt: string
    const codec: Codec
    var providers: set<Provider>

    constructor (res: Request, sec: string, slt: string, cipher: Codec)
      ensures resource == res && key == sec && salt == slt && codec == cipher && providers == {}
    {
      resource, key, salt, codec := res, sec, slt, cipher;
      providers := {};
    }

    /** Lombok equality: resource, key and salt only, never the providers. */
    predicate Equals(other: AuthInset)
    {
      resource == other.resource && key == other.key && salt == other.salt
    }

    /** `with(prov)`: adds to the provider set and returns this same inset. */
    method With(prov: Provider) returns (self: AuthInset)
      modifies this
      ensures self == this
      ensures providers == old(providers) + {prov}
      ensures prov in old(providers) ==> providers == old(providers)
    {
      providers := providers + {prov};
      self := this;
    }

    /** `identity()`: the provider loop, then the cookie lookup. */
    method ResolveIdentity(order: seq<Provider>) returns (res: Resolution)
      requires Enumerates(order, providers)
      ensures res == Resolve(resource, codec, key, salt, order)
    {
      var identity := Anonymous;
      var i := 0;
      while i < |order|
        invariant 0 <= i <= |order|
        invariant ScanProviders(order[i..]) == ScanProviders(order)
        invariant identity == Anonymous
      {
        match order[i].reply {
          case IoFailure(cause) =>
            return Aborted(IllegalState(cause));
          case Answered(id) =>
            identity := id;
        }
        if identity != Anonymous {
          return Aborted(Redirect(SEE_OTHER, WithoutQuery(resource.uri), AuthCookie(resource, codec, key, salt, identity)));
        }
        assert order[i..][1..] == order[i + 1..];
        i := i + 1;
      }
      var warning := None;
      if AUTH_COOKIE in resource.cookies {
        var cookie := resource.cookies[AUTH_COOKIE];
        match codec.open(cookie, key, salt) {
          case Decrypted(id) =>
            identity := id;
          case DecryptionFailure(cause) =>
            warning := Some(DecryptFailed(cookie, resource.remoteAddr, resource.path, cause));
        }
      }
      res := Resolved(identity, warning);
    }

    /** `render(page, builder)`. */
    method Render(page: Page, builder: ResponseBuilder, order: seq<Provider>) returns (outcome: Outcome)
      requires Enumerates(order, providers)
      modifies page, builder
      ensures match Resolve(resource, codec, key, salt, order)
              case Aborted(a) =>
                && outcome == Interrupted(a)
                && page.items == old(page.items)
                && builder.directives == old(builder.directives)
              case Resolved(id, _) =>
                && (id == Anonymous ==>
                      && page.items == old(page.items) + LoginLinks(order)
                      && builder.directives == old(builder.directives))
                && (id != Anonymous ==>
                      && page.items == old(page.items) + [IdentityBundle(id), LinkItem(LogoutLink(resource.uri))]
                      && builder.directives == old(builder.directives)
                           + [CookieSet(AuthCookie(resource, codec, key, salt, id)), HeaderSet(IDENTITY_HEADER, id.urn)])
                && outcome == if HasParam(resource.uri, LOGOUT_FLAG)
                              then Interrupted(Redirect(SEE_OTHER, WithoutQuery(resource.uri), LogoutCookie(resource)))
                              else Rendered
      ensures outcome.Interrupted? && outcome.abort.Redirect? ==> !HasParam(outcome.abort.location, LOGOUT_FLAG)
    {
      var res := ResolveIdentity(order);
      if res.Aborted? {
        return Interrupted(res.abort);
      }
      var identity := res.identity;
      if identity == Anonymous {
        var i := 0;
        while i < |order|
          invariant 0 <= i <= |order|
          invariant page.items == old(page.items) + LoginLinks(order[..i])
          invariant builder.directives == old(builder.directives)
        {
          page.AddLink(order[i].login);
          assert order[..i + 1][..i] == order[..i];
          i := i + 1;
        }
        assert order[..i] == order;
      } else {
        page.Append(IdentityBundle(identity));
        page.AddLink(LogoutLink(resource.uri));
        builder.AddCookie(AuthCookie(resource, codec, key, salt, identity));
        builder.AddHeader(IDENTITY_HEADER, identity.urn);
      }
      if HasParam(resource.uri, LOGOUT_FLAG) {
        outcome := Interrupted(Redirect(SEE_OTHER, WithoutQuery(resource.uri), LogoutCookie(resource)));
      } else {
        outcome := Rendered;
      }
    }
  }
}
