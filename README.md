# rexsl cookie-session authentication and manifest properties, in Dafny

This project models two parts of rexsl.

**`AuthInset`** is the authentication inset of rexsl-page. It is built per request from the request resource, a security key and a salt, and it collects authentication providers with `with()`.

- `identity()` walks the providers:
  - a provider I/O failure is fatal (`IllegalStateException`);
  - the first provider that reports a non-anonymous identity ends the request with a 303 "see other" redirect (section 6.4.4 of RFC 7231) to the request URI with an emptied query, carrying a temporary `Rexsl-Auth` cookie whose value is the encrypted identity;
  - when every provider is anonymous, the `Rexsl-Auth` cookie of the request is decrypted; a cookie that does not decrypt is logged as a warning and gives the anonymous identity.
- `render()` adds to the page and to the response builder:
  - for an anonymous visitor, one login link per provider;
  - for a known one, an `identity` bundle (urn, name, photo), an `auth-logout` link carrying `rexsl-logout=true`, the `Rexsl-Auth` cookie and the `X-Rexsl-Identity` header;
  - when the query carries `rexsl-logout`, it then ends the request with a 303 redirect carrying a value-less `Rexsl-Auth` cookie.

**`Manifests`** of rexsl-core reads the main attributes of every `META-INF/MANIFEST.MF` on the classpath. It merges them in enumeration order, so a later file overrides an earlier one. `read(name)` returns a value or fails with an illegal-argument error.

Files:

- `wrappers.dfy`, module `Wrappers`: the `Option` type the other modules share.
- `web.dfy`, module `Web`: the framework values the inset touches. A URI is a location plus an ordered query. A cookie is a name, an optional value, the temporary flag and the base URI it was built for. The page and the response builder are classes with append-only sequences.
- `auth.dfy`, module `Auth`: the inset.
  - The exceptions used as control flow become typed outcomes: `Resolution` for `identity()` and `Outcome` for `render()`, both carrying an `Abort` (a redirect or an illegal-state failure).
  - A provider is a value: which object it is, what its `identity()` gives for this request (`Answered(identity)` or `IoFailure`) and the link its `link()` advertises.
  - The `Encrypted` cipher is a `Codec`: a pair of functions that the model does not interpret.
  - `AuthInset` is a class whose `providers` set `With` updates. `ResolveIdentity` and `Render` are methods proved against the specification function `Resolve`.
- `manifest.dfy`, module `Manifest`: `LoadOneFile` and `Load` are methods with loops, proved against `Merge` and `AttributesOf`. The class `Manifests` holds the property map as a constant built once, and `Read` is a lookup that cannot change it.

Environment dependencies become parameters. These are the request (`Web.Request`), the iteration order of the provider set (the `order` argument, required to list every provider exactly once), the cipher (`Codec`) and, for the manifests, the outcome of enumerating, opening, parsing and closing each resource (`Resources`, `ManifestUrl`).

## Model

| member | source | states |
|---|---|---|
| `Auth.Encrypt` | rexsl-page/src/main/java/com/rexsl/page/auth/AuthInset.java:115-118 | the static `encrypt` is the text of `Encrypted(identity, key, salt)`; helper used by `AuthCookie` |
| `Auth.AuthCookie` | rexsl-page/src/main/java/com/rexsl/page/auth/AuthInset.java:230-235 | the auth cookie is named `Rexsl-Auth`, is temporary, and its value is exactly what `encrypt(identity, key, salt)` renders |
| `Auth.LogoutCookie` | rexsl-page/src/main/java/com/rexsl/page/auth/AuthInset.java:216-219 | the logout cookie is named `Rexsl-Auth` and carries no value |
| `Auth.ScanNoneSignedIn` | rexsl-page/src/main/java/com/rexsl/page/auth/AuthInset.java:138-154 | the provider loop runs to completion exactly when every provider answers anonymous (both directions) |
| `Auth.ScanFirstDecisive` | rexsl-page/src/main/java/com/rexsl/page/auth/AuthInset.java:139-153 | the first provider in iteration order that fails or answers non-anonymous decides the loop's verdict |
| `Auth.ScanIgnoresLaterProviders` | rexsl-page/src/main/java/com/rexsl/page/auth/AuthInset.java:139-153 | providers after the first decisive one are never consulted: replacing them leaves the verdict unchanged |
| `Auth.FirstSignInRedirects` | rexsl-page/src/main/java/com/rexsl/page/auth/AuthInset.java:145-152 | the first non-anonymous answer ends resolution with a 303 redirect to the request URI with an empty query, whose cookie encrypts that identity |
| `Auth.ProviderFailureIsFatal` | rexsl-page/src/main/java/com/rexsl/page/auth/AuthInset.java:140-144 | a provider I/O failure met before any sign-in is not skipped: resolution aborts with an illegal-state failure carrying its cause |
| `Auth.AnonymousWithoutCookie` | rexsl-page/src/main/java/com/rexsl/page/auth/AuthInset.java:138-172 | all providers anonymous and no `Rexsl-Auth` cookie gives `ANONYMOUS`, with nothing logged |
| `Auth.IdentityFromCookie` | rexsl-page/src/main/java/com/rexsl/page/auth/AuthInset.java:155-172 | all providers anonymous and a cookie present gives the decrypted identity, or `ANONYMOUS` plus a warning with the cookie, remote address and request path when decryption fails; it never aborts |
| `Auth.ResolvedOnlyFromCookie` | rexsl-page/src/main/java/com/rexsl/page/auth/AuthInset.java:137-172 | whenever `identity()` returns, every provider answered anonymous, and a non-anonymous result is what the request's cookie decrypts to |
| `Auth.OrderIrrelevantWhenAnonymous` | rexsl-page/src/main/java/com/rexsl/page/auth/AuthInset.java:139-172 | when every registered provider is anonymous, the iteration order of the provider set does not change the result |
| `Auth.LoginCookieRestoresIdentity` | rexsl-page/src/main/java/com/rexsl/page/auth/AuthInset.java:145-160 | if the cipher round-trips (an explicit assumption), the next request carrying the redirect's cookie, with all providers anonymous, resolves to the identity that signed in |
| `Auth.LoginLinks` | rexsl-page/src/main/java/com/rexsl/page/auth/AuthInset.java:183-186 | exactly one login link per provider, the i-th being the i-th provider's `link()` |
| `Auth.IdentityBundle` | rexsl-page/src/main/java/com/rexsl/page/auth/AuthInset.java:188-196 | the `identity` bundle has three fields, and looking up `urn`, `name` and `photo` in it gives the identity's urn, name and photo |
| `Auth.LogoutLink` | rexsl-page/src/main/java/com/rexsl/page/auth/AuthInset.java:197-205 | the `auth-logout` link targets the request URI with its location and whole query kept and one parameter `rexsl-logout=true` appended |
| `Auth.AuthInset.constructor` | rexsl-page/src/main/java/com/rexsl/page/auth/AuthInset.java:100-105 | a new inset keeps its resource, key, salt and cipher and has no providers |
| `Auth.AuthInset.With` | rexsl-page/src/main/java/com/rexsl/page/auth/AuthInset.java:126-129 | adds the provider to the set and returns the same inset; adding a provider already present changes nothing |
| `Auth.AuthInset.ResolveIdentity` | rexsl-page/src/main/java/com/rexsl/page/auth/AuthInset.java:137-173 | `identity()` computes exactly `Resolve` for the set's iteration order |
| `Auth.AuthInset.Render` | rexsl-page/src/main/java/com/rexsl/page/auth/AuthInset.java:180-223 | an abort of `identity()` propagates with page and builder untouched. Anonymous: login links only, no cookie, no header. Known: bundle, logout link, auth cookie, `X-Rexsl-Identity` = urn. Either way, the `rexsl-logout` flag ends in a 303 to the query-less URI with the value-less cookie; on logout, the page and builder changes made before the redirect remain, as in `render()`. No redirect it ends with targets a URI that still carries `rexsl-logout` |
| `Auth.AuthInset.Equals` | rexsl-page/src/main/java/com/rexsl/page/auth/AuthInset.java:61 | equality of insets is equality of resource, key and salt; the providers are not compared |
| `Manifest.MergeKeys` | rexsl/rexsl-core/src/main/java/com/rexsl/core/Manifests.java:160-164 | the merged key set is the union of the per-file key sets |
| `Manifest.MergeLastWins` | rexsl/rexsl-core/src/main/java/com/rexsl/core/Manifests.java:161-163 | for a key several files define, the value of the last of them is kept |
| `Manifest.LoadOneFile` | rexsl/rexsl-core/src/main/java/com/rexsl/core/Manifests.java:181-217 | every main attribute is copied under its name; failing to open or parse is an illegal-state failure; failing to close is only logged and does not change the result |
| `Manifest.Load` | rexsl/rexsl-core/src/main/java/com/rexsl/core/Manifests.java:151-173 | a failed enumeration gives an illegal-state failure with its cause and logs nothing. The first unreadable file gives an illegal-state failure with its cause, after logging the close failures of every file up to and including that one. Otherwise the result is the merge of all files in enumeration order, `count` is the number of files, and the log holds every close failure |
| `Manifest.Manifests.constructor` | rexsl/rexsl-core/src/main/java/com/rexsl/core/Manifests.java:113-122 | the property map is fixed at construction |
| `Manifest.Instance` | rexsl/rexsl-core/src/main/java/com/rexsl/core/Manifests.java:107-122 | the singleton holds exactly the merged properties. It fails exactly when enumeration fails or some file is unreadable, with the illegal-state failure of the enumeration or of the first unreadable file |
| `Manifest.Manifests.Read` | rexsl/rexsl-core/src/main/java/com/rexsl/core/Manifests.java:133-144 | returns the stored value when the name is present, and otherwise fails with an illegal-argument error naming the property |
| `Manifest.ReadAfterLoad` | rexsl/rexsl-core/src/main/java/com/rexsl/core/Manifests.java:133-143 | after loading, `read(name)` gives the value of the last manifest that defines `name` |
| `Manifest.ReadMissing` | rexsl/rexsl-core/src/main/java/com/rexsl/core/Manifests.java:134-142 | after loading, `read(name)` fails exactly when no manifest defines `name` |

## Left out

- Provider order: the providers live in a `HashSet`, so their iteration order is unspecified. It is a parameter (`order`) that must list the set exactly once. No precedence among providers is claimed: the iteration order is the `HashSet`'s.
- The `@Cacheable` one-second memoisation of `identity()` is wall-clock, aspect-driven caching and is not modelled. `render()` calls `identity()` once, and with a fixed order `Resolve` is deterministic.
- The cipher (`Encrypted`, `DecryptionException`) is not part of this model. `Codec.seal` and `Codec.open` are uninterpreted. Round trip is only an assumption (`RoundTrips`) required by `LoginCookieRestoresIdentity`. Tamper resistance and key isolation are not stated.
- `Identity`: the source's `Identity` class is not part of this model. Its equality is taken to be structural, with `Anonymous` a distinct value.
- `Auth.AuthInset.Equals`: the Lombok `hashCode` is not modelled, because it depends on the hash codes of the resource and the strings.
- `CookieBuilder`, `UriBuilder`, `NewCookie` and `JaxbBundle` are represented by plain values. Cookie path, domain and expiry are not modelled: the logout cookie is only "named, with no value".
- `Auth.LogoutLink`: URI encoding of query parameters is not modelled. `replaceQuery("")` is modelled as an empty query list.
- Logging: the `@Loggable` debug traces and the `Logger.debug` summaries are left out. The decryption warning and the close-failure errors are kept as outputs (`Warning`, `LogEntry`).
- Manifests I/O: class-loader enumeration, `java.util.jar.Manifest` parsing and stream handling are given as outcomes (`Resources`, `ManifestUrl`).
- `Manifest.LoadOneFile`: main attributes are given as a map from name strings. The case-insensitive equality of `Attributes.Name` is not modelled.
- `Manifest.Instance`: the `synchronized` block and the JVM's static-initialiser semantics are not modelled. A failure is an `Err` result, not an initialiser error.
- Exception messages: an `IllegalStateException` wrapping an I/O exception carries the cause as a string.
- The W3C validator client, the JavaScript static check and the HTTP test suites are not part of this model. They are I/O or test code.
