# Remote roles provider — a Dafny model

This project models the remote roles provider of an Opencast user directory
bundle. The provider answers "which roles does user U have?" for one
organization. It asks a remote HTTP endpoint and keeps the answers in a
loading cache. A managed service factory creates one provider instance per
configuration pid. It replaces the instance when that configuration is
updated and removes it when the configuration is deleted.

The model is functional. State is held in immutable values and every
operation is a pure function that returns the new state.

- `RemoteRolesProviderFactory` holds the registry, a `map<string, Instance>`
  from pid to live instance. Configurations are `map<string, string>`.
  `Updated` returns an `Outcome`: the registry after the call together with
  the `ConfigurationException` it threw, if any. An update with an unknown
  organization both throws and changes the registry, so the outcome needs
  both parts.
- `RemoteRolesProviderInstance` holds one instance: its settings, the two
  counters behind the hit ratio, and the cache, a map from user name to the
  stored value (a role list or `nullToken`). On a miss the cache runs the
  loader and stores what it returns; a failed load stores nothing. `Evict`
  stands in for size and time eviction: it drops any entries the environment
  chooses.
- The remote server is a parameter `Remote`: a function from the request URL
  to what the round trip produced. That is either the JSON parser's result
  (`None` when the parser threw) or a throw that escaped the remote method.
- `JavaText` models `StringUtils.isBlank` (Java's whitespace set) and
  `Integer.parseInt` (optional sign, ASCII digits, 32-bit range). It also
  models `Integer.toString`; `parseInt` reads back what `toString` writes.

Behaviours of the code a reader may not expect:

- An update whose organization is unknown does not leave the previous
  instance serving. The pid's instance is removed
  (RemoteRolesProviderFactory.java:157-160) before the organization is
  looked up (:162-168), so the pid ends up with no instance.
- A failed remote call or an unparsable answer is not a load failure. The
  remote method catches both (RemoteRolesProviderInstance.java:289-291 and
  :302-304) and returns an empty list, or the roles read before the failure
  (:308). The loader stores that list like any other answer (:172-174). Only
  a throw that escapes the remote method fails the load, and that result is
  not cached.
- `nullToken` is never stored, because the remote method never returns null:
  its list is created at RemoteRolesProviderInstance.java:263 and returned at
  :308. "No roles" is cached as an empty list.
- A retired instance can stay published over JMX. After an update whose
  organization is unknown, only the OSGi service is unregistered
  (RemoteRolesProviderFactory.java:157-160); the old instance's bean keeps
  its object name. A later `deleted(pid)` finds no registration and so skips
  the bean's unregistration (:186-193). The bean is released only when a new
  instance for the pid registers over it
  (RemoteRolesProviderInstance.java:193-198).
- The remote-load counter is set to zero (RemoteRolesProviderInstance.java:187)
  and never incremented anywhere; only the request counter is (:233). So after
  any request the published hit ratio (:210-215) is exactly 1, when no lookup
  runs during the read.

## Model

| member | source | states |
|---|---|---|
| `RemoteRolesProviderFactory.Updated` | src/main/java/org/opencastproject/userdirectory/remoteroles/RemoteRolesProviderFactory.java:115-176 | A blank organization or server URL throws on that property and leaves the registry unchanged. A valid configuration with an unknown organization throws on the organization key and leaves the pid with no instance. An update is accepted exactly when it is valid and its organization is known, and then the pid holds a new instance built from the settings. Every other pid keeps its instance in every case. |
| `RemoteRolesProviderFactory.Deleted` | src/main/java/org/opencastproject/userdirectory/remoteroles/RemoteRolesProviderFactory.java:184-195 | The pid's entry is removed, an absent pid leaves the registry as it was, and every other entry is untouched. |
| `RemoteRolesProviderFactory.ConfiguredInt` | src/main/java/org/opencastproject/userdirectory/remoteroles/RemoteRolesProviderFactory.java:130-141 | An optional integer setting is the parsed value when present and parsable, and the default when absent or unparsable. It never fails. |
| `RemoteRolesProviderFactory.CacheSize` | src/main/java/org/opencastproject/userdirectory/remoteroles/RemoteRolesProviderFactory.java:130-141 | The cache size is 1000 unless a parsable value is configured, and then it is that value. |
| `RemoteRolesProviderFactory.CacheExpiration` | src/main/java/org/opencastproject/userdirectory/remoteroles/RemoteRolesProviderFactory.java:143-154 | The expiration is 5 minutes unless a parsable value is configured, and then it is that value. |
| `RemoteRolesProviderFactory.ConfiguredIntRoundTrip` | src/main/java/org/opencastproject/userdirectory/remoteroles/RemoteRolesProviderFactory.java:133 | A setting written as the decimal text of a 32-bit value is read back as that value. |
| `RemoteRolesProviderFactory.NumericSettingsNeverReject` | src/main/java/org/opencastproject/userdirectory/remoteroles/RemoteRolesProviderFactory.java:130-154 | Whatever text the two numeric settings hold, or if they are absent, an update throws the same error (if any) and leaves the same pids registered. |
| `RemoteRolesProviderFactory.Build` | src/main/java/org/opencastproject/userdirectory/remoteroles/RemoteRolesProviderFactory.java:170-172 | The new instance carries the found organization, the configured URL and credentials, and the derived cache size and expiration. Its counters are zero and its cache is empty. |
| `RemoteRolesProviderFactory.DeleteAfterUpdate` | src/main/java/org/opencastproject/userdirectory/remoteroles/RemoteRolesProviderFactory.java:157-188 | Whatever an update did, deleting the pid afterwards gives the registry that deleting it beforehand would. |
| `RemoteRolesProviderFactory.DeletedIdempotent` | src/main/java/org/opencastproject/userdirectory/remoteroles/RemoteRolesProviderFactory.java:186-188 | Deleting a pid twice is the same as deleting it once. |
| `RemoteRolesProviderFactory.ValidUpdateReplaces` | src/main/java/org/opencastproject/userdirectory/remoteroles/RemoteRolesProviderFactory.java:156-175 | Once an update passes validation, it ends the same whatever update came before it for that pid. The old instance is replaced, never kept alongside the new one. |
| `RemoteRolesProviderFactory.UpdatedReportsOrganization` | src/main/java/org/opencastproject/userdirectory/remoteroles/RemoteRolesProviderFactory.java:162-175 | When organizations are filed under their own ids, the provider installed by a successful update reports the configured organization id. |
| `RemoteRolesProviderFactory.LifecycleKeepsNames` | src/main/java/org/opencastproject/userdirectory/remoteroles/RemoteRolesProviderInstance.java:184-198 | Updates and deletions keep every live instance published under its own pid's object name. |
| `RemoteRolesProviderFactory.PublishedNamesDistinct` | src/main/java/org/opencastproject/userdirectory/remoteroles/RemoteRolesProviderFactory.java:206-208 | Two live instances under different pids never share an object name. |
| `RemoteRolesProviderInstance.ObjectName` | src/main/java/org/opencastproject/userdirectory/remoteroles/RemoteRolesProviderFactory.java:206-208 | The object name is the pid followed by `:type=RemoteRolesRequests`. |
| `RemoteRolesProviderInstance.ObjectNameInjective` | src/main/java/org/opencastproject/userdirectory/remoteroles/RemoteRolesProviderFactory.java:206-208 | Two pids have the same object name exactly when they are the same pid. |
| `RemoteRolesProviderInstance.NewInstance` | src/main/java/org/opencastproject/userdirectory/remoteroles/RemoteRolesProviderInstance.java:154-187 | A new instance keeps its settings and starts with both counters at zero and an empty cache. |
| `RemoteRolesProviderInstance.RequestUrl` | src/main/java/org/opencastproject/userdirectory/remoteroles/RemoteRolesProviderInstance.java:267 | The request URL is the server URL, then `?username=`, then the user id as given, with no encoding. |
| `RemoteRolesProviderInstance.RequestUrlInjective` | src/main/java/org/opencastproject/userdirectory/remoteroles/RemoteRolesProviderInstance.java:267 | For one server, two user ids give the same URL exactly when they are the same id. |
| `RemoteRolesProviderInstance.RolesFromElements` | src/main/java/org/opencastproject/userdirectory/remoteroles/RemoteRolesProviderInstance.java:298-301 | There is one role per leading string element, in order, named by that string and tagged with the organization. The list stops exactly at the first element that is not a string. |
| `RemoteRolesProviderInstance.RolesFromJson` | src/main/java/org/opencastproject/userdirectory/remoteroles/RemoteRolesProviderInstance.java:294-304 | A parser failure or a value that is not an array gives no roles. An array gives the roles of its leading strings. |
| `RemoteRolesProviderInstance.AllStringsGiveAllRoles` | src/main/java/org/opencastproject/userdirectory/remoteroles/RemoteRolesProviderInstance.java:294-308 | An array of strings gives exactly one role per string, in array order. |
| `RemoteRolesProviderInstance.NonStringEndsRoles` | src/main/java/org/opencastproject/userdirectory/remoteroles/RemoteRolesProviderInstance.java:298-304 | A non-string element ends the list: the roles collected before it are returned and everything after it is ignored. |
| `RemoteRolesProviderInstance.GetRolesForUserFromRemoteProvider` | src/main/java/org/opencastproject/userdirectory/remoteroles/RemoteRolesProviderInstance.java:261-309 | The remote method returns a list exactly when nothing escapes its handlers. That list is the roles read from the answer to the request URL for the user, and every role in it belongs to the instance's organization. |
| `RemoteRolesProviderInstance.Load` | src/main/java/org/opencastproject/userdirectory/remoteroles/RemoteRolesProviderInstance.java:169-176 | The loader stores the remote method's list, and fails exactly when the remote method throws. |
| `RemoteRolesProviderInstance.LoadNeverNullToken` | src/main/java/org/opencastproject/userdirectory/remoteroles/RemoteRolesProviderInstance.java:172-174 | The loader never produces `nullToken`, and an unparsable answer is loaded as an empty role list. |
| `RemoteRolesProviderInstance.Wrap` | src/main/java/org/opencastproject/userdirectory/remoteroles/RemoteRolesProviderInstance.java:243-249 | An `Error` thrown by the loader reaches the caller as `ExecutionError`, and any exception as `UncheckedExecutionException`, the two kinds the lookup catches. |
| `RemoteRolesProviderInstance.Visible` | src/main/java/org/opencastproject/userdirectory/remoteroles/RemoteRolesProviderInstance.java:236-242 | A stored `nullToken` is seen by the caller as an empty role list, and a stored list is returned as it is. |
| `RemoteRolesProviderInstance.GetRolesForUser` | src/main/java/org/opencastproject/userdirectory/remoteroles/RemoteRolesProviderInstance.java:231-250 | Every call adds exactly one to the request count and leaves the load count and the settings alone. A hit returns the stored list, or nothing for `nullToken`, and leaves the cache as it was. A miss that loads stores the loaded value and returns it. A failed load, of either Guava failure kind, returns nothing and stores nothing. |
| `RemoteRolesProviderInstance.Evict` | src/main/java/org/opencastproject/userdirectory/remoteroles/RemoteRolesProviderInstance.java:169 | Eviction removes exactly the chosen entries, keeps the values of the others, and changes nothing else. |
| `RemoteRolesProviderInstance.RepeatedLookupHits` | src/main/java/org/opencastproject/userdirectory/remoteroles/RemoteRolesProviderInstance.java:235-242 | Once a user's value is cached, the next lookup returns the same roles without touching the cache, whatever the remote server would now answer. |
| `RemoteRolesProviderInstance.FailedLoadIsRetried` | src/main/java/org/opencastproject/userdirectory/remoteroles/RemoteRolesProviderInstance.java:243-249 | A failed load returns nothing and is not remembered. The next lookup behaves exactly like a first lookup would. |
| `RemoteRolesProviderInstance.GetCacheHitRatio` | src/main/java/org/opencastproject/userdirectory/remoteroles/RemoteRolesProviderInstance.java:210-215 | The ratio is 0 before any request, and otherwise the share of requests that did not load remotely. It lies in [0, 1] whenever loads do not exceed requests. |
| `RemoteRolesProviderInstance.HitRatioExample` | src/main/java/org/opencastproject/userdirectory/remoteroles/RemoteRolesProviderInstance.java:210-215 | Ten requests with three remote loads give a ratio of 0.7. |
| `RemoteRolesProviderInstance.RunCounters` | src/main/java/org/opencastproject/userdirectory/remoteroles/RemoteRolesProviderInstance.java:233 | Over any sequence of lookups and evictions, the request count grows by the number of lookups and the load count and settings never change. |
| `RemoteRolesProviderInstance.HitRatioIsOneAfterRequests` | src/main/java/org/opencastproject/userdirectory/remoteroles/RemoteRolesProviderInstance.java:186-187 | A new instance's hit ratio is exactly 1 after any run that contains at least one lookup. |
| `RemoteRolesProviderInstance.RunNeverStoresNullToken` | src/main/java/org/opencastproject/userdirectory/remoteroles/RemoteRolesProviderInstance.java:172-174 | Starting with no `nullToken` in the cache, no run of lookups and evictions ever stores one. |
| `RemoteRolesProviderInstance.GetOrganization` | src/main/java/org/opencastproject/userdirectory/remoteroles/RemoteRolesProviderInstance.java:220-222 | The reported organization is the id of the instance's organization. |
| `RemoteRolesProviderInstance.GetRoles` | src/main/java/org/opencastproject/userdirectory/remoteroles/RemoteRolesProviderInstance.java:225-228 | Role enumeration always returns nothing. |
| `RemoteRolesProviderInstance.FindRoles` | src/main/java/org/opencastproject/userdirectory/remoteroles/RemoteRolesProviderInstance.java:254-257 | Role search returns nothing for every query, target, offset and limit. |
| `JavaText.ParseInt` | src/main/java/org/opencastproject/userdirectory/remoteroles/RemoteRolesProviderFactory.java:133 | An accepted value fits in 32 bits and starts with a digit or a sign, and its sign agrees with the leading `-`. |
| `JavaText.ParseIntToString` | src/main/java/org/opencastproject/userdirectory/remoteroles/RemoteRolesProviderFactory.java:146 | Parsing the decimal text of any 32-bit value gives that value back. |
| `JavaText.ParseIntRejectsMalformed` | src/main/java/org/opencastproject/userdirectory/remoteroles/RemoteRolesProviderFactory.java:139-141 | Text with a leading or a trailing blank, a bare sign, or empty text is rejected, so the default is used. |
| `JavaText.ParseIntBounds` | src/main/java/org/opencastproject/userdirectory/remoteroles/RemoteRolesProviderFactory.java:152-154 | One past the largest 32-bit value is rejected, and the smallest 32-bit value is accepted. |
| `JavaText.ParseIntSignAndZeros` | src/main/java/org/opencastproject/userdirectory/remoteroles/RemoteRolesProviderFactory.java:146-149 | A leading `+` and leading zeros are accepted. |
| `JavaText.IsBlank` | src/main/java/org/opencastproject/userdirectory/remoteroles/RemoteRolesProviderFactory.java:118-124 | A value is not blank exactly when it is present and holds a character that is not whitespace. |
| `JavaText.AllWhitespaceMeansEvery` | src/main/java/org/opencastproject/userdirectory/remoteroles/RemoteRolesProviderFactory.java:119 | Scanning the characters one by one finds only whitespace exactly when every character is whitespace. |
| `JavaText.IntToString` | src/main/java/org/opencastproject/userdirectory/remoteroles/RemoteRolesProviderFactory.java:133 | The decimal text of a value starts with `-` exactly when the value is negative. The rest is digits with no leading zero, except for zero itself. |
| `RemoteRolesProviderFactory.Valid` | src/main/java/org/opencastproject/userdirectory/remoteroles/RemoteRolesProviderFactory.java:118-124 | A configuration passes validation exactly when both the organization and the server URL are present and each holds a character that is not whitespace. |
| `JavaText.BlankExamples` | src/main/java/org/opencastproject/userdirectory/remoteroles/RemoteRolesProviderFactory.java:118-124 | A missing value, empty text and whitespace-only text are blank. Text with a visible character is not blank, and neither is the no-break space. The Mongolian vowel separator is blank. |

## Left out

- HTTP transport is not modelled. That covers the URL connection, the default authenticator and its credentials, the `X-Requested-Auth` header and reading the body. The request URL is passed to the `Remote` parameter, which returns what the round trip produced.
- The JSON parser is not modelled; its result is an input.
- RemoteRolesProviderInstance.RolesFromElements: it requires that the element loop (RemoteRolesProviderInstance.java:298-301) never reads a JSON null, that is, no null before the first element that is not a string. The loop casts such a null to `String` without error and hands it to the role constructor, which is not part of this model. Elements after the first non-string are unconstrained. `RolesFromJson`, `GetRolesForUserFromRemoteProvider` and `Load` carry the same requirement. `GetRolesForUser` and `RepeatedLookupHits` need it only when the user is not cached, since a hit never consults the server.
- RemoteRolesProviderInstance.GetCacheHitRatio: calls are taken one at a time. Concurrent lookups are not modelled, and neither is a hit-ratio read interleaved with them. The source reads the request counter once at RemoteRolesProviderInstance.java:211 and twice at :214, and a lookup on another thread can increment it at :233 in between. With one request, a read whose numerator sees 1 and whose divisor sees 2 publishes 0.5, not 1.
- Guava cache internals are not modelled: concurrent single-flight loading, least-recently-used order and wall-clock expiry. `Evict` may remove any entries at any time instead. The size and expiration are recorded in the instance but do not limit the cache.
- Guava rejecting a negative maximum size or expiration with an `IllegalArgumentException` is not modelled. Such an update would throw after removing the old instance.
- JMX registration and unregistration of the hit-ratio bean, and the OSGi service registrations, are not modelled. An OSGi registration is identified with the registry entry, and a live instance's bean with its recorded object name. A bean left behind by a retired instance, as described above, is not part of the registry, so the model does not track it. `getObjectName` is modelled as the string it builds. `ObjectName`'s own rejection of malformed names is not modelled.
- Property values that are not `String`s are not modelled. The casts at RemoteRolesProviderFactory.java:118, :122 and :126-128 would throw `ClassCastException` before the registry is touched. Only the two numeric settings go through `toString()` (:133, :146).
- The organization directory is a map from id to organization. Failures other than "not found" are not modelled.
- JavaText.IsBlank: the whitespace table is the one of Java 7 and 8, which counts U+180E as whitespace. Later Java releases (Unicode 6.3 and on) do not, so there U+180E alone is not blank.
- RemoteRolesProviderInstance.GetRolesForUser: a null user name is not modelled, since a Dafny string cannot be null. In the source, `getRolesForUser(null)` counts the request (RemoteRolesProviderInstance.java:233), and then Guava's `getUnchecked` throws a `NullPointerException` for the null key. Neither catch at :243-249 handles it, so it reaches the caller.
- RemoteRolesProviderInstance.GetRolesForUser: a hit returns the cached `List` object itself (RemoteRolesProviderInstance.java:241). A caller that mutates it changes what later lookups return. The model returns an immutable sequence, so this aliasing is not modelled.
- JavaText.ParseInt: only ASCII digits are accepted. `Character.digit` also accepts other Unicode decimal digits.
- RemoteRolesProviderInstance.GetCacheHitRatio: it is computed exactly over reals. The source converts to `float`, and that rounding is not modelled.
- The 64-bit wrap-around of the atomic counters is not modelled; counters are unbounded naturals.
- The factory's `activate`, `getName` and the organization-directory setter are wiring. The unused host-name verifier and all logging are not modelled.
