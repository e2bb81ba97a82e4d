/**
 One tenant's role provider: a loading cache from user name to that user's
 roles, the two request counters behind the published hit ratio, and the
 conversion of the remote server's JSON answer into roles.

 The cache is a map from user name to stored value. A miss runs the loader
 once and stores what it returns; a failed load stores nothing. Size- and
 time-based eviction are represented by `Evict`, which may drop any entries
 at any moment.
 */
module RemoteRolesProviderInstance {
  import opened Wrappers
  import opened JsonValues

  datatype Organization = Organization(id: string, name: string)

  /** A role as the provider builds it: a name tagged with the owning organization. */
  datatype Role = Role(name: string, organization: Organization)

  /** What the cache may hold for a user: a role list, or the token standing for "no list". */
  datatype CacheValue = RoleList(roles: seq<Role>) | NullToken

  /** What can escape a Java call: an `Error`, or an `Exception` (checked or unchecked). */
  datatype Throwable = Error | Exception

  /** How Guava's `getUnchecked` reports a loader that threw. */
  datatype LoadFailure = ExecutionError | UncheckedExecutionException

  /**
   The remote round trip for one request URL: either it ends with the JSON
   parser's result for the body (`None` when the parser throws), or something
   is thrown past the method's own exception handlers.
   */
  datatype Exchange = Answered(parsed: Option<Json>) | Threw(thrown: Throwable)

  /** The remote server, seen as the answer it gives for each request URL. */
  type Remote = string -> Exchange

  datatype Instance = Instance(
    organization: Organization,
    serverUrl: string,
    serverAuthMethod: Option<string>,
    serverUsername: Option<string>,
    serverPassword: Option<string>,
    cacheSize: int,
    cacheExpiration: int,
    mbeanName: string,
    requests: nat,
    remoteproviderLoads: nat,
    cache: map<string, CacheValue>)

  const OBJECT_NAME_SUFFIX: string := ":type=RemoteRolesRequests"

  /** The JMX object name under which the instance for `pid` publishes its hit ratio. */
  function ObjectName(pid: string): (name: string)
    ensures |name| == |pid| + |OBJECT_NAME_SUFFIX|
    ensures name[..|pid|] == pid
    ensures name[|pid|..] == OBJECT_NAME_SUFFIX
  {
    pid + OBJECT_NAME_SUFFIX
  }

  /** Distinct pids never share an object name. */
  lemma {:induction false} ObjectNameInjective(p: string, q: string)
    ensures ObjectName(p) == ObjectName(q) <==> p == q
  {
  }

  /**
   A freshly constructed instance: both counters zero, nothing cached, and the
   object name of its pid recorded as its published metric.
   */
  function NewInstance(pid: string, organization: Organization, cacheSize: int, cacheExpiration: int,
                       serverUrl: string, serverAuthMethod: Option<string>,
                       serverUsername: Option<string>, serverPassword: Option<string>): (inst: Instance)
    ensures inst.requests == 0 && inst.remoteproviderLoads == 0
    ensures inst.cache == map[]
    ensures inst.mbeanName == ObjectName(pid)
    ensures inst.organization == organization && inst.serverUrl == serverUrl
    ensures inst.cacheSize == cacheSize && inst.cacheExpiration == cacheExpiration
    ensures inst.serverAuthMethod == serverAuthMethod
    ensures inst.serverUsername == serverUsername && inst.serverPassword == serverPassword
  {
    Instance(organization, serverUrl, serverAuthMethod, serverUsername, serverPassword,
             cacheSize, cacheExpiration, ObjectName(pid), 0, 0, map[])
  }

  // ---------------------------------------------------------------------------
  // Converting the remote answer

  const USERNAME_PARAMETER: string := "?username="

  /** The request URL: the server URL, then the user id as a query parameter, not encoded. */
  function RequestUrl(serverUrl: string, userId: string): (url: string)
    ensures |url| == |serverUrl| + |USERNAME_PARAMETER| + |userId|
    ensures url[..|serverUrl|] == serverUrl
    ensures url[|serverUrl|..|serverUrl| + |USERNAME_PARAMETER|] == USERNAME_PARAMETER
    ensures url[|serverUrl| + |USERNAME_PARAMETER|..] == userId
  {
    serverUrl + USERNAME_PARAMETER + userId
  }

  /** For one server, distinct users are asked for at distinct URLs. */
  lemma {:induction false} RequestUrlInjective(serverUrl: string, u: string, v: string)
    ensures RequestUrl(serverUrl, u) == RequestUrl(serverUrl, v) <==> u == v
  {
  }

  /**
   No JSON null is read before the first element that is not a string. The
   conversion stops at that element, so what follows it is never looked at.
   */
  predicate NoNullRead(elements: seq<Json>) {
    forall i | 0 <= i < |elements| && (forall k | 0 <= k < i :: elements[k].JString?) :: elements[i] != JNull
  }

  /** The parser's value holds no null that the conversion would read. */
  predicate NoNullElements(j: Json) {
    j.JArray? ==> NoNullRead(j.elements)
  }

  /**
   The roles read from a run of array elements: one per element, in order,
   until the first element that is not a string (whose cast to `String`
   throws and ends the loop).
   */
  function RolesFromElements(organization: Organization, elements: seq<Json>): (roles: seq<Role>)
    requires NoNullRead(elements)
    ensures |roles| <= |elements|
    ensures forall i | 0 <= i < |roles| ::
      elements[i] == JString(roles[i].name) && roles[i].organization == organization
    ensures |roles| < |elements| ==> !elements[|roles|].JString?
    decreases |elements|
  {
    if |elements| == 0 || !elements[0].JString? then []
    else
      assert NoNullRead(elements[1..]) by {
        forall i | 0 <= i < |elements[1..]| && (forall k | 0 <= k < i :: elements[1..][k].JString?)
          ensures elements[1..][i] != JNull
        {
          assert forall k | 0 <= k < i + 1 :: elements[k].JString? by {
            forall k | 0 <= k < i + 1 ensures elements[k].JString? {
              if k > 0 { assert elements[k] == elements[1..][k - 1]; }
            }
          }
        }
      }
      [Role(elements[0].s, organization)] + RolesFromElements(organization, elements[1..])
  }

  /**
   The roles read from the parser's result: nothing when the parser threw or
   the value is not an array, otherwise the roles of its leading strings.
   */
  function RolesFromJson(organization: Organization, parsed: Option<Json>): (roles: seq<Role>)
    requires parsed.Some? ==> NoNullElements(parsed.value)
    ensures parsed.None? || !parsed.value.JArray? ==> roles == []
    ensures parsed.Some? && parsed.value.JArray? ==>
      roles == RolesFromElements(organization, parsed.value.elements)
  {
    match parsed
    case Some(JArray(elements)) => RolesFromElements(organization, elements)
    case _ => []
  }

  /** An array of strings becomes exactly one role per string, in order. */
  lemma {:induction false} AllStringsGiveAllRoles(organization: Organization, names: seq<string>)
    ensures RolesFromJson(organization, Some(JArray(seq(|names|, i requires 0 <= i < |names| => JString(names[i])))))
         == seq(|names|, i requires 0 <= i < |names| => Role(names[i], organization))
  {
  }

  /**
   A non-string element cuts the list: everything from it on is ignored,
   whatever follows it, JSON nulls included.
   */
  lemma {:induction false} NonStringEndsRoles(organization: Organization, before: seq<string>, bad: Json, after: seq<Json>)
    requires !bad.JString? && bad != JNull
    ensures var elements := seq(|before|, i requires 0 <= i < |before| => JString(before[i])) + [bad] + after;
            NoNullRead(elements)
            && RolesFromJson(organization, Some(JArray(elements)))
               == seq(|before|, i requires 0 <= i < |before| => Role(before[i], organization))
  {
    var prefix := seq(|before|, i requires 0 <= i < |before| => JString(before[i]));
    var elements := prefix + [bad] + after;
    forall i | 0 <= i < |elements| && (forall k | 0 <= k < i :: elements[k].JString?)
      ensures elements[i] != JNull
    {
      assert elements[|before|] == bad;
    }
    var roles := RolesFromElements(organization, elements);
    assert elements[|before|] == bad;
    assert |roles| == |before|;
  }

  /** The outcome of `getRolesForUserFromRemoteProvider`: a list, or a throw it did not catch. */
  datatype Fetched = Fetched(roles: seq<Role>) | FetchThrew(thrown: Throwable)

  /**
   The answer to the request URL for `userId` holds no JSON null before its
   first element that is not a string, so the conversion never reads one.
   */
  predicate NoNullReadAnswer(inst: Instance, userId: string, remote: Remote) {
    var e := remote(RequestUrl(inst.serverUrl, userId));
    e.Answered? && e.parsed.Some? ==> NoNullElements(e.parsed.value)
  }

  /**
   Asks the remote server about `userId` and converts the answer. Failures of
   the connection and of parsing are caught inside and give the roles read so
   far, so the result is a list whenever nothing escapes.
   */
  function GetRolesForUserFromRemoteProvider(inst: Instance, userId: string, remote: Remote): (r: Fetched)
    requires NoNullReadAnswer(inst, userId, remote)
    ensures remote(RequestUrl(inst.serverUrl, userId)).Answered? <==> r.Fetched?
    ensures r.Fetched? ==> r.roles == RolesFromJson(inst.organization, remote(RequestUrl(inst.serverUrl, userId)).parsed)
    ensures r.Fetched? ==> forall i | 0 <= i < |r.roles| :: r.roles[i].organization == inst.organization
  {
    match remote(RequestUrl(inst.serverUrl, userId))
    case Answered(parsed) => Fetched(RolesFromJson(inst.organization, parsed))
    case Threw(t) => FetchThrew(t)
  }

  // ---------------------------------------------------------------------------
  // The loading cache

  datatype LoadResult = Loaded(value: CacheValue) | LoadFailed(failure: LoadFailure)

  /** How `getUnchecked` wraps what the loader threw. */
  function Wrap(t: Throwable): (f: LoadFailure)
    ensures t.Error? <==> f.ExecutionError?
  {
    match t
    case Error => ExecutionError
    case Exception => UncheckedExecutionException
  }

  /**
   The cache loader: the remote method's list; a throw from the remote method
   fails the load. The source's `nullToken` branch for a null list is
   unreachable, because the remote method always returns the list it creates
   at its start, so no branch for it appears here.
   */
  function Load(inst: Instance, id: string, remote: Remote): (r: LoadResult)
    requires NoNullReadAnswer(inst, id, remote)
    ensures r.Loaded? <==> GetRolesForUserFromRemoteProvider(inst, id, remote).Fetched?
    ensures r.Loaded? ==> r.value == RoleList(GetRolesForUserFromRemoteProvider(inst, id, remote).roles)
  {
    match GetRolesForUserFromRemoteProvider(inst, id, remote)
    case Fetched(roles) => Loaded(RoleList(roles))
    case FetchThrew(t) => LoadFailed(Wrap(t))
  }

  /** The loader never stores `nullToken`: "no roles" is cached as an empty list. */
  lemma {:induction false} LoadNeverNullToken(inst: Instance, id: string, remote: Remote)
    requires NoNullReadAnswer(inst, id, remote)
    ensures Load(inst, id, remote).Loaded? ==> Load(inst, id, remote).value.RoleList?
    ensures remote(RequestUrl(inst.serverUrl, id)) == Answered(None) ==>
      Load(inst, id, remote) == Loaded(RoleList([]))
  {
  }

  /** What `getRolesForUser` hands back for a stored value. */
  function Visible(v: CacheValue): (roles: seq<Role>)
    ensures v.NullToken? ==> roles == []
    ensures v.RoleList? ==> roles == v.roles
  {
    match v
    case NullToken => []
    case RoleList(roles) => roles
  }

  datatype Lookup = Lookup(instance: Instance, roles: seq<Role>)

  /**
   `getRolesForUser`: counts the request, then reads the cache, loading and
   storing on a miss. A failed load gives an empty list and leaves the cache
   as it was. The user name is never null here.
   */
  function GetRolesForUser(inst: Instance, userName: string, remote: Remote): (r: Lookup)
    requires userName !in inst.cache ==> NoNullReadAnswer(inst, userName, remote)
    ensures r.instance.requests == inst.requests + 1
    ensures r.instance.remoteproviderLoads == inst.remoteproviderLoads
    ensures r.instance.(requests := inst.requests, cache := inst.cache) == inst
    ensures userName in inst.cache ==>
      r.instance.cache == inst.cache && r.roles == Visible(inst.cache[userName])
    ensures userName !in inst.cache && Load(inst, userName, remote).Loaded? ==>
      r.instance.cache == inst.cache[userName := Load(inst, userName, remote).value]
      && r.roles == Load(inst, userName, remote).value.roles
    ensures userName !in inst.cache && Load(inst, userName, remote).LoadFailed? ==>
      r.instance.cache == inst.cache && r.roles == []
    ensures r.instance.cache.Keys == inst.cache.Keys
         || r.instance.cache.Keys == inst.cache.Keys + {userName}
  {
    var counted := inst.(requests := inst.requests + 1);
    if userName in inst.cache then
      Lookup(counted, Visible(inst.cache[userName]))
    else
      match Load(inst, userName, remote)
      case Loaded(v) => Lookup(counted.(cache := inst.cache[userName := v]), Visible(v))
      case LoadFailed(_) => Lookup(counted, [])
  }

  /** Eviction by size or age, chosen by the environment: any entries may go. */
  function Evict(inst: Instance, victims: set<string>): (r: Instance)
    ensures r.cache.Keys == inst.cache.Keys - victims
    ensures forall u | u in r.cache :: r.cache[u] == inst.cache[u]
    ensures r.(cache := inst.cache) == inst
  {
    inst.(cache := inst.cache - victims)
  }

  /** A value found or stored in the cache is served again, unchanged, while it is not evicted. */
  lemma {:induction false} RepeatedLookupHits(inst: Instance, userName: string, first: Remote, second: Remote)
    requires userName !in inst.cache ==> NoNullReadAnswer(inst, userName, first)
    requires userName in inst.cache || Load(inst, userName, first).Loaded?
    ensures var r1 := GetRolesForUser(inst, userName, first);
            var r2 := GetRolesForUser(r1.instance, userName, second);
            r2.roles == r1.roles && r2.instance.cache == r1.instance.cache
            && r2.instance.requests == inst.requests + 2
  {
  }

  /**
   A failed load is not remembered: the next request for the same user loads
   afresh and returns what a first request would have returned.
   */
  lemma {:induction false} FailedLoadIsRetried(inst: Instance, userName: string, failing: Remote, recovered: Remote)
    requires userName !in inst.cache
    requires NoNullReadAnswer(inst, userName, failing) && NoNullReadAnswer(inst, userName, recovered)
    requires Load(inst, userName, failing).LoadFailed?
    ensures var r1 := GetRolesForUser(inst, userName, failing);
            var r2 := GetRolesForUser(r1.instance, userName, recovered);
            r1.roles == [] && userName !in r1.instance.cache
            && r2.roles == GetRolesForUser(inst, userName, recovered).roles
            && r2.instance.cache == GetRolesForUser(inst, userName, recovered).instance.cache
  {
  }

  // ---------------------------------------------------------------------------
  // Counters and the hit ratio

  /**
   `getCacheHitRatio`: the share of requests that did not go to the remote
   server, or 0 before the first request. Computed exactly, not in `float`.
   */
  function GetCacheHitRatio(inst: Instance): (ratio: real)
    ensures inst.requests == 0 ==> ratio == 0.0
    ensures inst.requests > 0 ==>
      ratio * (inst.requests as real) == (inst.requests - inst.remoteproviderLoads) as real
    ensures inst.remoteproviderLoads <= inst.requests ==> 0.0 <= ratio <= 1.0
  {
    if inst.requests == 0 then 0.0
    else (inst.requests - inst.remoteproviderLoads) as real / inst.requests as real
  }

  /** Ten requests of which three loaded remotely give a ratio of 0.7. */
  lemma {:induction false} HitRatioExample(inst: Instance)
    requires inst.requests == 10 && inst.remoteproviderLoads == 3
    ensures GetCacheHitRatio(inst) == 0.7
  {
  }

  /** One step of the environment: a lookup, or an eviction. */
  datatype Step = Request(userName: string, remote: Remote) | Drop(victims: set<string>)

  /** A step the model defines: a lookup that misses needs a well-formed remote answer. */
  predicate StepDefined(inst: Instance, step: Step) {
    step.Request? && step.userName !in inst.cache ==> NoNullReadAnswer(inst, step.userName, step.remote)
  }

  /** The instance after one step. */
  function Apply(inst: Instance, step: Step): Instance
    requires StepDefined(inst, step)
  {
    match step
    case Request(u, remote) => GetRolesForUser(inst, u, remote).instance
    case Drop(victims) => Evict(inst, victims)
  }

  /** Every step of the run, taken in order from `inst`, is defined. */
  predicate RunDefined(inst: Instance, steps: seq<Step>)
    decreases |steps|
  {
    |steps| == 0 || (StepDefined(inst, steps[0]) && RunDefined(Apply(inst, steps[0]), steps[1..]))
  }

  function RequestCount(steps: seq<Step>): nat {
    if |steps| == 0 then 0
    else (if steps[0].Request? then 1 else 0) + RequestCount(steps[1..])
  }

  /** The instance after the steps, taken in order. */
  function Run(inst: Instance, steps: seq<Step>): Instance
    requires RunDefined(inst, steps)
    decreases |steps|
  {
    if |steps| == 0 then inst else Run(Apply(inst, steps[0]), steps[1..])
  }

  /**
   Over any run, every request is counted once, the remote-load counter never
   moves (nothing in the provider increments it), and the configuration stays.
   */
  lemma {:induction false} RunCounters(inst: Instance, steps: seq<Step>)
    requires RunDefined(inst, steps)
    ensures Run(inst, steps).requests == inst.requests + RequestCount(steps)
    ensures Run(inst, steps).remoteproviderLoads == inst.remoteproviderLoads
    ensures Run(inst, steps).(requests := inst.requests, cache := inst.cache) == inst
    decreases |steps|
  {
    if |steps| > 0 {
      var next := Apply(inst, steps[0]);
      assert next.(requests := inst.requests, cache := inst.cache) == inst;
      RunCounters(next, steps[1..]);
    }
  }

  /** Once anything was asked, the published hit ratio of a fresh instance is exactly 1. */
  lemma {:induction false} HitRatioIsOneAfterRequests(created: Instance, steps: seq<Step>)
    requires created.requests == 0 && created.remoteproviderLoads == 0
    requires RunDefined(created, steps)
    requires RequestCount(steps) > 0
    ensures GetCacheHitRatio(Run(created, steps)) == 1.0
  {
    RunCounters(created, steps);
    var after := Run(created, steps);
    assert after.requests == RequestCount(steps) && after.remoteproviderLoads == 0;
    var n := after.requests as real;
    assert (after.requests - after.remoteproviderLoads) as real == n;
    assert n / n == 1.0;
  }

  /** Starting without `nullToken` in the cache, no run ever stores one. */
  lemma {:induction false} RunNeverStoresNullToken(inst: Instance, steps: seq<Step>)
    requires RunDefined(inst, steps)
    requires NullToken !in inst.cache.Values
    ensures NullToken !in Run(inst, steps).cache.Values
    decreases |steps|
  {
    if |steps| > 0 {
      var next := Apply(inst, steps[0]);
      match steps[0] {
        case Request(u, remote) =>
          if u !in inst.cache {
            LoadNeverNullToken(inst, u, remote);
          }
        case Drop(_) =>
      }
      assert NullToken !in next.cache.Values;
      RunNeverStoresNullToken(next, steps[1..]);
    }
  }

  // ---------------------------------------------------------------------------
  // The rest of the role provider interface

  /** `getOrganization`: the identifier of the instance's organization. */
  function GetOrganization(inst: Instance): (id: string)
    ensures id == inst.organization.id
  {
    inst.organization.id
  }

  /** `getRoles`: the remote authority is never enumerated, so there is nothing to list. */
  function GetRoles(inst: Instance): (roles: seq<Role>)
    ensures roles == []
  {
    []
  }

  /** `findRoles`: empty for every query, target, offset and limit. */
  function FindRoles<Target>(inst: Instance, query: string, target: Target, offset: int, limit: int): (roles: seq<Role>)
    ensures roles == []
  {
    []
  }
}
