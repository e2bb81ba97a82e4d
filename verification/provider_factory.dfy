/**
 The managed service factory: one provider instance per configuration pid,
 created, replaced and removed as configurations are updated and deleted.

 The registry maps each pid to its live instance. Unregistering a service is
 removing its entry; registering one is inserting it.
 */
module RemoteRolesProviderFactory {
  import opened Wrappers
  import opened JavaText
  import opened RemoteRolesProviderInstance

  const ORGANIZATION_KEY: string := "org.opencastproject.userdirectory.remoteroles.org"
  const CACHE_SIZE: string := "org.opencastproject.userdirectory.remoteroles.cache.size"
  const CACHE_EXPIRATION: string := "org.opencastproject.userdirectory.remoteroles.cache.expiration"
  const SERVER_URL: string := "org.opencastproject.userdirectory.remoteroles.server.url"
  const SERVER_AUTH_METHOD: string := "org.opencastproject.userdirectory.remoteroles.server.auth.method"
  const SERVER_USERNAME: string := "org.opencastproject.userdirectory.remoteroles.server.username"
  const SERVER_PASSWORD: string := "org.opencastproject.userdirectory.remoteroles.server.password"

  const DEFAULT_CACHE_SIZE: int := 1000
  const DEFAULT_CACHE_EXPIRATION: int := 5

  /** A configuration dictionary whose values are all `String`s. */
  type Properties = map<string, string>

  /** The organization directory: the organizations known by identifier. */
  type Directory = map<string, Organization>

  /** The live instances, by configuration pid. */
  type Registry = map<string, Instance>

  /** `ConfigurationException(property, reason)`. */
  datatype ConfigurationException = ConfigurationException(property: string, reason: string)

  /** The registry after a call, and the configuration error it threw, if any. */
  datatype Outcome = Outcome(registry: Registry, thrown: Option<ConfigurationException>)

  /**
   An optional integer setting: the parsed value when the property is present
   and `parseInt` accepts it, the default otherwise. It never fails.
   */
  function ConfiguredInt(properties: Properties, key: string, default: int): (value: int)
    ensures key !in properties ==> value == default
    ensures key in properties && ParseInt(properties[key]).None? ==> value == default
    ensures key in properties && ParseInt(properties[key]).Some? ==> value == ParseInt(properties[key]).value
  {
    if key in properties then ParseInt(properties[key]).GetOr(default) else default
  }

  /** A setting written as `Integer.toString(n)` is read back as `n`. */
  lemma {:induction false} ConfiguredIntRoundTrip(properties: Properties, key: string, default: int, n: int)
    requires IsInt32(n)
    ensures ConfiguredInt(properties[key := IntToString(n)], key, default) == n
  {
    ParseIntToString(n);
  }

  /** The cache size: 1000 unless a parsable value is configured. */
  function CacheSize(properties: Properties): (size: int)
    ensures CACHE_SIZE !in properties || ParseInt(properties[CACHE_SIZE]).None? ==> size == DEFAULT_CACHE_SIZE
    ensures CACHE_SIZE in properties && ParseInt(properties[CACHE_SIZE]).Some? ==>
      size == ParseInt(properties[CACHE_SIZE]).value
  {
    ConfiguredInt(properties, CACHE_SIZE, DEFAULT_CACHE_SIZE)
  }

  /** The cache expiration in minutes: 5 unless a parsable value is configured. */
  function CacheExpiration(properties: Properties): (minutes: int)
    ensures CACHE_EXPIRATION !in properties || ParseInt(properties[CACHE_EXPIRATION]).None? ==>
      minutes == DEFAULT_CACHE_EXPIRATION
    ensures CACHE_EXPIRATION in properties && ParseInt(properties[CACHE_EXPIRATION]).Some? ==>
      minutes == ParseInt(properties[CACHE_EXPIRATION]).value
  {
    ConfiguredInt(properties, CACHE_EXPIRATION, DEFAULT_CACHE_EXPIRATION)
  }

  /**
   The validation of `updated`: both required settings are present and each
   holds a character that is not whitespace.
   */
  predicate Valid(properties: Properties)
    ensures Valid(properties) <==>
      && ORGANIZATION_KEY in properties
      && (exists i | 0 <= i < |properties[ORGANIZATION_KEY]| :: !IsWhitespace(properties[ORGANIZATION_KEY][i]))
      && SERVER_URL in properties
      && (exists i | 0 <= i < |properties[SERVER_URL]| :: !IsWhitespace(properties[SERVER_URL][i]))
  {
    !IsBlank(Get(properties, ORGANIZATION_KEY)) && !IsBlank(Get(properties, SERVER_URL))
  }

  /** The instance a valid configuration for `pid` builds, once its organization is found. */
  function Build(pid: string, organization: Organization, properties: Properties): (inst: Instance)
    requires SERVER_URL in properties
    ensures inst.organization == organization
    ensures inst.serverUrl == properties[SERVER_URL]
    ensures inst.serverAuthMethod == Get(properties, SERVER_AUTH_METHOD)
    ensures inst.serverUsername == Get(properties, SERVER_USERNAME)
    ensures inst.serverPassword == Get(properties, SERVER_PASSWORD)
    ensures inst.cacheSize == CacheSize(properties) && inst.cacheExpiration == CacheExpiration(properties)
    ensures inst.mbeanName == ObjectName(pid)
    ensures inst.requests == 0 && inst.remoteproviderLoads == 0 && inst.cache == map[]
  {
    NewInstance(pid, organization, CacheSize(properties), CacheExpiration(properties),
                properties[SERVER_URL], Get(properties, SERVER_AUTH_METHOD),
                Get(properties, SERVER_USERNAME), Get(properties, SERVER_PASSWORD))
  }

  /**
   `updated(pid, properties)`. The two required settings are checked first and
   a failure there leaves the registry alone. Then the pid's current instance
   is removed, and only then is the organization looked up: an unknown
   organization throws with the pid left without any instance. Otherwise the
   new instance is put under the pid.
   */
  function Updated(registry: Registry, directory: Directory, pid: string, properties: Properties): (r: Outcome)
    // A blank organization: rejected, nothing touched.
    ensures IsBlank(Get(properties, ORGANIZATION_KEY)) ==>
      r == Outcome(registry, Some(ConfigurationException(ORGANIZATION_KEY, "is not set")))
    // A blank server URL: rejected, nothing touched.
    ensures !IsBlank(Get(properties, ORGANIZATION_KEY)) && IsBlank(Get(properties, SERVER_URL)) ==>
      r == Outcome(registry, Some(ConfigurationException(SERVER_URL, "is not set")))
    // Valid but the organization is unknown: rejected, and the pid has lost its instance.
    ensures Valid(properties) && properties[ORGANIZATION_KEY] !in directory ==>
      r.thrown == Some(ConfigurationException(ORGANIZATION_KEY, "not found"))
      && pid !in r.registry
    // Accepted exactly when valid with a known organization.
    ensures r.thrown.None? <==> Valid(properties) && properties[ORGANIZATION_KEY] in directory
    // On success, the pid holds a new instance built from the settings.
    ensures r.thrown.None? ==>
      && pid in r.registry
      && r.registry[pid] == Build(pid, directory[properties[ORGANIZATION_KEY]], properties)
    // Whatever happens, the other pids keep their instances.
    ensures forall p | p != pid :: (p in r.registry <==> p in registry)
    ensures forall p | p != pid && p in registry :: r.registry[p] == registry[p]
  {
    var organization := Get(properties, ORGANIZATION_KEY);
    if IsBlank(organization) then
      Outcome(registry, Some(ConfigurationException(ORGANIZATION_KEY, "is not set")))
    else
      var serverUrl := Get(properties, SERVER_URL);
      if IsBlank(serverUrl) then
        Outcome(registry, Some(ConfigurationException(SERVER_URL, "is not set")))
      else
        var detached := Deleted(registry, pid);
        if organization.value !in directory then
          Outcome(detached, Some(ConfigurationException(ORGANIZATION_KEY, "not found")))
        else
          var provider := Build(pid, directory[organization.value], properties);
          Outcome(detached[pid := provider], None)
  }

  /**
   `deleted(pid)`: the pid's instance is removed (and unregistered); an absent
   pid is a no-op, and other pids are untouched.
   */
  function Deleted(registry: Registry, pid: string): (r: Registry)
    ensures pid !in r
    ensures r.Keys == registry.Keys - {pid}
    ensures forall p | p in r :: r[p] == registry[p]
    ensures pid !in registry ==> r == registry
  {
    registry - {pid}
  }

  // ---------------------------------------------------------------------------
  // Lifecycle properties

  /**
   The two numeric settings never decide whether an update is accepted:
   whatever their text, or their absence, the same error (if any) is thrown
   and the same pids end up registered.
   */
  lemma {:induction false} NumericSettingsNeverReject(registry: Registry, directory: Directory, pid: string,
                                                      properties: Properties, size: string, expiration: string)
    ensures var plain := properties - {CACHE_SIZE, CACHE_EXPIRATION};
            var configured := plain[CACHE_SIZE := size][CACHE_EXPIRATION := expiration];
            Updated(registry, directory, pid, configured).thrown == Updated(registry, directory, pid, plain).thrown
            && Updated(registry, directory, pid, configured).registry.Keys
               == Updated(registry, directory, pid, plain).registry.Keys
  {
  }

  /** Whatever an update does, deleting the pid afterwards leaves what deleting it before would. */
  lemma {:induction false} DeleteAfterUpdate(registry: Registry, directory: Directory, pid: string, properties: Properties)
    ensures Deleted(Updated(registry, directory, pid, properties).registry, pid) == Deleted(registry, pid)
  {
  }

  /** Deleting twice is deleting once. */
  lemma {:induction false} DeletedIdempotent(registry: Registry, pid: string)
    ensures Deleted(Deleted(registry, pid), pid) == Deleted(registry, pid)
  {
  }

  /**
   An update that passes validation makes the pid's earlier history
   irrelevant: it ends the same whatever update came before it.
   */
  lemma {:induction false} ValidUpdateReplaces(registry: Registry, directory: Directory, pid: string,
                                               earlier: Properties, later: Properties)
    requires Valid(later)
    ensures Updated(Updated(registry, directory, pid, earlier).registry, directory, pid, later)
         == Updated(registry, directory, pid, later)
  {
  }

  /** Every organization is filed under its own identifier. */
  predicate DirectoryById(directory: Directory) {
    forall k | k in directory :: directory[k].id == k
  }

  /** After a successful update, the pid's provider reports the configured organization. */
  lemma {:induction false} UpdatedReportsOrganization(registry: Registry, directory: Directory, pid: string,
                                                      properties: Properties)
    requires DirectoryById(directory)
    requires Updated(registry, directory, pid, properties).thrown.None?
    ensures GetOrganization(Updated(registry, directory, pid, properties).registry[pid])
         == properties[ORGANIZATION_KEY]
  {
  }

  /** Each live instance publishes under the object name of its own pid. */
  predicate WellNamed(registry: Registry) {
    forall p | p in registry :: registry[p].mbeanName == ObjectName(p)
  }

  /** Updates and deletions keep every instance named after its pid. */
  lemma {:induction false} LifecycleKeepsNames(registry: Registry, directory: Directory, pid: string,
                                               properties: Properties)
    requires WellNamed(registry)
    ensures WellNamed(Updated(registry, directory, pid, properties).registry)
    ensures WellNamed(Deleted(registry, pid))
  {
  }

  /** So no two live instances ever publish under the same object name. */
  lemma {:induction false} PublishedNamesDistinct(registry: Registry, p: string, q: string)
    requires WellNamed(registry)
    requires p in registry && q in registry && p != q
    ensures registry[p].mbeanName != registry[q].mbeanName
  {
  }
}
