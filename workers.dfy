/** The worker configuration engine: the default bundle, the user-override
    merge and the validation rules of a worker's configuration, as asserted
    by tests/unit/test_workers.py. */
module Workers {
  import opened Wrappers
  import opened Strings

  /** The content of one logical configuration file: a property map
      (`node.properties`, `config.properties`) or an ordered flag list
      (`jvm.config`). */
  datatype Payload = Properties(props: map<string, string>) | Flags(flags: seq<string>)

  /** A configuration bundle: logical file name to content. */
  type Bundle = map<string, Payload>

  /** The errors `get_conf` can raise. */
  datatype Error = ConfigurationError(message: string) | IndexError

  const NodeProperties := "node.properties"
  const JvmConfig := "jvm.config"
  const ConfigProperties := "config.properties"

  /** The files every worker bundle must hold, in the order they are checked. */
  const RequiredFiles: seq<string> := [NodeProperties, JvmConfig, ConfigProperties]

  const DefaultNodeProperties: map<string, string> :=
    map["node.environment" := "presto",
        "node.data-dir" := "/var/lib/presto/data",
        "plugin.config-dir" := "/etc/presto/catalog",
        "plugin.dir" := "/usr/lib/presto/lib/plugin"]

  const DefaultJvmConfig: seq<string> :=
    ["-server",
     "-Xmx2G",
     "-XX:-UseBiasedLocking",
     "-XX:+UseG1GC",
     "-XX:+ExplicitGCInvokesConcurrent",
     "-XX:+HeapDumpOnOutOfMemoryError",
     "-XX:+UseGCOverheadLimit",
     "-XX:OnOutOfMemoryError=kill -9 %p",
     "-DHADOOP_USER_NAME=hive"]

  const HttpScheme := "http://"
  const DefaultPort := "8080"

  const MissingFileMessage := "Missing configuration for required file: "
  const CoordinatorMessage := "Coordinator must be false in the worker's config.properties"
  const NoDiscoveryUriMessage := "Must have discovery.uri defined in config.properties."
  const BadSchemeMessage := "discovery.uri must start with http://, current URI is: "
  const LocalhostMessage := "discovery.uri should not be localhost in a multi-node cluster"

  /** The URI every node advertises itself to: the coordinator's HTTP port. */
  function DiscoveryUri(coordinator: Host): string {
    HttpScheme + coordinator + ":" + DefaultPort
  }

  /** `build_defaults()`, given the first host of the coordinator role. */
  function BuildDefaults(coordinator: Host): (conf: Bundle)
    ensures conf.Keys == {NodeProperties, JvmConfig, ConfigProperties}
    ensures conf[NodeProperties] == Properties(DefaultNodeProperties)
    ensures conf[JvmConfig] == Flags(DefaultJvmConfig)
    ensures conf[ConfigProperties].Properties?
    ensures conf[ConfigProperties].props.Keys ==
              {"coordinator", "discovery.uri", "http-server.http.port", "query.max-memory", "query.max-memory-per-node"}
    ensures conf[ConfigProperties].props["coordinator"] == "false"
    ensures conf[ConfigProperties].props["discovery.uri"] == "http://" + coordinator + ":8080"
    ensures conf[ConfigProperties].props["http-server.http.port"] == "8080"
    ensures conf[ConfigProperties].props["query.max-memory"] == "50GB"
    ensures conf[ConfigProperties].props["query.max-memory-per-node"] == "1GB"
  {
    map[NodeProperties := Properties(DefaultNodeProperties),
        JvmConfig := Flags(DefaultJvmConfig),
        ConfigProperties := Properties(
          map["coordinator" := "false",
              "discovery.uri" := DiscoveryUri(coordinator),
              "http-server.http.port" := DefaultPort,
              "query.max-memory" := "50GB",
              "query.max-memory-per-node" := "1GB"])]
  }

  /** The host part of a URI's authority: the text up to the first ':' (port)
      or '/' (path). */
  function HostPart(s: string): (h: string)
    ensures |h| <= |s| && h == s[..|h|]
    ensures ':' !in h && '/' !in h
    ensures |h| < |s| ==> s[|h|] == ':' || s[|h|] == '/'
  {
    if s == [] || s[0] == ':' || s[0] == '/' then []
    else [s[0]] + HostPart(s[1..])
  }

  /** The host component of an `http://` URI. */
  function UriHost(uri: string): string
    requires StartsWith(uri, HttpScheme)
  {
    HostPart(uri[|HttpScheme|..])
  }

  /** A host name without ':' or '/' is the host component of the URI built from it. */
  lemma {:induction false} HostPartOf(host: string, rest: string)
    requires ':' !in host && '/' !in host
    requires rest == [] || rest[0] == ':' || rest[0] == '/'
    ensures HostPart(host + rest) == host
  {
    if host != [] {
      assert (host + rest)[0] == host[0];
      assert (host + rest)[1..] == host[1..] + rest;
      HostPartOf(host[1..], rest);
    } else {
      assert host + rest == rest;
    }
  }

  /** The host component of the default discovery URI is the coordinator host. */
  lemma DiscoveryUriHost(coordinator: Host)
    requires ':' !in coordinator && '/' !in coordinator
    ensures StartsWith(DiscoveryUri(coordinator), HttpScheme)
    ensures UriHost(DiscoveryUri(coordinator)) == coordinator
  {
    var uri := DiscoveryUri(coordinator);
    assert uri[..|HttpScheme|] == HttpScheme;
    assert uri[|HttpScheme|..] == coordinator + (":" + DefaultPort);
    HostPartOf(coordinator, ":" + DefaultPort);
  }

  /** The position in RequiredFiles of the first required file the bundle lacks,
      or |RequiredFiles| when it has them all. */
  function FirstMissing(conf: Bundle, from: nat): (k: nat)
    requires from <= |RequiredFiles|
    ensures from <= k <= |RequiredFiles|
    ensures k < |RequiredFiles| ==> RequiredFiles[k] !in conf
    ensures forall j :: from <= j < k ==> RequiredFiles[j] in conf
    decreases |RequiredFiles| - from
  {
    if from == |RequiredFiles| || RequiredFiles[from] !in conf then from
    else FirstMissing(conf, from + 1)
  }

  /** The three required files are present, each with the kind of content it must have. */
  predicate WellFormed(conf: Bundle) {
    && NodeProperties in conf && conf[NodeProperties].Properties?
    && JvmConfig in conf && conf[JvmConfig].Flags?
    && ConfigProperties in conf && conf[ConfigProperties].Properties?
  }

  /** `config.properties` of a well-formed bundle. */
  function ConfigOf(conf: Bundle): map<string, string>
    requires WellFormed(conf)
  {
    conf[ConfigProperties].props
  }

  /** The discovery URI names `localhost` while the cluster has more than one host. */
  predicate LocalhostInMultiNode(uri: string, allHosts: seq<Host>)
    requires StartsWith(uri, HttpScheme)
  {
    UriHost(uri) == "localhost" && |allHosts| > 1
  }

  /** `validate(conf)` for a worker, with `allHosts` the hosts of the cluster
      (`env.roledefs['all']`). The rules apply in order and the first one broken
      decides the error; a bundle that breaks none is returned unchanged. */
  function Validate(conf: Bundle, allHosts: seq<Host>): (r: Result<Bundle, Error>)
    ensures r.Success? ==> r.value == conf
    ensures r.Success? ==>
              && WellFormed(conf)
              && "coordinator" in ConfigOf(conf) && ConfigOf(conf)["coordinator"] == "false"
              && "discovery.uri" in ConfigOf(conf)
              && StartsWith(ConfigOf(conf)["discovery.uri"], HttpScheme)
              && !LocalhostInMultiNode(ConfigOf(conf)["discovery.uri"], allHosts)
    ensures r.Failure? ==> r.error.ConfigurationError?
    // rule 1: a required file is missing; the first missing one is named
    ensures (exists f :: f in RequiredFiles && f !in conf) ==>
              exists k :: 0 <= k < |RequiredFiles| && RequiredFiles[k] !in conf &&
                (forall j :: 0 <= j < k ==> RequiredFiles[j] in conf) &&
                r == Failure(ConfigurationError(MissingFileMessage + RequiredFiles[k]))
    // rule 2: the coordinator flag of a worker must be "false"
    ensures WellFormed(conf) && ("coordinator" !in ConfigOf(conf) || ConfigOf(conf)["coordinator"] != "false") ==>
              r == Failure(ConfigurationError(CoordinatorMessage))
    // rule 3: the discovery URI must be given
    ensures WellFormed(conf) && "coordinator" in ConfigOf(conf) && ConfigOf(conf)["coordinator"] == "false" &&
            "discovery.uri" !in ConfigOf(conf) ==>
              r == Failure(ConfigurationError(NoDiscoveryUriMessage))
    // rule 4: the discovery URI must be an http:// URI; the message quotes it
    ensures WellFormed(conf) && "coordinator" in ConfigOf(conf) && ConfigOf(conf)["coordinator"] == "false" &&
            "discovery.uri" in ConfigOf(conf) && !StartsWith(ConfigOf(conf)["discovery.uri"], HttpScheme) ==>
              r == Failure(ConfigurationError(BadSchemeMessage + ConfigOf(conf)["discovery.uri"]))
    // rule 5: no localhost discovery URI in a multi-node cluster
    ensures WellFormed(conf) && "coordinator" in ConfigOf(conf) && ConfigOf(conf)["coordinator"] == "false" &&
            "discovery.uri" in ConfigOf(conf) && StartsWith(ConfigOf(conf)["discovery.uri"], HttpScheme) &&
            LocalhostInMultiNode(ConfigOf(conf)["discovery.uri"], allHosts) ==>
              r == Failure(ConfigurationError(LocalhostMessage))
    // a bundle that keeps every rule is accepted
    ensures WellFormed(conf) && "coordinator" in ConfigOf(conf) && ConfigOf(conf)["coordinator"] == "false" &&
            "discovery.uri" in ConfigOf(conf) && StartsWith(ConfigOf(conf)["discovery.uri"], HttpScheme) &&
            !LocalhostInMultiNode(ConfigOf(conf)["discovery.uri"], allHosts) ==>
              r == Success(conf)
  {
    var missing := FirstMissing(conf, 0);
    if missing < |RequiredFiles| then
      Failure(ConfigurationError(MissingFileMessage + RequiredFiles[missing]))
    else if !conf[NodeProperties].Properties? then
      Failure(ConfigurationError(NodeProperties + " must be an object with key-value property pairs"))
    else if !conf[JvmConfig].Flags? then
      Failure(ConfigurationError(JvmConfig + " must contain a json array of jvm arguments"))
    else if !conf[ConfigProperties].Properties? then
      Failure(ConfigurationError(ConfigProperties + " must be an object with key-value property pairs"))
    else
      var props := conf[ConfigProperties].props;
      if "coordinator" !in props || props["coordinator"] != "false" then
        Failure(ConfigurationError(CoordinatorMessage))
      else if "discovery.uri" !in props then
        Failure(ConfigurationError(NoDiscoveryUriMessage))
      else if !StartsWith(props["discovery.uri"], HttpScheme) then
        Failure(ConfigurationError(BadSchemeMessage + props["discovery.uri"]))
      else if LocalhostInMultiNode(props["discovery.uri"], allHosts) then
        Failure(ConfigurationError(LocalhostMessage))
      else
        Success(conf)
  }

  /** Merging one file: property maps merge key by key with the user's value
      winning; a non-empty user flag list replaces the default list, an empty
      one leaves it; content of the other kind than the default is kept as the
      user gave it. */
  function MergePayload(default: Payload, user: Payload): (p: Payload)
    ensures default.Properties? && user.Properties? ==>
              && p.Properties?
              && p.props.Keys == default.props.Keys + user.props.Keys
              && (forall k :: k in user.props ==> p.props[k] == user.props[k])
              && (forall k :: k in default.props && k !in user.props ==> p.props[k] == default.props[k])
    ensures default.Flags? && user.Flags? ==> p == (if user.flags == [] then default else user)
    ensures default.Properties? != user.Properties? ==> p == user
  {
    match (default, user)
    case (Properties(d), Properties(u)) => Properties(d + u)
    case (Flags(_), Flags(u)) => if u == [] then default else user
    case _ => user
  }

  /** The defaults filled in under the user's configuration: a file only the
      user gives passes through, a file only the defaults give is taken from
      them, and a file both give is merged by MergePayload. */
  function Merge(defaults: Bundle, user: Bundle): (conf: Bundle)
    ensures conf.Keys == defaults.Keys + user.Keys
    ensures forall f :: f in defaults && f !in user ==> conf[f] == defaults[f]
    ensures forall f :: f in user && f !in defaults ==> conf[f] == user[f]
    ensures forall f :: f in user && f in defaults ==> conf[f] == MergePayload(defaults[f], user[f])
  {
    map f | f in defaults.Keys + user.Keys ::
      if f in user && f in defaults then MergePayload(defaults[f], user[f])
      else if f in user then user[f]
      else defaults[f]
  }

  /** An empty user configuration yields exactly the defaults. */
  lemma MergeEmpty(defaults: Bundle)
    ensures Merge(defaults, map[]) == defaults
  {
  }

  /** Applying the same overrides a second time changes nothing. */
  lemma MergeIdempotent(defaults: Bundle, user: Bundle)
    ensures Merge(Merge(defaults, user), user) == Merge(defaults, user)
  {
    var once := Merge(defaults, user);
    var twice := Merge(once, user);
    forall f | f in twice.Keys
      ensures twice[f] == once[f]
    {
      if f in user && f in defaults {
        var o, u := once[f], user[f];
        if o.Properties? && u.Properties? {
          assert twice[f].props == o.props;
        }
      }
    }
  }

  /** Filling in the defaults a second time changes nothing. */
  lemma MergeDefaultsAgain(defaults: Bundle, user: Bundle)
    ensures Merge(defaults, Merge(defaults, user)) == Merge(defaults, user)
  {
    var once := Merge(defaults, user);
    var twice := Merge(defaults, once);
    forall f | f in twice.Keys
      ensures twice[f] == once[f]
    {
      if f in defaults {
        var d, u := defaults[f], once[f];
        if d.Properties? && u.Properties? {
          assert twice[f].props == u.props;
        }
      }
    }
  }

  /** `conf` fills in `defaults` under `user`: it has the files of both, the
      files the user omits come from the defaults, every property the user
      gives is kept, and every default property the user does not override is
      kept. */
  predicate FillsDefaults(defaults: Bundle, user: Bundle, conf: Bundle) {
    && conf.Keys == defaults.Keys + user.Keys
    && (forall f :: f in defaults && f !in user ==> conf[f] == defaults[f])
    && (forall f, k :: f in user && user[f].Properties? && k in user[f].props ==>
          conf[f].Properties? && k in conf[f].props && conf[f].props[k] == user[f].props[k])
    && (forall f, k ::
          (f in user && user[f].Properties? && f in defaults && defaults[f].Properties? &&
           k in defaults[f].props && k !in user[f].props) ==>
          conf[f].Properties? && k in conf[f].props && conf[f].props[k] == defaults[f].props[k])
  }

  /** Merging user overrides over any defaults fills them in. */
  lemma MergeFillsDefaults(defaults: Bundle, user: Bundle)
    ensures FillsDefaults(defaults, user, Merge(defaults, user))
  {
  }

  /** `get_conf()`: the user's configuration with the defaults filled in, then
      validated. `coordinatorRole` is `get_coordinator_role()`, whose first host
      the defaults point at; an empty role raises IndexError. */
  function GetConf(user: Bundle, coordinatorRole: seq<Host>, allHosts: seq<Host>): (r: Result<Bundle, Error>)
    ensures coordinatorRole == [] <==> r == Failure(IndexError)
    ensures coordinatorRole != [] && r.Failure? ==> r.error.ConfigurationError?
    // a failure other than IndexError is the error validation raises on the merged bundle
    ensures coordinatorRole != [] && r.Failure? ==> r == Validate(Merge(BuildDefaults(coordinatorRole[0]), user), allHosts)
    // the result is the merged bundle exactly when that bundle validates
    ensures r.Success? ==> Validate(r.value, allHosts) == Success(r.value)
    ensures coordinatorRole != [] ==>
              (r.Success? <==> Validate(Merge(BuildDefaults(coordinatorRole[0]), user), allHosts).Success?)
    ensures r.Success? ==> r.value == Merge(BuildDefaults(coordinatorRole[0]), user)
    ensures r.Success? ==> WellFormed(r.value) && FillsDefaults(BuildDefaults(coordinatorRole[0]), user, r.value)
  {
    if coordinatorRole == [] then Failure(IndexError)
    else
      var merged := Merge(BuildDefaults(coordinatorRole[0]), user);
      var v := Validate(merged, allHosts);
      assert v.Success? ==> v.value == merged && Validate(v.value, allHosts) == v;
      MergeFillsDefaults(BuildDefaults(coordinatorRole[0]), user);
      v
  }

  /** The defaults are self-consistent: they pass validation, returned unchanged,
      unless the coordinator is `localhost` in a multi-node cluster. */
  lemma DefaultsAreValid(coordinator: Host, allHosts: seq<Host>)
    requires ':' !in coordinator && '/' !in coordinator
    ensures Validate(BuildDefaults(coordinator), allHosts) ==
              if coordinator == "localhost" && |allHosts| > 1
              then Failure(ConfigurationError(LocalhostMessage))
              else Success(BuildDefaults(coordinator))
  {
    DiscoveryUriHost(coordinator);
    assert FirstMissing(BuildDefaults(coordinator), 0) == |RequiredFiles|;
  }

  /** An empty user configuration yields exactly the defaults. */
  lemma GetConfEmptyIsDefault(coordinator: Host, rest: seq<Host>, allHosts: seq<Host>)
    requires ':' !in coordinator && '/' !in coordinator
    requires !(coordinator == "localhost" && |allHosts| > 1)
    ensures GetConf(map[], [coordinator] + rest, allHosts) == Success(BuildDefaults(coordinator))
  {
    MergeEmpty(BuildDefaults(coordinator));
    DefaultsAreValid(coordinator, allHosts);
  }

  /** With no user configuration, a `localhost` coordinator in a cluster of more
      than one host is refused. */
  lemma GetConfLocalhostMultiNode(rest: seq<Host>, allHosts: seq<Host>)
    requires |allHosts| > 1
    ensures GetConf(map[], ["localhost"] + rest, allHosts) == Failure(ConfigurationError(LocalhostMessage))
  {
    MergeEmpty(BuildDefaults("localhost"));
    DefaultsAreValid("localhost", allHosts);
  }

  /** The default bundle for coordinator `a`, file by file and value by value. */
  lemma BuildDefaultsExample()
    ensures BuildDefaults("a") ==
              map[NodeProperties := Properties(map["node.environment" := "presto",
                                                   "node.data-dir" := "/var/lib/presto/data",
                                                   "plugin.config-dir" := "/etc/presto/catalog",
                                                   "plugin.dir" := "/usr/lib/presto/lib/plugin"]),
                  JvmConfig := Flags(["-server", "-Xmx2G", "-XX:-UseBiasedLocking", "-XX:+UseG1GC",
                                      "-XX:+ExplicitGCInvokesConcurrent", "-XX:+HeapDumpOnOutOfMemoryError",
                                      "-XX:+UseGCOverheadLimit", "-XX:OnOutOfMemoryError=kill -9 %p",
                                      "-DHADOOP_USER_NAME=hive"]),
                  ConfigProperties := Properties(map["coordinator" := "false",
                                                     "discovery.uri" := "http://a:8080",
                                                     "http-server.http.port" := "8080",
                                                     "query.max-memory" := "50GB",
                                                     "query.max-memory-per-node" := "1GB"])]
  {
    assert DiscoveryUri("a") == "http://a:8080";
  }

  /** A user `node.properties` overrides the default values of its keys, adds
      its unknown keys, and leaves the other default properties and the other
      files as they were. */
  lemma GetConfNodePropertiesOverride(coordinator: Host, rest: seq<Host>, allHosts: seq<Host>,
                                      user: map<string, string>)
    requires ':' !in coordinator && '/' !in coordinator
    requires !(coordinator == "localhost" && |allHosts| > 1)
    ensures GetConf(map[NodeProperties := Properties(user)], [coordinator] + rest, allHosts) ==
              Success(BuildDefaults(coordinator)[NodeProperties := Properties(DefaultNodeProperties + user)])
  {
    var defaults := BuildDefaults(coordinator);
    var expected := defaults[NodeProperties := Properties(DefaultNodeProperties + user)];
    var merged := Merge(defaults, map[NodeProperties := Properties(user)]);
    assert merged == expected;
    assert ConfigOf(expected) == ConfigOf(defaults);
    DiscoveryUriHost(coordinator);
    assert FirstMissing(expected, 0) == |RequiredFiles|;
  }

  /** A bundle whose only file has a misspelt name lacks `node.properties`, the
      first required file, and is refused naming it. */
  lemma MisspeltFileRejected(allHosts: seq<Host>)
    ensures Validate(map["node.propoerties" := Properties(map[])], allHosts) ==
              Failure(ConfigurationError(MissingFileMessage + NodeProperties))
  {
    assert FirstMissing(map["node.propoerties" := Properties(map[])], 0) == 0;
  }
}
