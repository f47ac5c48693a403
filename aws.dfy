/**
 * AWS configuration: the `Conf` record and its defaults, building a fresh
 * configuration or updating the module-wide one with "override only what is
 * not None", choosing among the three ways of obtaining a boto3 session, and
 * choosing which configuration a service client is built from. The boto3 and
 * STS calls themselves are outside the model: the STS `assume_role` answer is
 * a parameter, and a session or client is the record of the arguments it
 * would be built with.
 */
module Aws {
  import opened Wrappers

  /** `AWS_ASSUME_ROLE` is either a boolean or a string (a role ARN). */
  datatype RoleSetting = Flag(enabled: bool) | RoleArn(arn: string)

  /** The `Conf` record, without its `session` field (which nothing here reads). */
  datatype Conf = Conf(
    assumeRole: RoleSetting,
    region: Option<string>,
    profileName: Option<string>,
    accessKeyId: Option<string>,
    secretAccessKey: Option<string>)

  /** `Conf()`: no role, every other field None. */
  const DefaultConf: Conf := Conf(Flag(false), None, None, None, None)

  /** The session name every role assumption uses. */
  const RoleSessionName: string := "AssumeRoleSession"

  /** Python truthiness of an optional string: None and "" are false. */
  predicate TruthyString(s: Option<string>) {
    s.Some? && s.value != ""
  }

  /** Python truthiness of the role setting: False and "" are false. */
  predicate TruthyRole(r: RoleSetting) {
    match r
    case Flag(b) => b
    case RoleArn(s) => s != ""
  }

  /** `isinstance(AWS_ASSUME_ROLE, str)`. */
  predicate IsString(r: RoleSetting) {
    r.RoleArn?
  }

  /**
   * `get_aws_conf`: a fresh default configuration in which every argument
   * that is not None replaces the corresponding field.
   */
  function GetAwsConf(
    assumeRole: Option<RoleSetting>,
    region: Option<string>,
    profileName: Option<string>,
    accessKeyId: Option<string>,
    secretAccessKey: Option<string>): (c: Conf)
    ensures c.assumeRole == (if assumeRole.Some? then assumeRole.value else Flag(false))
    ensures c.region == region
    ensures c.profileName == profileName
    ensures c.accessKeyId == accessKeyId
    ensures c.secretAccessKey == secretAccessKey
  {
    var c := DefaultConf;
    var c := if assumeRole.Some? then c.(assumeRole := assumeRole.value) else c;
    var c := if region.Some? then c.(region := region) else c;
    var c := if profileName.Some? then c.(profileName := profileName) else c;
    var c := if accessKeyId.Some? then c.(accessKeyId := accessKeyId) else c;
    var c := if secretAccessKey.Some? then c.(secretAccessKey := secretAccessKey) else c;
    c
  }

  /** What STS is asked for when a role is assumed. */
  datatype StsRequest = StsRequest(
    accessKeyId: Option<string>,
    secretAccessKey: Option<string>,
    roleArn: string,
    roleSessionName: string)

  /** The `Credentials` part of the STS `assume_role` answer. */
  datatype Credentials = Credentials(accessKeyId: string, secretAccessKey: string, sessionToken: string)

  /** A boto3 session, as the arguments it is built with. */
  datatype Session =
    | AssumedRoleSession(request: StsRequest, credentials: Credentials, region: Option<string>)
    | ProfileSession(profileName: string, region: Option<string>)
    | KeySession(accessKeyId: Option<string>, secretAccessKey: Option<string>, region: Option<string>)

  /** The three ways of obtaining a session, from highest to lowest precedence. */
  datatype SessionKind = AssumedRole | NamedProfile | StaticKeys

  function Rank(k: SessionKind): nat {
    match k
    case AssumedRole => 0
    case NamedProfile => 1
    case StaticKeys => 2
  }

  function KindOf(s: Session): SessionKind {
    match s
    case AssumedRoleSession(_, _, _) => AssumedRole
    case ProfileSession(_, _) => NamedProfile
    case KeySession(_, _, _) => StaticKeys
  }

  /** Whether a configuration allows a way of obtaining a session. */
  predicate Eligible(c: Conf, k: SessionKind) {
    match k
    case AssumedRole => TruthyRole(c.assumeRole) && IsString(c.assumeRole)
    case NamedProfile => TruthyString(c.profileName)
    case StaticKeys => true
  }

  /**
   * `get_aws_session`: the first eligible way in the order assumed role,
   * named profile, static keys, with the arguments that way forwards. `sts`
   * stands for the STS client's `assume_role` answer.
   */
  function GetAwsSession(c: Conf, sts: StsRequest -> Credentials): (s: Session)
    ensures Eligible(c, KindOf(s))
    ensures forall k :: Rank(k) < Rank(KindOf(s)) ==> !Eligible(c, k)
    ensures s.AssumedRoleSession? ==>
      && s.request == StsRequest(c.accessKeyId, c.secretAccessKey, c.assumeRole.arn, RoleSessionName)
      && s.credentials == sts(s.request)
      && s.region == c.region
    ensures s.ProfileSession? ==> s.profileName == c.profileName.value && s.region == c.region
    ensures s.KeySession? ==>
      s.accessKeyId == c.accessKeyId && s.secretAccessKey == c.secretAccessKey && s.region == c.region
  {
    if TruthyRole(c.assumeRole) && IsString(c.assumeRole) then
      var request := StsRequest(c.accessKeyId, c.secretAccessKey, c.assumeRole.arn, RoleSessionName);
      AssumedRoleSession(request, sts(request), c.region)
    else if TruthyString(c.profileName) then
      ProfileSession(c.profileName.value, c.region)
    else
      KeySession(c.accessKeyId, c.secretAccessKey, c.region)
  }

  /** A role is assumed exactly when `AWS_ASSUME_ROLE` is a non-empty string. */
  lemma AssumesRoleIff(c: Conf, sts: StsRequest -> Credentials)
    ensures GetAwsSession(c, sts).AssumedRoleSession? <==> c.assumeRole.RoleArn? && c.assumeRole.arn != ""
  {
  }

  /** A boolean setting, True included, never assumes a role. */
  lemma FlagNeverAssumesRole(c: Conf, b: bool, sts: StsRequest -> Credentials)
    requires c.assumeRole == Flag(b)
    ensures !GetAwsSession(c, sts).AssumedRoleSession?
    ensures GetAwsSession(c, sts) ==
      if TruthyString(c.profileName) then ProfileSession(c.profileName.value, c.region)
      else KeySession(c.accessKeyId, c.secretAccessKey, c.region)
  {
  }

  /** STS is consulted only for an assumed role: otherwise its answer does not matter. */
  lemma StsOnlyForAssumedRole(c: Conf, sts1: StsRequest -> Credentials, sts2: StsRequest -> Credentials)
    ensures KindOf(GetAwsSession(c, sts1)) == KindOf(GetAwsSession(c, sts2))
    ensures !GetAwsSession(c, sts1).AssumedRoleSession? ==> GetAwsSession(c, sts1) == GetAwsSession(c, sts2)
  {
  }

  /** The default configuration builds a session from (absent) static keys. */
  lemma DefaultConfUsesStaticKeys(sts: StsRequest -> Credentials)
    ensures GetAwsSession(DefaultConf, sts) == KeySession(None, None, None)
  {
  }

  /** A service client: the session it comes from and the service it is for. */
  datatype ServiceClient = ServiceClient(session: Session, serviceName: string)

  /**
   * The module-wide state of the AWS configuration module: the global `conf`
   * that `setup_aws_conf` updates and `aws_get_service` falls back on.
   */
  class AwsModule {
    var conf: Conf

    constructor ()
      ensures conf == DefaultConf
    {
      conf := DefaultConf;
    }

    /**
     * `setup_aws_conf`: every argument that is not None replaces the
     * corresponding field of the global configuration; the other fields
     * keep their values.
     */
    method SetupAwsConf(
      assumeRole: Option<RoleSetting>,
      region: Option<string>,
      profileName: Option<string>,
      accessKeyId: Option<string>,
      secretAccessKey: Option<string>)
      modifies this
      ensures conf.assumeRole == if assumeRole.Some? then assumeRole.value else old(conf.assumeRole)
      ensures conf.region == if region.Some? then region else old(conf.region)
      ensures conf.profileName == if profileName.Some? then profileName else old(conf.profileName)
      ensures conf.accessKeyId == if accessKeyId.Some? then accessKeyId else old(conf.accessKeyId)
      ensures conf.secretAccessKey == if secretAccessKey.Some? then secretAccessKey else old(conf.secretAccessKey)
    {
      if assumeRole.Some? {
        conf := conf.(assumeRole := assumeRole.value);
      }
      if region.Some? {
        conf := conf.(region := region);
      }
      if profileName.Some? {
        conf := conf.(profileName := profileName);
      }
      if accessKeyId.Some? {
        conf := conf.(accessKeyId := accessKeyId);
      }
      if secretAccessKey.Some? {
        conf := conf.(secretAccessKey := secretAccessKey);
      }
    }

    /**
     * `aws_get_service`: a client for `serviceName` from the session of the
     * given configuration, or of the global one when none is given.
     */
    function AwsGetService(serviceName: string, awsConf: Option<Conf>, sts: StsRequest -> Credentials): (client: ServiceClient)
      reads this
      ensures client.serviceName == serviceName
      ensures awsConf.Some? ==> client.session == GetAwsSession(awsConf.value, sts)
      ensures awsConf.None? ==> client.session == GetAwsSession(conf, sts)
    {
      ServiceClient(GetAwsSession(if awsConf.None? then conf else awsConf.value, sts), serviceName)
    }
  }

  /** An explicit configuration makes the global one irrelevant. */
  lemma ExplicitConfIgnoresGlobal(m1: AwsModule, m2: AwsModule, serviceName: string, c: Conf, sts: StsRequest -> Credentials)
    ensures m1.AwsGetService(serviceName, Some(c), sts) == m2.AwsGetService(serviceName, Some(c), sts)
  {
  }

  /**
   * Setting up a fresh module's global configuration gives the same record
   * as building one with the same arguments.
   */
  method SetupMatchesGetAwsConf(
    assumeRole: Option<RoleSetting>,
    region: Option<string>,
    profileName: Option<string>,
    accessKeyId: Option<string>,
    secretAccessKey: Option<string>) returns (c: Conf)
    ensures c == GetAwsConf(assumeRole, region, profileName, accessKeyId, secretAccessKey)
  {
    var m := new AwsModule();
    m.SetupAwsConf(assumeRole, region, profileName, accessKeyId, secretAccessKey);
    c := m.conf;
  }

  /**
   * After `setup_aws_conf(region=..., profile_name=...)` on the default
   * global configuration, a service client without an explicit
   * configuration uses that profile and region.
   */
  method SetupThenGetService(region: string, profile: string, serviceName: string, sts: StsRequest -> Credentials)
    returns (client: ServiceClient)
    requires profile != ""
    ensures client == ServiceClient(ProfileSession(profile, Some(region)), serviceName)
  {
    var m := new AwsModule();
    m.SetupAwsConf(None, Some(region), Some(profile), None, None);
    client := m.AwsGetService(serviceName, None, sts);
  }
}
