/**
 * The Flipr facade: checks the credentials, merges the caller's
 * configuration over the defaults, owns one session client, and fetches
 * the latest survey of the configured device as a measurement.
 */
module Facade {
  import opened Wrappers
  import opened FliprConfig
  import opened Net
  import opened Measures

  const UsernameMissing: string := "You must set the username property."
  const PasswordMissing: string := "You must set the password property."

  /** The defaults every property falls back to: all null. */
  const DefaultConfig: Config := Config(Null, Null, Null)

  /** `{...base, ...over}`: every property the caller's object has overrides the base. */
  function Merge(base: Config, over: CallerConfig): (r: Config)
    ensures over.username.Some? ==> r.username == over.username.value
    ensures over.username.None? ==> r.username == base.username
    ensures over.password.Some? ==> r.password == over.password.value
    ensures over.password.None? ==> r.password == base.password
    ensures over.deviceSerial.Some? ==> r.deviceSerial == over.deviceSerial.value
    ensures over.deviceSerial.None? ==> r.deviceSerial == base.deviceSerial
  {
    Config(
      if over.username.Some? then over.username.value else base.username,
      if over.password.Some? then over.password.value else base.password,
      if over.deviceSerial.Some? then over.deviceSerial.value else base.deviceSerial)
  }

  /** Merging the same object twice is merging it once. */
  lemma MergeIdempotent(base: Config, over: CallerConfig)
    ensures Merge(Merge(base, over), over) == Merge(base, over)
  {
  }

  /** An object that sets all three properties ignores the defaults. */
  lemma MergeOfCompleteConfigIgnoresBase(base: Config, other: Config, over: CallerConfig)
    requires over.username.Some? && over.password.Some? && over.deviceSerial.Some?
    ensures Merge(base, over) == Merge(other, over)
  {
  }

  /**
   * A credential is truthy in the caller's object exactly when it is
   * truthy after the merge: checking before merging decides the same.
   */
  lemma MergeKeepsTruthiness(over: CallerConfig)
    ensures Truthy(Read(over.username)) <==> Truthy(Merge(DefaultConfig, over).username)
    ensures Truthy(Read(over.password)) <==> Truthy(Merge(DefaultConfig, over).password)
  {
  }

  /**
   * The constructor's checks and merge: a falsy username fails first, then
   * a falsy password; otherwise the merged configuration.
   */
  function CheckConfig(over: CallerConfig): (r: Result<Config, string>)
    ensures !Truthy(Read(over.username)) ==> r == Failure(UsernameMissing)
    ensures Truthy(Read(over.username)) && !Truthy(Read(over.password)) ==>
      r == Failure(PasswordMissing)
    ensures r.Success? <==> Truthy(Read(over.username)) && Truthy(Read(over.password))
    ensures r.Success? ==> r.value == Merge(DefaultConfig, over)
    ensures r.Success? ==> Truthy(r.value.username) && Truthy(r.value.password)
  {
    if !Truthy(Read(over.username)) then Failure(UsernameMissing)
    else if !Truthy(Read(over.password)) then Failure(PasswordMissing)
    else
      MergeKeepsTruthiness(over);
      Success(Merge(DefaultConfig, over))
  }

  /** The survey endpoint of a device: `'/modules/' + deviceSerial + '/survey/last'`. */
  function SurveyPath(serial: JsValue): (p: string)
    ensures |p| == |"/modules/"| + |ToText(serial)| + |"/survey/last"|
    ensures p[..|"/modules/"|] == "/modules/"
    ensures p[|p| - |"/survey/last"|..] == "/survey/last"
    ensures p[|"/modules/"|..|p| - |"/survey/last"|] == ToText(serial)
  {
    "/modules/" + ToText(serial) + "/survey/last"
  }

  /** The device serial read back out of a survey path, if it is one. */
  function SerialInPath(p: string): (s: Option<string>)
    ensures s.Some? ==> p == "/modules/" + s.value + "/survey/last"
  {
    var pre, post := "/modules/", "/survey/last";
    if |p| >= |pre| + |post| && p[..|pre|] == pre && p[|p| - |post|..] == post
    then
      var s := p[|pre|..|p| - |post|];
      assert p == p[..|pre|] + s + p[|p| - |post|..];
      Some(s)
    else None
  }

  /** The serial's text is read back from its survey path, so the path names exactly one device. */
  lemma SurveyPathRoundTrip(serial: JsValue)
    ensures SerialInPath(SurveyPath(serial)) == Some(ToText(serial))
  {
  }

  /** A serial set to `undefined` or `null` is spelt out in the path. */
  lemma SurveyPathOfMissingSerial()
    ensures SurveyPath(Undefined) == "/modules/undefined/survey/last"
    ensures SurveyPath(Null) == "/modules/null/survey/last"
  {
  }

  class Flipr {
    const config: Config
    const network: Network

    /** The session client works with the facade's own configuration, and keeps its invariant. */
    predicate Valid()
      reads this, network
    {
      network.config == config && network.Valid()
    }

    /** The assignments after the checks; the fire-and-forget `auth()` is not modelled. */
    constructor(config: Config)
      ensures this.config == config
      ensures fresh(network) && network.config == config && network.expiryRule == Intended
      ensures network.accessToken == None && network.expires == None
      ensures Valid()
    {
      this.config := config;
      network := new Network(config, Intended);
    }

    /** `new Flipr(config)`: throws when a credential is missing, otherwise a client with no session yet. */
    static method Create(over: CallerConfig) returns (r: Result<Flipr, string>)
      ensures r.Failure? <==> CheckConfig(over).Failure?
      ensures r.Failure? ==> r.error == CheckConfig(over).error
      ensures r.Success? ==>
        fresh(r.value) && fresh(r.value.network) &&
        r.value.config == CheckConfig(over).value &&
        r.value.network.config == r.value.config && r.value.network.expiryRule == Intended &&
        r.value.network.accessToken == None && r.value.network.expires == None &&
        r.value.Valid()
    {
      var checked := CheckConfig(over);
      if checked.Failure? {
        return Failure(checked.error);
      }
      var f := new Flipr(checked.value);
      r := Success(f);
    }

    /**
     * `getLastMeasure()`: an authenticated GET of the device's survey
     * endpoint, whose body is mapped into a measurement.
     */
    method GetLastMeasure(now: int, authReply: AuthReply, reply: Reply<Payload>)
      returns (authSent: Option<TokenRequest>, sent: Option<GetRequest>, r: GetOutcome<Measure>)
      requires Valid()
      modifies network
      ensures Valid()
      ensures authSent.None? <==> old(network.HasValidSession(now))
      ensures authSent.Some? ==>
        authSent.value == TokenRequest(ApiBaseUrl + "/OAuth2/token", "password", config.username, config.password)
      ensures authSent.None? ==>
        network.accessToken == old(network.accessToken) && network.expires == old(network.expires)
      ensures authSent.Some? && authReply.status != HttpOk ==>
        network.accessToken == old(network.accessToken) && network.expires == old(network.expires)
      ensures authSent.Some? && authReply.status == HttpOk ==>
        network.accessToken == Some(authReply.accessToken) &&
        network.expires == Some(network.ExpiryAfter(now, authReply.expiresIn))
      ensures sent.None? <==> r == Unsettled
      ensures r == Unsettled <==> authSent.Some? && authReply.status != HttpOk
      ensures sent.Some? ==>
        network.accessToken.Some? &&
        sent.value == GetRequest(ApiBaseUrl + SurveyPath(config.deviceSerial),
                                 "Bearer " + network.accessToken.value)
      ensures sent.Some? ==> (r.Resolved? <==> reply.status == HttpOk)
      ensures r.Resolved? ==> r.body == FromPayload(reply.body)
      ensures r.Rejected? ==> r.error == reply.error
    {
      var outcome;
      authSent, sent, outcome := network.Get(SurveyPath(config.deviceSerial), now, authReply, reply);
      match outcome
      case Resolved(body) => r := Resolved(FromPayload(body));
      case Rejected(e) => r := Rejected(e);
      case Unsettled => r := Unsettled;
    }
  }
}
