/**
 * The identity-service client and the authentication middleware
 * (src/identity_sdk/client.py).
 *
 * The HTTP round trip is a parameter, `transport`, from the request the client
 * issues to its outcome; Python's exception chaining becomes the explicit
 * `Cause` of an `Error`; the web framework's error responses become `HttpError`.
 */
module Client {
  import opened Wrappers
  import opened Json
  import opened Validation

  // ---------------------------------------------------------------------------
  // Error
  // ---------------------------------------------------------------------------

  const CouldNotValidateReason := "Could not validate input/output"
  const UnreachableReason := "Could not reach identity service"
  const HttpErrorReason := "HTTP Error"

  /** The exception an `Error` was raised from (its `__context__`). */
  datatype Cause =
    | ValidationCause(validationError: ValidationError)  // validation.Error
    | ConnectionCause                                     // requests.ConnectionError
    | TimeoutCause                                        // requests.Timeout
    | HttpCause                                           // requests.HTTPError

  /** The client library's `Error`: a reason, an optional status code and its cause. */
  datatype Error = Error(reason: string, statusCode: Option<int>, cause: Cause)

  // ---------------------------------------------------------------------------
  // The HTTP round trip
  // ---------------------------------------------------------------------------

  /** The one request the client issues: a GET of `url` with this Authorization header. */
  datatype HttpRequest = HttpRequest(url: string, authorization: string)

  /** What the round trip yields: a transport failure, or a response whose body was decoded as JSON. */
  datatype HttpOutcome =
    | ConnectionError
    | Timeout
    | Response(statusCode: int, body: Value)

  /** `raise_for_status` raises for client errors (4xx) and server errors (5xx). */
  predicate RaisesForStatus(statusCode: int) {
    400 <= statusCode < 600
  }

  // ---------------------------------------------------------------------------
  // IdentityClient
  // ---------------------------------------------------------------------------

  const HttpScheme := "http://"
  const UserPath := "/user"

  /** The `validate` method of an access-token header validator. */
  type HeaderValidator = Option<string> -> Result<string, ValidationError>

  /** An IdentityClient: the user URL and the two validators it was built with. */
  datatype IdentityClient = IdentityClient(
    identityServiceUserUrl: string,
    userResponseValidator: SubValidator,
    accessTokenHeaderValidator: Option<HeaderValidator>)

  /** The client's constructor: the user resource of the given domain, over plain HTTP. */
  function NewIdentityClient(identityServiceDomain: string, userResponseValidator: SubValidator, accessTokenHeaderValidator: Option<HeaderValidator>): (c: IdentityClient)
    ensures var url := c.identityServiceUserUrl;
      && |url| == |HttpScheme| + |identityServiceDomain| + |UserPath|
      && url[..|HttpScheme|] == HttpScheme
      && url[|HttpScheme|..|url| - |UserPath|] == identityServiceDomain
      && url[|url| - |UserPath|..] == UserPath
    ensures c.userResponseValidator == userResponseValidator
    ensures c.accessTokenHeaderValidator == accessTokenHeaderValidator
  {
    IdentityClient(HttpScheme + identityServiceDomain + UserPath, userResponseValidator, accessTokenHeaderValidator)
  }

  /** A client built with the SDK's own `AccessTokenHeaderValidator`. */
  function StandardIdentityClient(identityServiceDomain: string, userResponseValidator: SubValidator): IdentityClient {
    NewIdentityClient(identityServiceDomain, userResponseValidator, Some(ValidateAccessTokenHeader))
  }

  /** Every envelope the response validator accepts is an object with a `user` entry (its schema requires one). */
  ghost predicate YieldsUserEnvelope(validator: SubValidator) {
    forall body :: validator(body).Success? ==>
      validator(body).value.Object? && UserKey in validator(body).value.fields
  }

  /**
   * What `get_user` needs of its client: a header validator (the constructor's
   * default is None), and a response validator whose successes hold a user.
   */
  ghost predicate Ready(c: IdentityClient) {
    c.accessTokenHeaderValidator.Some? && YieldsUserEnvelope(c.userResponseValidator)
  }

  /** One call of `get_user`: the request it issued, if any, and what it returned or raised. */
  datatype GetUserRun = GetUserRun(sent: Option<HttpRequest>, result: Result<Value, Error>)

  /**
   * `IdentityClient.get_user`: validate the header, GET the user resource with the
   * bearer token, check the status, validate the envelope and return its user.
   */
  function GetUser(c: IdentityClient, accessTokenRaw: Option<string>, transport: HttpRequest -> HttpOutcome): (run: GetUserRun)
    requires Ready(c)
    // A request is issued exactly when the header validates, and it carries that token.
    ensures var header := c.accessTokenHeaderValidator.value(accessTokenRaw);
      && (run.sent.Some? <==> header.Success?)
      && (header.Success? ==>
            run.sent == Some(HttpRequest(c.identityServiceUserUrl, BearerPrefix + header.value)))
      && (header.Failure? ==>
            run.result == Failure(Error(CouldNotValidateReason, None, ValidationCause(header.error))))
    // Transport failures.
    ensures run.sent.Some? && transport(run.sent.value).ConnectionError? ==>
              run.result == Failure(Error(UnreachableReason, None, ConnectionCause))
    ensures run.sent.Some? && transport(run.sent.value).Timeout? ==>
              run.result == Failure(Error(UnreachableReason, None, TimeoutCause))
    // An error status is reported with exactly that code, and only then is there a code.
    ensures run.sent.Some? && transport(run.sent.value).Response? && RaisesForStatus(transport(run.sent.value).statusCode) ==>
              run.result == Failure(Error(HttpErrorReason, Some(transport(run.sent.value).statusCode), HttpCause))
    ensures run.result.Failure? ==> (run.result.error.statusCode.Some? <==> run.result.error.cause.HttpCause?)
    // A body the response validator rejects.
    ensures run.sent.Some? && transport(run.sent.value).Response? && !RaisesForStatus(transport(run.sent.value).statusCode)
              && c.userResponseValidator(transport(run.sent.value).body).Failure? ==>
              run.result == Failure(Error(CouldNotValidateReason, None,
                                          ValidationCause(c.userResponseValidator(transport(run.sent.value).body).error)))
    // Success is the user entry of the validated envelope of a non-error response, and
    // every non-error response whose envelope validates is a success.
    ensures run.sent.Some? && transport(run.sent.value).Response? && !RaisesForStatus(transport(run.sent.value).statusCode)
              && c.userResponseValidator(transport(run.sent.value).body).Success? ==>
              run.result == Success(c.userResponseValidator(transport(run.sent.value).body).value.fields[UserKey])
    ensures run.result.Success? ==>
              && run.sent.Some?
              && transport(run.sent.value).Response?
              && !RaisesForStatus(transport(run.sent.value).statusCode)
              && c.userResponseValidator(transport(run.sent.value).body).Success?
              && run.result.value == c.userResponseValidator(transport(run.sent.value).body).value.fields[UserKey]
  {
    match c.accessTokenHeaderValidator.value(accessTokenRaw)
    case Failure(e) =>
      GetUserRun(None, Failure(Error(CouldNotValidateReason, None, ValidationCause(e))))
    case Success(accessToken) =>
      var request := HttpRequest(c.identityServiceUserUrl, BearerPrefix + accessToken);
      var result :=
        match transport(request)
        case ConnectionError => Failure(Error(UnreachableReason, None, ConnectionCause))
        case Timeout => Failure(Error(UnreachableReason, None, TimeoutCause))
        case Response(statusCode, body) =>
          if RaisesForStatus(statusCode) then
            Failure(Error(HttpErrorReason, Some(statusCode), HttpCause))
          else
            match c.userResponseValidator(body)
            case Failure(e) => Failure(Error(CouldNotValidateReason, None, ValidationCause(e)))
            case Success(envelope) => Success(envelope.fields[UserKey]);
      GetUserRun(Some(request), result)
  }

  /** Without a valid header nothing is sent, so the outcome cannot depend on the service. */
  lemma InvalidHeaderSendsNothing(c: IdentityClient, accessTokenRaw: Option<string>, t1: HttpRequest -> HttpOutcome, t2: HttpRequest -> HttpOutcome)
    requires Ready(c)
    requires c.accessTokenHeaderValidator.value(accessTokenRaw).Failure?
    ensures GetUser(c, accessTokenRaw, t1) == GetUser(c, accessTokenRaw, t2)
    ensures GetUser(c, accessTokenRaw, t1).sent.None?
  {
  }

  /** The outcome depends on the service only through its answer to the one request sent. */
  lemma GetUserDependsOnlyOnAnswer(c: IdentityClient, accessTokenRaw: Option<string>, t1: HttpRequest -> HttpOutcome, t2: HttpRequest -> HttpOutcome)
    requires Ready(c)
    requires var run := GetUser(c, accessTokenRaw, t1); run.sent.Some? ==> t1(run.sent.value) == t2(run.sent.value)
    ensures GetUser(c, accessTokenRaw, t1) == GetUser(c, accessTokenRaw, t2)
  {
  }

  /**
   * With the SDK's header validator, the request goes to http://<domain>/user and
   * its Authorization header validates back to the very token that was extracted.
   */
  lemma StandardClientForwardsToken(identityServiceDomain: string, userResponseValidator: SubValidator, accessTokenRaw: Option<string>, transport: HttpRequest -> HttpOutcome)
    requires YieldsUserEnvelope(userResponseValidator)
    ensures var c := StandardIdentityClient(identityServiceDomain, userResponseValidator);
      var run := GetUser(c, accessTokenRaw, transport);
      && (run.sent.Some? <==> ValidateAccessTokenHeader(accessTokenRaw).Success?)
      && (run.sent.Some? ==>
            && run.sent.value.url == HttpScheme + identityServiceDomain + UserPath
            && ValidateAccessTokenHeader(Some(run.sent.value.authorization)) == ValidateAccessTokenHeader(accessTokenRaw))
  {
    var c := StandardIdentityClient(identityServiceDomain, userResponseValidator);
    var run := GetUser(c, accessTokenRaw, transport);
    if run.sent.Some? {
      var token := ValidateAccessTokenHeader(accessTokenRaw).value;
      BearerRoundTrip(token);
    }
  }

  // ---------------------------------------------------------------------------
  // AuthMiddleware
  // ---------------------------------------------------------------------------

  /** The framework's error responses the middleware raises. */
  datatype HttpError =
    | BadRequest(title: string, description: string)
    | Unauthorized(title: string, description: string, challenges: seq<string>)
    | NotFound(title: string, description: string)
    | BadGateway(title: string, description: string)
  {
    /** The HTTP status code of the response. */
    function Status(): int {
      match this
      case BadRequest(_, _) => 400
      case Unauthorized(_, _, _) => 401
      case NotFound(_, _) => 404
      case BadGateway(_, _) => 502
    }
  }

  const OptionsMethod := "OPTIONS"
  const BearerChallenge := "Bearer"
  const InvalidHeaderTitle := "Invalid Authorization header"
  const CannotRetrieveTitle := "Cannot retrieve data from identity service"
  const CannotRetrieveDescription := "Could not retrieve data from identity service"
  const RefusedTitle := "Could not retrieve data from identity service"
  const UserMissingText := "User does not exist"

  /** How Python's `str.format` renders the Authorization value (`None` when there is none). */
  function AuthText(auth: Option<string>): string {
    match auth
    case Some(s) => s
    case None => "None"
  }

  /**
   * The middleware's translation of a client `Error` into an outward error,
   * switching on the cause and, for HTTP errors, on the status code.
   */
  function ToHttpError(e: Error, auth: Option<string>): (r: HttpError)
    ensures r.BadRequest? <==> e.cause.ValidationCause?
    ensures r.Unauthorized? <==> e.cause.HttpCause? && e.statusCode == Some(401)
    ensures r.NotFound? <==> e.cause.HttpCause? && e.statusCode == Some(404)
    ensures r.BadGateway? <==>
              || e.cause.ConnectionCause?
              || e.cause.TimeoutCause?
              || (e.cause.HttpCause? && e.statusCode != Some(401) && e.statusCode != Some(404))
    ensures r.BadRequest? ==>
              r.description == "Invalid value \"" + AuthText(auth) + "\" for Authorization header"
    ensures r.Unauthorized? ==> r.challenges == [BearerChallenge]
    ensures r.Unauthorized? ==> r.title == RefusedTitle
    ensures r.NotFound? ==> r == NotFound(UserMissingText, UserMissingText)
    ensures r.BadGateway? ==> r == BadGateway(CannotRetrieveTitle, CannotRetrieveDescription)
    ensures r.BadRequest? ==> r.title == InvalidHeaderTitle
  {
    match e.cause
    case ValidationCause(_) =>
      BadRequest(InvalidHeaderTitle, "Invalid value \"" + AuthText(auth) + "\" for Authorization header")
    case ConnectionCause => BadGateway(CannotRetrieveTitle, CannotRetrieveDescription)
    case TimeoutCause => BadGateway(CannotRetrieveTitle, CannotRetrieveDescription)
    case HttpCause =>
      if e.statusCode == Some(401) then
        Unauthorized(RefusedTitle,
                     "Identity service refused to auhtorize with access token \"" + AuthText(auth) + "\"",
                     [BearerChallenge])
      else if e.statusCode == Some(404) then
        NotFound(UserMissingText, UserMissingText)
      else
        BadGateway(CannotRetrieveTitle, CannotRetrieveDescription)
  }

  /** A resource handler; `authNotRequired` is a present and truthy `AUTH_NOT_REQUIRED` attribute. */
  datatype Resource = Resource(authNotRequired: bool)

  /** What the middleware does with one request. */
  datatype Decision = PassThrough | AttachUser(user: Value) | Reject(error: HttpError)

  /**
   * The middleware's decision: OPTIONS requests and resources that opt out pass
   * through; otherwise the client resolves the user or its error is translated.
   */
  function Authenticate(c: IdentityClient, httpMethod: string, auth: Option<string>, resource: Resource, transport: HttpRequest -> HttpOutcome): (d: Decision)
    requires Ready(c)
    ensures d.PassThrough? <==> httpMethod == OptionsMethod || resource.authNotRequired
    ensures d.AttachUser? ==> GetUser(c, auth, transport).result == Success(d.user)
    ensures d.Reject? ==>
              && GetUser(c, auth, transport).result.Failure?
              && d.error == ToHttpError(GetUser(c, auth, transport).result.error, auth)
  {
    if httpMethod == OptionsMethod then
      PassThrough
    else if resource.authNotRequired then
      PassThrough
    else
      match GetUser(c, auth, transport).result
      case Success(user) => AttachUser(user)
      case Failure(e) => Reject(ToHttpError(e, auth))
  }

  /** A missing or malformed header is a 400 naming the header value, and the service is never asked. */
  lemma InvalidHeaderIsBadRequest(c: IdentityClient, httpMethod: string, auth: Option<string>, resource: Resource, transport: HttpRequest -> HttpOutcome)
    requires Ready(c)
    requires httpMethod != OptionsMethod && !resource.authNotRequired
    requires c.accessTokenHeaderValidator.value(auth).Failure?
    ensures var d := Authenticate(c, httpMethod, auth, resource, transport);
      && d.Reject? && d.error.Status() == 400
      && d.error.description == "Invalid value \"" + AuthText(auth) + "\" for Authorization header"
    ensures GetUser(c, auth, transport).sent.None?
  {
  }

  /**
   * An error status from the identity service: 401 becomes Unauthorized with a
   * Bearer challenge, 404 becomes Not Found, every other error status Bad Gateway.
   */
  lemma ServiceStatusTranslation(c: IdentityClient, httpMethod: string, auth: Option<string>, resource: Resource, transport: HttpRequest -> HttpOutcome)
    requires Ready(c)
    requires httpMethod != OptionsMethod && !resource.authNotRequired
    requires c.accessTokenHeaderValidator.value(auth).Success?
    requires var answer := transport(HttpRequest(c.identityServiceUserUrl, BearerPrefix + c.accessTokenHeaderValidator.value(auth).value));
      answer.Response? && RaisesForStatus(answer.statusCode)
    ensures var status := transport(HttpRequest(c.identityServiceUserUrl, BearerPrefix + c.accessTokenHeaderValidator.value(auth).value)).statusCode;
      var d := Authenticate(c, httpMethod, auth, resource, transport);
      && d.Reject?
      && d.error.Status() == (if status == 401 then 401 else if status == 404 then 404 else 502)
      && (status == 401 ==> d.error.challenges == [BearerChallenge])
  {
  }

  /** A service that cannot be reached, or does not answer in time, is a 502. */
  lemma UnreachableServiceIsBadGateway(c: IdentityClient, httpMethod: string, auth: Option<string>, resource: Resource, transport: HttpRequest -> HttpOutcome)
    requires Ready(c)
    requires httpMethod != OptionsMethod && !resource.authNotRequired
    requires c.accessTokenHeaderValidator.value(auth).Success?
    requires var answer := transport(HttpRequest(c.identityServiceUserUrl, BearerPrefix + c.accessTokenHeaderValidator.value(auth).value));
      answer.ConnectionError? || answer.Timeout?
    ensures var d := Authenticate(c, httpMethod, auth, resource, transport);
      d.Reject? && d.error.BadGateway? && d.error.Status() == 502
  {
  }

  /**
   * The middleware answers 400 exactly when the client failed with a validation
   * cause: a bad header, or an envelope the response validator rejected.
   */
  lemma BadRequestIffValidationFailure(c: IdentityClient, httpMethod: string, auth: Option<string>, resource: Resource, transport: HttpRequest -> HttpOutcome)
    requires Ready(c)
    ensures var d := Authenticate(c, httpMethod, auth, resource, transport);
      var result := GetUser(c, auth, transport).result;
      (d.Reject? && d.error.Status() == 400) <==>
        (httpMethod != OptionsMethod && !resource.authNotRequired && result.Failure? && result.error.cause.ValidationCause?)
  {
  }

  /**
   * A response body the response validator rejects is also a 400 blaming the
   * Authorization header, although the header was valid and the request was sent.
   */
  lemma MalformedBodyIsBadRequest(c: IdentityClient, httpMethod: string, auth: Option<string>, resource: Resource, transport: HttpRequest -> HttpOutcome)
    requires Ready(c)
    requires httpMethod != OptionsMethod && !resource.authNotRequired
    requires c.accessTokenHeaderValidator.value(auth).Success?
    requires var answer := transport(HttpRequest(c.identityServiceUserUrl, BearerPrefix + c.accessTokenHeaderValidator.value(auth).value));
      answer.Response? && !RaisesForStatus(answer.statusCode) && c.userResponseValidator(answer.body).Failure?
    ensures GetUser(c, auth, transport).sent.Some?
    ensures var d := Authenticate(c, httpMethod, auth, resource, transport);
      && d.Reject? && d.error.Status() == 400
      && d.error == BadRequest(InvalidHeaderTitle, "Invalid value \"" + AuthText(auth) + "\" for Authorization header")
  {
  }

  /** A request as the middleware sees it: method and Authorization value fixed, a shared, mutable context. */
  class Request {
    const httpMethod: string
    const auth: Option<string>
    var context: map<string, Value>

    constructor (httpMethod: string, auth: Option<string>, context: map<string, Value>)
      ensures this.httpMethod == httpMethod && this.auth == auth && this.context == context
    {
      this.httpMethod := httpMethod;
      this.auth := auth;
      this.context := context;
    }
  }

  /** `AuthMiddleware`: makes every route require authentication. */
  class AuthMiddleware {
    const identityClient: IdentityClient

    constructor (identityClient: IdentityClient)
      ensures this.identityClient == identityClient
    {
      this.identityClient := identityClient;
    }

    /**
     * `AuthMiddleware.process_resource`: on success the user is stored under
     * `user` in the request's context and nothing else there changes; a pass-through
     * or a rejection leaves the context as it was. A rejection is returned as the
     * error the framework would be raised with.
     */
    method ProcessResource(req: Request, resource: Resource, transport: HttpRequest -> HttpOutcome) returns (raised: Option<HttpError>)
      requires Ready(identityClient)
      modifies req
      ensures var d := Authenticate(identityClient, req.httpMethod, req.auth, resource, transport);
        && (d.AttachUser? ==> req.context == old(req.context)[UserKey := d.user] && raised.None?)
        && (d.PassThrough? ==> req.context == old(req.context) && raised.None?)
        && (d.Reject? ==> req.context == old(req.context) && raised == Some(d.error))
    {
      // No authentication is expected on OPTIONS (pre-flight) requests.
      if req.httpMethod == OptionsMethod {
        return None;
      }
      if resource.authNotRequired {
        return None;
      }
      var run := GetUser(identityClient, req.auth, transport);
      match run.result
      case Success(user) =>
        req.context := req.context[UserKey := user];
        raised := None;
      case Failure(e) =>
        raised := Some(ToHttpError(e, req.auth));
    }
  }
}
