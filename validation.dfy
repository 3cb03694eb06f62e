/**
 * The SDK's validators (src/identity_sdk/validation.py).
 *
 * The validation library's own validators (identifier, timestamp, URL) and its
 * `Validator` base class are not part of this model: the validators the SDK
 * composes are passed in as functions, and the JSON decoder and the URL schema
 * of the Auth0 validator as parameters.
 */
module Validation {
  import opened Wrappers
  import opened Json

  /** `validation.Error`: the validation library's failure, with its message. */
  datatype ValidationError = ValidationError(message: string)

  /** The `validate` method of a validator the SDK is given: normalise a value or fail. */
  type SubValidator = Value -> Result<Value, ValidationError>

  // ---------------------------------------------------------------------------
  // AccessTokenHeaderValidator
  // ---------------------------------------------------------------------------

  const MissingHeaderMessage := "Missing Authorization header"
  const InvalidHeaderMessage := "Invalid Authorization header"

  /** The literal the pattern `Bearer (.+)` starts with: the scheme and one space. */
  const BearerPrefix := "Bearer "

  /**
   * The greedy run `.+` consumes: the longest prefix of `s` holding no line feed
   * (Python's `.` matches every character except '\n').
   */
  function TakeLine(s: string): (r: string)
    ensures r <= s
    ensures '\n' !in r
    ensures |r| == |s| || s[|r|] == '\n'
  {
    if s == [] || s[0] == '\n' then [] else [s[0]] + TakeLine(s[1..])
  }

  /** `re.match('Bearer (.+)', header)` succeeds: anchored at index 0, at least one non-newline character after the prefix. */
  predicate MatchesBearer(header: string) {
    && |header| > |BearerPrefix|
    && header[..|BearerPrefix|] == BearerPrefix
    && header[|BearerPrefix|] != '\n'
  }

  /**
   * `token` is what group 1 of `Bearer (.+)` captures in `header`: it follows the
   * prefix at index 0, is non-empty, holds no line feed, and ends where the header
   * ends or at a line feed (greedy, and there is no end anchor).
   */
  predicate IsBearerCapture(header: string, token: string) {
    && BearerPrefix + token <= header
    && token != []
    && '\n' !in token
    && (|BearerPrefix + token| == |header| || header[|BearerPrefix + token|] == '\n')
  }

  /** `AccessTokenHeaderValidator.validate`: the bearer token of an Authorization header value. */
  function ValidateAccessTokenHeader(authHeader: Option<string>): (r: Result<string, ValidationError>)
    ensures authHeader.None? ==> r == Failure(ValidationError(MissingHeaderMessage))
    ensures authHeader.Some? && !MatchesBearer(authHeader.value) ==>
              r == Failure(ValidationError(InvalidHeaderMessage))
    ensures authHeader.Some? && MatchesBearer(authHeader.value) ==>
              r.Success? && IsBearerCapture(authHeader.value, r.value)
  {
    match authHeader
    case None => Failure(ValidationError(MissingHeaderMessage))
    case Some(header) =>
      if |header| >= |BearerPrefix| && header[..|BearerPrefix|] == BearerPrefix then
        var rest := header[|BearerPrefix|..];
        var token := TakeLine(rest);
        assert header == BearerPrefix + rest;
        if token == [] then
          Failure(ValidationError(InvalidHeaderMessage))
        else
          assert token[0] == rest[0];
          Success(token)
      else
        Failure(ValidationError(InvalidHeaderMessage))
  }

  /** A header holds at most one capture: the greedy run is determined by the header. */
  lemma BearerCaptureUnique(header: string, t1: string, t2: string)
    requires IsBearerCapture(header, t1) && IsBearerCapture(header, t2)
    ensures t1 == t2
  {
    var n := |BearerPrefix|;
    assert t1 == header[n..n + |t1|];
    assert t2 == header[n..n + |t2|];
  }

  /** The validator succeeds with `token` exactly when `token` is the pattern's capture. */
  lemma AccessTokenIsCapture(header: string, token: string)
    ensures ValidateAccessTokenHeader(Some(header)) == Success(token) <==> IsBearerCapture(header, token)
  {
    if IsBearerCapture(header, token) {
      var n := |BearerPrefix|;
      assert (BearerPrefix + token)[..n] == BearerPrefix;
      assert header[..n] == BearerPrefix;
      assert header[n] == (BearerPrefix + token)[n] == token[0];
      assert token[0] in token;
      assert MatchesBearer(header);
      BearerCaptureUnique(header, token, ValidateAccessTokenHeader(Some(header)).value);
    }
  }

  /** Round trip: the header the client builds from a token yields that token, leading spaces included. */
  lemma BearerRoundTrip(token: string)
    requires token != [] && '\n' !in token
    ensures ValidateAccessTokenHeader(Some(BearerPrefix + token)) == Success(token)
  {
    AccessTokenIsCapture(BearerPrefix + token, token);
  }

  /** Everything from the first line feed on is dropped. */
  lemma BearerStopsAtLineFeed(token: string, rest: string)
    requires token != [] && '\n' !in token
    ensures ValidateAccessTokenHeader(Some(BearerPrefix + token + "\n" + rest)) == Success(token)
  {
    var header := BearerPrefix + token + "\n" + rest;
    assert BearerPrefix + token <= header;
    assert header[|BearerPrefix + token|] == '\n';
    AccessTokenIsCapture(header, token);
  }

  /** The example of a well-formed header, and one whose token starts with a space. */
  lemma BearerAcceptedExamples()
    ensures ValidateAccessTokenHeader(Some("Bearer abc123")) == Success("abc123")
    ensures ValidateAccessTokenHeader(Some("Bearer  abc")) == Success(" abc")
  {
    BearerRoundTrip("abc123");
    BearerRoundTrip(" abc");
  }

  /** The prefix is case-sensitive and must be followed by a character other than a line feed. */
  lemma BearerRejectedExamples()
    ensures ValidateAccessTokenHeader(Some("abc123")) == Failure(ValidationError(InvalidHeaderMessage))
    ensures ValidateAccessTokenHeader(Some("bearer abc123")) == Failure(ValidationError(InvalidHeaderMessage))
    ensures ValidateAccessTokenHeader(Some("Bearer ")) == Failure(ValidationError(InvalidHeaderMessage))
    ensures ValidateAccessTokenHeader(Some("Bearer \nabc")) == Failure(ValidationError(InvalidHeaderMessage))
    ensures ValidateAccessTokenHeader(None) == Failure(ValidationError(MissingHeaderMessage))
  {
    assert "abc123"[0] != BearerPrefix[0];
    assert "bearer abc123"[0] != BearerPrefix[0];
    assert "Bearer \nabc"[|BearerPrefix|] == '\n';
  }

  // ---------------------------------------------------------------------------
  // UserValidator
  // ---------------------------------------------------------------------------

  const IdKey := "id"
  const TimeJoinedTsKey := "timeJoinedTs"
  const NameKey := "name"
  const PictureUrlKey := "pictureUrl"

  /** A UserValidator with the identifier, timestamp and URL validators it was built with. */
  datatype UserValidator = UserValidator(
    idValidator: SubValidator,
    datetimeTsValidator: SubValidator,
    urlValidator: SubValidator)

  /** The keys of a user object that the validator rewrites. */
  predicate IsRewrittenUserKey(k: string) {
    k == IdKey || k == TimeJoinedTsKey || k == PictureUrlKey
  }

  /**
   * `UserValidator._post_schema_validate`: a copy of the user object in which the
   * identifier, the join timestamp and the picture URL are replaced by their
   * validators' results, run in that order; the first failure is the result.
   * The schema that runs before it guarantees the three keys.
   */
  function UserPostSchemaValidate(v: UserValidator, userRaw: map<string, Value>): (r: Result<map<string, Value>, ValidationError>)
    requires IdKey in userRaw && TimeJoinedTsKey in userRaw && PictureUrlKey in userRaw
    ensures var id, ts, url := v.idValidator(userRaw[IdKey]), v.datetimeTsValidator(userRaw[TimeJoinedTsKey]), v.urlValidator(userRaw[PictureUrlKey]);
      && (r.Success? <==> id.Success? && ts.Success? && url.Success?)
      && (id.Failure? ==> r.error == id.error)
      && (id.Success? && ts.Failure? ==> r.error == ts.error)
      && (id.Success? && ts.Success? && url.Failure? ==> r.error == url.error)
      && (r.Success? ==>
            && r.value.Keys == userRaw.Keys
            && r.value[IdKey] == id.value
            && r.value[TimeJoinedTsKey] == ts.value
            && r.value[PictureUrlKey] == url.value)
    ensures r.Success? ==> forall k :: k in userRaw && !IsRewrittenUserKey(k) ==> r.value[k] == userRaw[k]
  {
    var id :- v.idValidator(userRaw[IdKey]);
    var ts :- v.datetimeTsValidator(userRaw[TimeJoinedTsKey]);
    var url :- v.urlValidator(userRaw[PictureUrlKey]);
    Success(userRaw[IdKey := id][TimeJoinedTsKey := ts][PictureUrlKey := url])
  }

  /** The user's name is never touched. */
  lemma UserNameUnchanged(v: UserValidator, userRaw: map<string, Value>)
    requires IdKey in userRaw && TimeJoinedTsKey in userRaw && PictureUrlKey in userRaw
    requires NameKey in userRaw
    ensures var r := UserPostSchemaValidate(v, userRaw);
      r.Success? ==> NameKey in r.value && r.value[NameKey] == userRaw[NameKey]
  {
  }

  /**
   * Short circuit: once the identifier fails, the timestamp and URL validators
   * are not consulted; once the timestamp fails, the URL validator is not.
   */
  lemma UserPostSchemaShortCircuit(v: UserValidator, tsOther: SubValidator, urlOther: SubValidator, userRaw: map<string, Value>)
    requires IdKey in userRaw && TimeJoinedTsKey in userRaw && PictureUrlKey in userRaw
    ensures v.idValidator(userRaw[IdKey]).Failure? ==>
              UserPostSchemaValidate(UserValidator(v.idValidator, tsOther, urlOther), userRaw)
              == UserPostSchemaValidate(v, userRaw)
    ensures v.idValidator(userRaw[IdKey]).Success? && v.datetimeTsValidator(userRaw[TimeJoinedTsKey]).Failure? ==>
              UserPostSchemaValidate(UserValidator(v.idValidator, v.datetimeTsValidator, urlOther), userRaw)
              == UserPostSchemaValidate(v, userRaw)
  {
  }

  // ---------------------------------------------------------------------------
  // UserResponseValidator
  // ---------------------------------------------------------------------------

  const UserKey := "user"

  /** A UserResponseValidator with the user validator it was built with. */
  datatype UserResponseValidator = UserResponseValidator(userValidator: SubValidator)

  /**
   * `UserResponseValidator._post_schema_validation`: a copy of the response
   * envelope in which only the `user` entry is replaced by the user validator's
   * result; that validator's failure is the result.
   */
  function UserResponsePostSchemaValidation(v: UserResponseValidator, responseRaw: map<string, Value>): (r: Result<map<string, Value>, ValidationError>)
    requires UserKey in responseRaw
    ensures var user := v.userValidator(responseRaw[UserKey]);
      && (r.Success? <==> user.Success?)
      && (user.Failure? ==> r.error == user.error)
      && (r.Success? ==> r.value.Keys == responseRaw.Keys && r.value[UserKey] == user.value)
    ensures r.Success? ==> forall k :: k in responseRaw && k != UserKey ==> r.value[k] == responseRaw[k]
  {
    var user :- v.userValidator(responseRaw[UserKey]);
    Success(responseRaw[UserKey := user])
  }

  // ---------------------------------------------------------------------------
  // Auth0UserValidator
  // ---------------------------------------------------------------------------

  const UserIdKey := "user_id"
  const PictureKey := "picture"

  const DecodeFailedMessage := "Could not decode Auth0 JSON response"
  const SchemaFailedMessage := "Could not validate Auth0 user data"
  const OtherErrorMessage := "Other error"

  /** An Auth0UserValidator with the URL validator it was built with. */
  datatype Auth0UserValidator = Auth0UserValidator(urlValidator: SubValidator)

  /**
   * The Auth0 user schema: an object with a string `user_id`, a string `name`
   * and a `picture` the URL schema accepts; other properties are allowed.
   */
  predicate Auth0SchemaAccepts(urlSchema: Value -> bool, user: Value) {
    && user.Object?
    && UserIdKey in user.fields && user.fields[UserIdKey].Str?
    && NameKey in user.fields && user.fields[NameKey].Str?
    && PictureKey in user.fields && urlSchema(user.fields[PictureKey])
  }

  /**
   * `Auth0UserValidator.validate`: decode the raw text, check it against the
   * schema, then replace the picture by the URL validator's result. Each of the
   * three stages fails with its own message, always as a `ValidationError`.
   * `decode` is `json.loads` (None when it raises).
   */
  function ValidateAuth0User(v: Auth0UserValidator, decode: string -> Option<Value>, urlSchema: Value -> bool, auth0UserRaw: string): (r: Result<map<string, Value>, ValidationError>)
    ensures decode(auth0UserRaw).None? ==> r == Failure(ValidationError(DecodeFailedMessage))
    ensures decode(auth0UserRaw).Some? && !Auth0SchemaAccepts(urlSchema, decode(auth0UserRaw).value) ==>
              r == Failure(ValidationError(SchemaFailedMessage))
    ensures r.Success? ==>
              var user := decode(auth0UserRaw).value;
              var picture := v.urlValidator(user.fields[PictureKey]);
              && Auth0SchemaAccepts(urlSchema, user)
              && picture.Success?
              && r.value.Keys == user.fields.Keys
              && r.value[PictureKey] == picture.value
              && forall k :: k in user.fields && k != PictureKey ==> r.value[k] == user.fields[k]
    ensures decode(auth0UserRaw).Some? && Auth0SchemaAccepts(urlSchema, decode(auth0UserRaw).value) ==>
              (r.Failure? <==> v.urlValidator(decode(auth0UserRaw).value.fields[PictureKey]).Failure?)
              && (r.Failure? ==> r == Failure(ValidationError(OtherErrorMessage)))
  {
    match decode(auth0UserRaw)
    case None => Failure(ValidationError(DecodeFailedMessage))
    case Some(user) =>
      if !Auth0SchemaAccepts(urlSchema, user) then
        Failure(ValidationError(SchemaFailedMessage))
      else
        match v.urlValidator(user.fields[PictureKey])
        case Failure(_) => Failure(ValidationError(OtherErrorMessage))
        case Success(picture) => Success(user.fields[PictureKey := picture])
  }
}
