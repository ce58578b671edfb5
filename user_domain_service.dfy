/** `TwichUserDomainService.parse_user` once the answer of the Twitch
    "Get Users" endpoint is an input: a chain of early exits on the status
    code and on the `data` list, then the entity built from the first user. */
module UserDomainService {
  import opened Common
  import opened TwitchUser

  const HTTP_400_BAD_REQUEST: int := 400
  const HTTP_401_UNAUTHORIZED: int := 401

  /** One element of the `data` list; `createdAt` is the text Twitch sends. */
  datatype RawTwitchUser = RawTwitchUser(
    id: string,
    login: string,
    description: string,
    displayName: string,
    userType: string,
    broadcasterType: string,
    profileImageUrl: string,
    offlineImageUrl: string,
    createdAt: string)

  /** The HTTP answer as `parse_user` reads it: the status code and the
      `data` member of the JSON body, `None` when the member is absent. */
  datatype TwitchResponse = TwitchResponse(statusCode: int, data: Option<seq<RawTwitchUser>>)

  /** `data` is present and not empty (Python truthiness of the list). */
  predicate HasUsers(response: TwitchResponse) {
    response.data.Some? && |response.data.value| > 0
  }

  /** `TwichUserEntity(**user_data[0])` with `created_at` replaced by its
      parsed value; `parsed_at` is the fetch time. Every other field of the
      record is kept, so the record is recovered from the entity and its
      original `created_at` text. */
  function EntityFrom(raw: RawTwitchUser, createdAt: Timestamp, parsedAt: Timestamp): (e: TwichUserEntity)
    ensures RawTwitchUser(e.id, e.login, e.description, e.displayName, e.userType, e.broadcasterType,
                          e.profileImageUrl, e.offlineImageUrl, raw.createdAt) == raw
    ensures e.createdAt == createdAt && e.parsedAt == parsedAt
  {
    TwichUserEntity(raw.id, raw.login, raw.description, raw.displayName, raw.userType,
                    raw.broadcasterType, raw.profileImageUrl, raw.offlineImageUrl, createdAt, parsedAt)
  }

  /** `parse_user` after the request: `parseCreatedAt` stands for
      `datetime.strptime(..., '%Y-%m-%dT%H:%M:%SZ')` (`None` when it raises)
      and `parsedAt` for the time of the fetch. */
  function ParseUser(response: TwitchResponse, parseCreatedAt: string -> Option<Timestamp>, parsedAt: Timestamp)
    : (r: Result<TwichUserEntity, UserError>)
    ensures r == Failure(GetUserBadRequestException) <==> response.statusCode == HTTP_400_BAD_REQUEST
    ensures r == Failure(GetUserUnauthorizedException) <==> response.statusCode == HTTP_401_UNAUTHORIZED
    ensures r == Failure(UserNotFoundException) <==>
      response.statusCode != HTTP_400_BAD_REQUEST && response.statusCode != HTTP_401_UNAUTHORIZED
      && !HasUsers(response)
    ensures r == Failure(CreatedAtValueError) <==>
      response.statusCode != HTTP_400_BAD_REQUEST && response.statusCode != HTTP_401_UNAUTHORIZED
      && HasUsers(response) && parseCreatedAt(response.data.value[0].createdAt).None?
    ensures r.Success? ==>
      && HasUsers(response)
      && parseCreatedAt(response.data.value[0].createdAt).Some?
      && r.value == EntityFrom(response.data.value[0],
                               parseCreatedAt(response.data.value[0].createdAt).value, parsedAt)
  {
    if response.statusCode == HTTP_400_BAD_REQUEST then
      Failure(GetUserBadRequestException)
    else if response.statusCode == HTTP_401_UNAUTHORIZED then
      Failure(GetUserUnauthorizedException)
    else if !HasUsers(response) then
      Failure(UserNotFoundException)
    else
      var first := response.data.value[0];
      match parseCreatedAt(first.createdAt)
      case None => Failure(CreatedAtValueError)
      case Some(createdAt) => Success(EntityFrom(first, createdAt, parsedAt))
  }

  /** A status other than 400 and 401, a 500 included, is not an error by
      itself: the answer is read exactly as a 200 would be. */
  lemma OtherStatusFallsThrough(response: TwitchResponse, parseCreatedAt: string -> Option<Timestamp>, parsedAt: Timestamp)
    requires response.statusCode != HTTP_400_BAD_REQUEST && response.statusCode != HTTP_401_UNAUTHORIZED
    ensures ParseUser(response, parseCreatedAt, parsedAt) == ParseUser(response.(statusCode := 200), parseCreatedAt, parsedAt)
  {
  }

  /** The status checks come first: a 400 or 401 is reported whatever the
      body holds, so no error path reads `data` or builds an entity. */
  lemma StatusErrorsIgnoreBody(response: TwitchResponse, data: Option<seq<RawTwitchUser>>,
                               parseCreatedAt: string -> Option<Timestamp>, parsedAt: Timestamp)
    requires response.statusCode == HTTP_400_BAD_REQUEST || response.statusCode == HTTP_401_UNAUTHORIZED
    ensures ParseUser(response, parseCreatedAt, parsedAt) == ParseUser(response.(data := data), parseCreatedAt, parsedAt)
    ensures ParseUser(response, parseCreatedAt, parsedAt).Failure?
  {
  }

  /** Only `data[0]` is read: users after the first are ignored. */
  lemma OnlyFirstUserIsRead(statusCode: int, first: RawTwitchUser, rest: seq<RawTwitchUser>, rest': seq<RawTwitchUser>,
                            parseCreatedAt: string -> Option<Timestamp>, parsedAt: Timestamp)
    ensures ParseUser(TwitchResponse(statusCode, Some([first] + rest)), parseCreatedAt, parsedAt)
         == ParseUser(TwitchResponse(statusCode, Some([first] + rest')), parseCreatedAt, parsedAt)
  {
  }

  /** A missing `data` member and an empty `data` list are the same answer. */
  lemma MissingDataIsEmptyData(statusCode: int, parseCreatedAt: string -> Option<Timestamp>, parsedAt: Timestamp)
    ensures ParseUser(TwitchResponse(statusCode, None), parseCreatedAt, parsedAt)
         == ParseUser(TwitchResponse(statusCode, Some([])), parseCreatedAt, parsedAt)
  {
  }
}
