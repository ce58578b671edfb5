/** Twitch user records shared by the domain service, the application
    service and the dispatcher: the entity, its external schema, its events
    and the exceptions raised about it. */
module TwitchUser {
  import opened Common

  /** Domain entity of a Twitch user. */
  datatype TwichUserEntity = TwichUserEntity(
    id: string,
    login: string,
    description: string,
    displayName: string,
    userType: string,
    broadcasterType: string,
    profileImageUrl: string,
    offlineImageUrl: string,
    createdAt: Timestamp,
    parsedAt: Timestamp)

  /** External representation (`TwichUserSchema`), with the same ten fields. */
  datatype TwichUserSchema = TwichUserSchema(
    id: string,
    login: string,
    description: string,
    displayName: string,
    userType: string,
    broadcasterType: string,
    profileImageUrl: string,
    offlineImageUrl: string,
    createdAt: Timestamp,
    parsedAt: Timestamp)

  /** Published after a user was created or updated in the store. */
  datatype TwichUserCreatedOrUpdatedEvent = TwichUserCreatedOrUpdatedEvent(
    id: string,
    login: string,
    description: string,
    displayName: string,
    userType: string,
    broadcasterType: string,
    profileImageUrl: string,
    offlineImageUrl: string,
    createdAt: Timestamp,
    parsedAt: Timestamp)

  /** Published after the users with a login were deleted. */
  datatype TwichUserDeletedByLoginEvent = TwichUserDeletedByLoginEvent(login: string)

  /** The exceptions raised while fetching or looking up a user.
      `CreatedAtValueError` is the `ValueError` that `strptime` raises on a
      `created_at` that does not have the expected format. */
  datatype UserError =
    | GetUserBadRequestException
    | GetUserUnauthorizedException
    | UserNotFoundException
    | CreatedAtValueError
}
