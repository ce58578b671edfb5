/** `TwichUserKafkaService`: composes the Twitch fetch with the user
    repository. The repository implementation is not part of this model, so
    it is seen through the calls that change it or ask it for an event,
    recorded in order; every answer it gives is a fixed function of the
    calls made before it. */
module UserService {
  import opened Common
  import opened TwitchUser
  import UserDomainService

  /** A call that changes the user repository or asks it for an event. */
  datatype UserRepositoryCall =
    | ParseUserCall(userLogin: string)
    | CreateOrUpdateCall(entity: TwichUserEntity)
    | DeleteUserByLoginCall(userLogin: string)

  /** `ITwichUserRepository` as the service uses it. */
  class TwichUserRepositoryPort {
    /** Calls received so far, in order. */
    var calls: seq<UserRepositoryCall>
    /** What `create_or_update`, `all` and `get_user_by_login` answer after
        a given history of calls. */
    const createOrUpdateAnswer: (seq<UserRepositoryCall>, TwichUserEntity) -> ResultWithEvent<TwichUserEntity, TwichUserCreatedOrUpdatedEvent>
    const allAnswer: seq<UserRepositoryCall> -> seq<TwichUserEntity>
    const getAnswer: (seq<UserRepositoryCall>, string) -> Result<TwichUserEntity, UserError>

    constructor (
      createOrUpdateAnswer: (seq<UserRepositoryCall>, TwichUserEntity) -> ResultWithEvent<TwichUserEntity, TwichUserCreatedOrUpdatedEvent>,
      allAnswer: seq<UserRepositoryCall> -> seq<TwichUserEntity>,
      getAnswer: (seq<UserRepositoryCall>, string) -> Result<TwichUserEntity, UserError>)
      ensures calls == []
      ensures this.createOrUpdateAnswer == createOrUpdateAnswer
      ensures this.allAnswer == allAnswer && this.getAnswer == getAnswer
    {
      calls := [];
      this.createOrUpdateAnswer := createOrUpdateAnswer;
      this.allAnswer := allAnswer;
      this.getAnswer := getAnswer;
    }

    method ParseUser(userLogin: string)
      modifies this
      ensures calls == old(calls) + [ParseUserCall(userLogin)]
    {
      calls := calls + [ParseUserCall(userLogin)];
    }

    method CreateOrUpdate(entity: TwichUserEntity)
      returns (r: ResultWithEvent<TwichUserEntity, TwichUserCreatedOrUpdatedEvent>)
      modifies this
      ensures calls == old(calls) + [CreateOrUpdateCall(entity)]
      ensures r == createOrUpdateAnswer(old(calls), entity)
    {
      r := createOrUpdateAnswer(calls, entity);
      calls := calls + [CreateOrUpdateCall(entity)];
    }

    method DeleteUserByLogin(userLogin: string)
      modifies this
      ensures calls == old(calls) + [DeleteUserByLoginCall(userLogin)]
    {
      calls := calls + [DeleteUserByLoginCall(userLogin)];
    }

    function All(): seq<TwichUserEntity>
      reads this
    {
      allAnswer(calls)
    }

    function GetUserByLogin(userLogin: string): Result<TwichUserEntity, UserError>
      reads this
    {
      getAnswer(calls, userLogin)
    }
  }

  class TwichUserKafkaService {
    const repository: TwichUserRepositoryPort
    /** `TwichUserMapper.to_schema` and `TwichUserMapper.to_domain`. */
    const toSchema: TwichUserEntity -> TwichUserSchema
    const toDomain: TwichUserSchema -> TwichUserEntity

    constructor (repository: TwichUserRepositoryPort,
                 toSchema: TwichUserEntity -> TwichUserSchema,
                 toDomain: TwichUserSchema -> TwichUserEntity)
      ensures this.repository == repository
      ensures this.toSchema == toSchema && this.toDomain == toDomain
    {
      this.repository := repository;
      this.toSchema := toSchema;
      this.toDomain := toDomain;
    }

    /** `parse_user`: only asks the repository for the parse event; it
        neither fetches nor writes. */
    method ParseUser(userLogin: string)
      modifies repository
      ensures repository.calls == old(repository.calls) + [UserRepositoryCall.ParseUserCall(userLogin)]
    {
      repository.ParseUser(userLogin);
    }

    /** `private_parse_user`: the fetch, then one `create_or_update` with the
        fetched entity; a fetch error propagates and nothing is written.
        `response` is the Twitch answer to the request for `userLogin`. */
    method PrivateParseUser(userLogin: string, response: UserDomainService.TwitchResponse,
                            parseCreatedAt: string -> Option<Timestamp>, parsedAt: Timestamp)
      returns (r: Result<TwichUserSchema, UserError>)
      modifies repository
      ensures var fetched := UserDomainService.ParseUser(response, parseCreatedAt, parsedAt);
        && (fetched.Failure? ==> r == Failure(fetched.error) && repository.calls == old(repository.calls))
        && (fetched.Success? ==>
              && repository.calls == old(repository.calls) + [CreateOrUpdateCall(fetched.value)]
              && r == Success(toSchema(repository.createOrUpdateAnswer(old(repository.calls), fetched.value).result)))
    {
      var fetched := UserDomainService.ParseUser(response, parseCreatedAt, parsedAt);
      if fetched.Failure? {
        return Failure(fetched.error);
      }
      var user := repository.CreateOrUpdate(fetched.value);
      r := Success(toSchema(user.result));
    }

    /** `create`: one `create_or_update` of the schema mapped to an entity. */
    method Create(schema: TwichUserSchema)
      modifies repository
      ensures repository.calls == old(repository.calls) + [CreateOrUpdateCall(toDomain(schema))]
    {
      var _ := repository.CreateOrUpdate(toDomain(schema));
    }

    /** `delete_user_by_login`: forwards the same login. */
    method DeleteUserByLogin(userLogin: string)
      modifies repository
      ensures repository.calls == old(repository.calls) + [DeleteUserByLoginCall(userLogin)]
    {
      repository.DeleteUserByLogin(userLogin);
    }

    /** `get_all_users`: one schema per repository entity, in order. */
    function GetAllUsers(): (r: seq<TwichUserSchema>)
      reads repository
      ensures |r| == |repository.All()|
      ensures forall i :: 0 <= i < |r| ==> r[i] == toSchema(repository.All()[i])
    {
      MapSeq(toSchema, repository.All())
    }

    /** `get_user_by_login`: the repository's entity mapped to a schema; the
        repository's not-found error propagates unchanged. */
    function GetUserByLogin(userLogin: string): (r: Result<TwichUserSchema, UserError>)
      reads repository
      ensures r.Failure? <==> repository.GetUserByLogin(userLogin).Failure?
      ensures r.Failure? ==> r.error == repository.GetUserByLogin(userLogin).error
      ensures r.Success? ==> r.value == toSchema(repository.GetUserByLogin(userLogin).value)
    {
      match repository.GetUserByLogin(userLogin)
      case Failure(e) => Failure(e)
      case Success(u) => Success(toSchema(u))
    }
  }
}
