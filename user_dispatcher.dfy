/** `TwichUserKafkaDispatcher.run`: the consumer loop that routes each
    deserialized message by the name of its class to the user service. The
    consumer is a sequence of already deserialized values; the service is
    seen through the calls it receives, recorded in order. */
module UserDispatcher {
  import opened Common
  import opened TwitchUser

  const CREATED_OR_UPDATED_CLASS: string := "TwichUserCreatedOrUpdatedEvent"
  const DELETED_BY_LOGIN_CLASS: string := "TwichUserDeletedByLoginEvent"

  /** The name of any other class a consumed value may have. */
  type ForeignClassName = n: string | n != CREATED_OR_UPDATED_CLASS && n != DELETED_BY_LOGIN_CLASS
    witness ""

  /** `event.value` of a consumed message. A value of another class is kept
      only by its class name, since `run` never reads its fields. */
  datatype ConsumedValue =
    | CreatedOrUpdated(created: TwichUserCreatedOrUpdatedEvent)
    | DeletedByLogin(deleted: TwichUserDeletedByLoginEvent)
    | Foreign(className: ForeignClassName)

  /** `event.value.__class__.__name__`: each of the two event classes is
      recognised by its name, and by nothing else. */
  function ClassName(v: ConsumedValue): (name: string)
    ensures name == CREATED_OR_UPDATED_CLASS <==> v.CreatedOrUpdated?
    ensures name == DELETED_BY_LOGIN_CLASS <==> v.DeletedByLogin?
  {
    match v
    case CreatedOrUpdated(_) => CREATED_OR_UPDATED_CLASS
    case DeletedByLogin(_) => DELETED_BY_LOGIN_CLASS
    case Foreign(n) => n
  }

  /** A call issued on `ITwichUserService`. */
  datatype UserServiceCall =
    | Create(schema: TwichUserSchema)
    | DeleteUserByLogin(userLogin: string)

  /** Which service method a call invokes. */
  datatype ServiceMethod = CreateMethod | DeleteUserByLoginMethod

  function MethodOf(c: UserServiceCall): (m: ServiceMethod) {
    match c
    case Create(_) => CreateMethod
    case DeleteUserByLogin(_) => DeleteUserByLoginMethod
  }

  /** The calls one consumed value causes: the body of the `match`. */
  function Route(v: ConsumedValue): (calls: seq<UserServiceCall>)
    ensures |calls| <= 1
    ensures v.CreatedOrUpdated? <==> |calls| == 1 && calls[0].Create?
    ensures v.DeletedByLogin? <==> |calls| == 1 && calls[0].DeleteUserByLogin?
    ensures v.DeletedByLogin? ==> calls == [DeleteUserByLogin(v.deleted.login)]
    ensures v.Foreign? <==> calls == []
    ensures v.CreatedOrUpdated? ==>
      var s := calls[0].schema;
      var e := v.created;
      && s.id == e.id && s.login == e.login && s.description == e.description
      && s.displayName == e.displayName && s.userType == e.userType
      && s.broadcasterType == e.broadcasterType && s.profileImageUrl == e.profileImageUrl
      && s.offlineImageUrl == e.offlineImageUrl && s.createdAt == e.createdAt
      && s.parsedAt == e.parsedAt
  {
    var name := ClassName(v);
    if name == CREATED_OR_UPDATED_CLASS then
      var e := v.created;
      [Create(TwichUserSchema(
        id := e.id,
        login := e.login,
        description := e.description,
        displayName := e.displayName,
        userType := e.userType,
        broadcasterType := e.broadcasterType,
        profileImageUrl := e.profileImageUrl,
        offlineImageUrl := e.offlineImageUrl,
        createdAt := e.createdAt,
        parsedAt := e.parsedAt))]
    else if name == DELETED_BY_LOGIN_CLASS then
      [DeleteUserByLogin(v.deleted.login)]
    else
      []
  }

  /** The calls a sequence of values causes, handled one at a time in
      consumer order; none when every value is of another class. */
  function Dispatched(values: seq<ConsumedValue>): (calls: seq<UserServiceCall>)
    ensures (forall i :: 0 <= i < |values| ==> values[i].Foreign?) ==> calls == []
  {
    if values == [] then [] else Route(values[0]) + Dispatched(values[1..])
  }

  /** Handling more values appends their calls after the earlier ones. */
  lemma {:induction false} DispatchedAppend(a: seq<ConsumedValue>, b: seq<ConsumedValue>)
    ensures Dispatched(a + b) == Dispatched(a) + Dispatched(b)
  {
    if a == [] {
      assert a + b == b;
    } else {
      assert (a + b)[1..] == a[1..] + b;
      DispatchedAppend(a[1..], b);
    }
  }

  /** Handling one more value appends its own calls. */
  lemma DispatchedSnoc(values: seq<ConsumedValue>, v: ConsumedValue)
    ensures Dispatched(values + [v]) == Dispatched(values) + Route(v)
  {
    DispatchedAppend(values, [v]);
    assert [v][1..] == [];
  }

  /** Handling the value after a prefix appends its own calls. */
  lemma DispatchedPrefixStep(values: seq<ConsumedValue>, i: nat)
    requires i < |values|
    ensures Dispatched(values[..i + 1]) == Dispatched(values[..i]) + Route(values[i])
  {
    assert values[..i + 1] == values[..i] + [values[i]];
    DispatchedSnoc(values[..i], values[i]);
  }

  /** At most one call per value. */
  lemma {:induction false} DispatchedBound(values: seq<ConsumedValue>)
    ensures |Dispatched(values)| <= |values|
  {
    if values != [] {
      DispatchedBound(values[1..]);
    }
  }

  /** Every call is caused by one consumed value routed to exactly that call. */
  lemma {:induction false} DispatchedCallsComeFromValues(values: seq<ConsumedValue>)
    ensures forall k :: 0 <= k < |Dispatched(values)| ==>
      exists i :: 0 <= i < |values| && Route(values[i]) == [Dispatched(values)[k]]
  {
    if values != [] {
      DispatchedCallsComeFromValues(values[1..]);
      var head := Route(values[0]);
      var tail := Dispatched(values[1..]);
      assert Dispatched(values) == head + tail;
      forall k | 0 <= k < |Dispatched(values)|
        ensures exists i :: 0 <= i < |values| && Route(values[i]) == [Dispatched(values)[k]]
      {
        if k < |head| {
          assert head == [head[0]];
          assert Route(values[0]) == [Dispatched(values)[k]];
        } else {
          var i :| 0 <= i < |values[1..]| && Route(values[1..][i]) == [tail[k - |head|]];
          assert values[1..][i] == values[i + 1];
          assert Route(values[i + 1]) == [Dispatched(values)[k]];
        }
      }
    } else {
      assert Dispatched(values) == [];
    }
  }

  /** A value of any other class is a no-op wherever it stands. */
  lemma ForeignValueIsIgnored(before: seq<ConsumedValue>, n: ForeignClassName, after: seq<ConsumedValue>)
    ensures Dispatched(before + [Foreign(n)] + after) == Dispatched(before + after)
  {
    var x := [Foreign(n)];
    assert Dispatched(x) == [] by {
      assert x[1..] == [];
    }
    DispatchedAppend(before + x, after);
    DispatchedAppend(before, x);
    DispatchedAppend(before, after);
  }

  /** Routing looks at the class name only: two values of the same class
      call the same service method, whatever their fields. */
  lemma RoutingDependsOnClassOnly(a: ConsumedValue, b: ConsumedValue)
    requires ClassName(a) == ClassName(b)
    ensures |Route(a)| == |Route(b)|
    ensures forall i :: 0 <= i < |Route(a)| ==> MethodOf(Route(a)[i]) == MethodOf(Route(b)[i])
  {
  }

  class TwichUserKafkaDispatcher {
    /** The calls issued on the user service so far, in order. */
    var calls: seq<UserServiceCall>

    constructor ()
      ensures calls == []
    {
      calls := [];
    }

    /** `run`: for every consumed value, in order, issue its calls. */
    method Run(consumer: seq<ConsumedValue>)
      modifies this
      ensures calls == old(calls) + Dispatched(consumer)
    {
      for i := 0 to |consumer|
        invariant calls == old(calls) + Dispatched(consumer[..i])
      {
        var value := consumer[i];
        var name := ClassName(value);
        if name == CREATED_OR_UPDATED_CLASS {
          var e := value.created;
          var schema := TwichUserSchema(
            id := e.id,
            login := e.login,
            description := e.description,
            displayName := e.displayName,
            userType := e.userType,
            broadcasterType := e.broadcasterType,
            profileImageUrl := e.profileImageUrl,
            offlineImageUrl := e.offlineImageUrl,
            createdAt := e.createdAt,
            parsedAt := e.parsedAt);
          calls := calls + [Create(schema)];
          assert Route(value) == [Create(schema)];
        } else if name == DELETED_BY_LOGIN_CLASS {
          calls := calls + [DeleteUserByLogin(value.deleted.login)];
          assert Route(value) == [DeleteUserByLogin(value.deleted.login)];
        } else {
          assert Route(value) == [];
        }
        DispatchedPrefixStep(consumer, i);
      }
      assert consumer[..|consumer|] == consumer;
    }
  }
}
