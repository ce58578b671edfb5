/** `LamodaProductsKafkaService`: composes the Lamoda fetch with the
    products repository. Products, their schema and their events are not
    part of this model, so they are type parameters; the repository is seen
    through the calls that change it or ask it for an event, and every
    answer it gives is a fixed function of the calls made before it. */
module ProductsService {
  import opened Common

  /** A call that changes the products repository or asks it for an event. */
  datatype ProductsRepositoryCall<Product> =
    | ParseProductsCall(category: string)
    | CreateOrUpdateCall(entity: Product)
    | DeleteProductsByCategoryCall(category: string)

  /** One `create_or_update` call per product, in order. */
  function CreateCalls<Product>(products: seq<Product>): (calls: seq<ProductsRepositoryCall<Product>>)
    ensures |calls| == |products|
    ensures forall i :: 0 <= i < |products| ==> calls[i] == CreateOrUpdateCall(products[i])
  {
    seq(|products|, i requires 0 <= i < |products| => CreateOrUpdateCall(products[i]))
  }

  /** `ILamodaProductsRepository` as the service uses it. */
  class LamodaProductsRepositoryPort<Product, Event> {
    /** Calls received so far, in order. */
    var calls: seq<ProductsRepositoryCall<Product>>
    /** What `create_or_update`, `all` and `get_products_by_category` answer
        after a given history of calls. */
    const createOrUpdateAnswer: (seq<ProductsRepositoryCall<Product>>, Product) -> ResultWithEvent<Product, Event>
    const allAnswer: seq<ProductsRepositoryCall<Product>> -> seq<Product>
    const byCategoryAnswer: (seq<ProductsRepositoryCall<Product>>, string) -> seq<Product>

    constructor (
      createOrUpdateAnswer: (seq<ProductsRepositoryCall<Product>>, Product) -> ResultWithEvent<Product, Event>,
      allAnswer: seq<ProductsRepositoryCall<Product>> -> seq<Product>,
      byCategoryAnswer: (seq<ProductsRepositoryCall<Product>>, string) -> seq<Product>)
      ensures calls == []
      ensures this.createOrUpdateAnswer == createOrUpdateAnswer
      ensures this.allAnswer == allAnswer && this.byCategoryAnswer == byCategoryAnswer
    {
      calls := [];
      this.createOrUpdateAnswer := createOrUpdateAnswer;
      this.allAnswer := allAnswer;
      this.byCategoryAnswer := byCategoryAnswer;
    }

    method ParseProducts(category: string)
      modifies this
      ensures calls == old(calls) + [ParseProductsCall(category)]
    {
      calls := calls + [ParseProductsCall(category)];
    }

    method CreateOrUpdate(entity: Product) returns (r: ResultWithEvent<Product, Event>)
      modifies this
      ensures calls == old(calls) + [CreateOrUpdateCall(entity)]
      ensures r == createOrUpdateAnswer(old(calls), entity)
    {
      r := createOrUpdateAnswer(calls, entity);
      calls := calls + [CreateOrUpdateCall(entity)];
    }

    method DeleteProductsByCategory(category: string)
      modifies this
      ensures calls == old(calls) + [DeleteProductsByCategoryCall(category)]
    {
      calls := calls + [DeleteProductsByCategoryCall(category)];
    }

    function All(): seq<Product>
      reads this
    {
      allAnswer(calls)
    }

    function GetProductsByCategory(category: string): seq<Product>
      reads this
    {
      byCategoryAnswer(calls, category)
    }
  }

  class LamodaProductsKafkaService<Product, Schema, Event> {
    const repository: LamodaProductsRepositoryPort<Product, Event>
    /** `LamodaProductMapper.to_schema` and `LamodaProductMapper.to_domain`. */
    const toSchema: Product -> Schema
    const toDomain: Schema -> Product

    constructor (repository: LamodaProductsRepositoryPort<Product, Event>,
                 toSchema: Product -> Schema, toDomain: Schema -> Product)
      ensures this.repository == repository
      ensures this.toSchema == toSchema && this.toDomain == toDomain
    {
      this.repository := repository;
      this.toSchema := toSchema;
      this.toDomain := toDomain;
    }

    /** `parse_products`: only asks the repository for the parse event; it
        neither fetches nor writes. */
    method ParseProducts(category: string)
      modifies repository
      ensures repository.calls == old(repository.calls) + [ParseProductsCall(category)]
    {
      repository.ParseProducts(category);
    }

    /** `private_parse_products`: the fetch, then one `create_or_update` per
        fetched product in fetched order, collecting the mapped results. A
        fetch error propagates and nothing is written. `fetched` is what
        the Lamoda domain service answers for `category`. */
    method PrivateParseProducts<FetchError>(category: string, fetched: Result<seq<Product>, FetchError>)
      returns (r: Result<seq<Schema>, FetchError>)
      modifies repository
      ensures fetched.Failure? ==> r == Failure(fetched.error) && repository.calls == old(repository.calls)
      ensures fetched.Success? ==>
        && repository.calls == old(repository.calls) + CreateCalls(fetched.value)
        && r.Success?
        && |r.value| == |fetched.value|
        && forall i :: 0 <= i < |fetched.value| ==>
             r.value[i] == toSchema(repository.createOrUpdateAnswer(
               old(repository.calls) + CreateCalls(fetched.value[..i]), fetched.value[i]).result)
    {
      var productSchemas: seq<Schema> := [];
      if fetched.Failure? {
        return Failure(fetched.error);
      }
      var productEntities := fetched.value;
      for i := 0 to |productEntities|
        invariant repository.calls == old(repository.calls) + CreateCalls(productEntities[..i])
        invariant |productSchemas| == i
        invariant forall j :: 0 <= j < i ==>
          productSchemas[j] == toSchema(repository.createOrUpdateAnswer(
            old(repository.calls) + CreateCalls(productEntities[..j]), productEntities[j]).result)
      {
        var withEvent := repository.CreateOrUpdate(productEntities[i]);
        productSchemas := productSchemas + [toSchema(withEvent.result)];
        assert CreateCalls(productEntities[..i + 1])
            == CreateCalls(productEntities[..i]) + [CreateOrUpdateCall(productEntities[i])];
      }
      assert productEntities[..|productEntities|] == productEntities;
      r := Success(productSchemas);
    }

    /** `create`: one `create_or_update` of the schema mapped to an entity. */
    method Create(schema: Schema)
      modifies repository
      ensures repository.calls == old(repository.calls) + [CreateOrUpdateCall(toDomain(schema))]
    {
      var _ := repository.CreateOrUpdate(toDomain(schema));
    }

    /** `delete_products_by_category`: forwards the same category. */
    method DeleteProductsByCategory(category: string)
      modifies repository
      ensures repository.calls == old(repository.calls) + [DeleteProductsByCategoryCall(category)]
    {
      repository.DeleteProductsByCategory(category);
    }

    /** `get_all_products`: one schema per repository product, in order. */
    function GetAllProducts(): (r: seq<Schema>)
      reads repository
      ensures |r| == |repository.All()|
      ensures forall i :: 0 <= i < |r| ==> r[i] == toSchema(repository.All()[i])
    {
      MapSeq(toSchema, repository.All())
    }

    /** `get_products_by_category`: one schema per product the repository
        finds for the category, in order. */
    function GetProductsByCategory(category: string): (r: seq<Schema>)
      reads repository
      ensures |r| == |repository.GetProductsByCategory(category)|
      ensures forall i :: 0 <= i < |r| ==> r[i] == toSchema(repository.GetProductsByCategory(category)[i])
    {
      MapSeq(toSchema, repository.GetProductsByCategory(category))
    }
  }
}
