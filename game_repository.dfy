/** The Twitch game store (`TwichGameMongoRepository`) over an in-memory
    collection of documents. The collection is a sequence in the store's
    natural order; `save()` follows MongoEngine: a document that carries an
    id replaces the stored document with that id (or is inserted under it),
    a document without an id is inserted under a fresh id. */
module GameRepository {
  import opened Common

  /** Store-assigned document identifier (a Mongo ObjectId). */
  type StoreId = nat

  const GAME_EVENT_TYPE: string := "twich_game"

  /** Domain entity of a Twitch game. */
  datatype TwichGameEntity = TwichGameEntity(
    id: Option<StoreId>, name: string, igdbId: string, boxArtUrl: string, parsedAt: Timestamp)

  /** Persistence document of a Twitch game; `id` is `None` until saved. */
  datatype TwichGame = TwichGame(
    id: Option<StoreId>, name: string, igdbId: string, boxArtUrl: string, parsedAt: Timestamp)

  datatype PublicParseGameCalledEvent = PublicParseGameCalledEvent(eventType: string, name: string)

  datatype TwichGameCreatedOrUpdatedEvent = TwichGameCreatedOrUpdatedEvent(
    id: StoreId, name: string, igdbId: string, boxArtUrl: string, parsedAt: Timestamp)

  datatype TwichGameDeletedByNameEvent = TwichGameDeletedByNameEvent(name: string)

  datatype GameNotFoundException = GameNotFoundException

  /** No two stored documents share an id. */
  predicate UniqueIds(s: seq<TwichGame>) {
    forall i, j :: 0 <= i < |s| && 0 <= j < |s| && s[i].id == s[j].id ==> i == j
  }

  /** Every stored document has an id below `bound`. */
  predicate SavedBelow(s: seq<TwichGame>, bound: StoreId) {
    forall i :: 0 <= i < |s| ==> s[i].id.Some? && s[i].id.value < bound
  }

  /** Index of the first document satisfying `p`, if any. */
  function FirstWhere(s: seq<TwichGame>, p: TwichGame -> bool): (r: Option<nat>)
    ensures r.Some? ==> r.value < |s| && p(s[r.value])
    ensures r.Some? ==> forall j :: 0 <= j < r.value ==> !p(s[j])
    ensures r.None? <==> forall j :: 0 <= j < |s| ==> !p(s[j])
  {
    if s == [] then None
    else if p(s[0]) then Some(0)
    else match FirstWhere(s[1..], p)
         case None => None
         case Some(k) => Some(k + 1)
  }

  /** The documents satisfying `p`, in store order. */
  function Filter(s: seq<TwichGame>, p: TwichGame -> bool): (r: seq<TwichGame>)
  {
    if s == [] then [] else (if p(s[0]) then [s[0]] else []) + Filter(s[1..], p)
  }

  function NameIs(name: string): TwichGame -> bool {
    (g: TwichGame) => g.name == name
  }

  function NameIsNot(name: string): TwichGame -> bool {
    (g: TwichGame) => g.name != name
  }

  function IdIs(id: Option<StoreId>): TwichGame -> bool {
    (g: TwichGame) => g.id == id
  }

  function IdNotIn(ids: set<Option<StoreId>>): TwichGame -> bool {
    (g: TwichGame) => g.id !in ids
  }

  /** `TwichGame.objects(name=name)`: exactly the stored documents with the
      name. */
  function WithName(s: seq<TwichGame>, name: string): (r: seq<TwichGame>)
    ensures forall g :: g in r <==> g in s && g.name == name
  {
    FilterMembers(s, NameIs(name));
    Filter(s, NameIs(name))
  }

  /** The store once every document named `name` is gone. */
  function WithoutName(s: seq<TwichGame>, name: string): (r: seq<TwichGame>) {
    Filter(s, NameIsNot(name))
  }

  /** The store once every document whose id is in `ids` is gone. */
  function WithoutIds(s: seq<TwichGame>, ids: set<Option<StoreId>>): (r: seq<TwichGame>) {
    Filter(s, IdNotIn(ids))
  }

  function IdsOf(s: seq<TwichGame>): (ids: set<Option<StoreId>>) {
    set g | g in s :: g.id
  }

  /** Overwriting the first document with the saved one's id keeps every
      other document in its place. */
  lemma ReplaceStoresDocument(s: seq<TwichGame>, k: nat, saved: TwichGame)
    requires k < |s| && s[k].id == saved.id
    ensures saved in s[k := saved]
    ensures UniqueIds(s) ==> forall g :: g in s[k := saved] <==> g == saved || (g in s && g.id != saved.id)
  {
    var t := s[k := saved];
    assert t[k] == saved;
    if UniqueIds(s) {
      forall g ensures g in t <==> g == saved || (g in s && g.id != saved.id) {
        if g in s && g.id != saved.id {
          var i :| 0 <= i < |s| && s[i] == g;
          assert t[i] == g;
        }
        if g in t && g != saved {
          var i :| 0 <= i < |t| && t[i] == g;
          assert s[i] == g;
        }
      }
    }
  }

  /** `document.save()`: returns the new store and the document as saved.
      The saved document keeps its own id or gets `freshId`, and keeps every
      other field. Under an id already stored it takes that document's place;
      under a new id it goes at the end. */
  function Save(s: seq<TwichGame>, doc: TwichGame, freshId: StoreId): (r: (seq<TwichGame>, TwichGame))
    ensures r.1.id.Some?
    ensures doc.id.Some? ==> r.1.id == doc.id
    ensures doc.id.None? ==> r.1.id == Some(freshId)
    ensures r.1.(id := doc.id) == doc
    ensures r.1 in r.0
    ensures (forall i :: 0 <= i < |s| ==> s[i].id != r.1.id) ==> r.0 == s + [r.1]
    ensures (exists i :: 0 <= i < |s| && s[i].id == r.1.id) ==>
      && |r.0| == |s|
      && forall i :: 0 <= i < |s| && s[i].id != r.1.id ==> r.0[i] == s[i]
    ensures UniqueIds(s) ==> forall g :: g in r.0 <==> g == r.1 || (g in s && g.id != r.1.id)
  {
    var saved := if doc.id.Some? then doc else doc.(id := Some(freshId));
    match FirstWhere(s, IdIs(saved.id))
    case Some(k) =>
      ReplaceStoresDocument(s, k, saved);
      (s[k := saved], saved)
    case None =>
      assert forall i :: 0 <= i < |s| ==> s[i].id != saved.id by {
        forall i | 0 <= i < |s| ensures s[i].id != saved.id { assert !IdIs(saved.id)(s[i]); }
      }
      (s + [saved], saved)
  }

  /** The event `create_or_update` builds from the saved document: it
      carries every field of that document, so the document can be rebuilt
      from it. */
  function CreatedOrUpdatedEvent(saved: TwichGame): (ev: TwichGameCreatedOrUpdatedEvent)
    requires saved.id.Some?
    ensures TwichGame(Some(ev.id), ev.name, ev.igdbId, ev.boxArtUrl, ev.parsedAt) == saved
  {
    TwichGameCreatedOrUpdatedEvent(saved.id.value, saved.name, saved.igdbId, saved.boxArtUrl, saved.parsedAt)
  }

  lemma {:induction false} FilterMembers(s: seq<TwichGame>, p: TwichGame -> bool)
    ensures forall g :: g in Filter(s, p) <==> g in s && p(g)
  {
    if s != [] {
      FilterMembers(s[1..], p);
      assert s == [s[0]] + s[1..];
    }
  }

  /** Filtering with two tests that agree on the store gives the same store. */
  lemma {:induction false} FilterAgree(s: seq<TwichGame>, p: TwichGame -> bool, q: TwichGame -> bool)
    requires forall g :: g in s ==> p(g) == q(g)
    ensures Filter(s, p) == Filter(s, q)
  {
    if s != [] {
      assert s[0] in s;
      assert forall g :: g in s[1..] ==> g in s;
      FilterAgree(s[1..], p, q);
    }
  }

  /** Filtering with a test every document passes keeps the store. */
  lemma {:induction false} FilterIdentity(s: seq<TwichGame>, p: TwichGame -> bool)
    requires forall g :: g in s ==> p(g)
    ensures Filter(s, p) == s
  {
    if s != [] {
      assert s[0] in s;
      assert forall g :: g in s[1..] ==> g in s;
      FilterIdentity(s[1..], p);
      assert s == [s[0]] + s[1..];
    }
  }

  /** Two filters in a row are one filter with both tests. */
  lemma {:induction false} FilterTwice(s: seq<TwichGame>, p: TwichGame -> bool, q: TwichGame -> bool, both: TwichGame -> bool)
    requires forall g :: both(g) == (p(g) && q(g))
    ensures Filter(Filter(s, p), q) == Filter(s, both)
  {
    if s != [] {
      FilterTwice(s[1..], p, q, both);
      assert both(s[0]) == (p(s[0]) && q(s[0]));
      if p(s[0]) {
        var f := Filter(s[1..], p);
        assert Filter(s, p) == [s[0]] + f;
        assert ([s[0]] + f)[1..] == f;
      } else {
        assert Filter(s, p) == Filter(s[1..], p);
      }
    }
  }

  lemma {:induction false} FilterKeepsUniqueIds(s: seq<TwichGame>, p: TwichGame -> bool)
    requires UniqueIds(s)
    ensures UniqueIds(Filter(s, p))
  {
    if s != [] {
      var t := s[1..];
      assert UniqueIds(t) by {
        forall i, j | 0 <= i < |t| && 0 <= j < |t| && t[i].id == t[j].id ensures i == j {
          assert s[i + 1].id == s[j + 1].id;
        }
      }
      FilterKeepsUniqueIds(t, p);
      FilterMembers(t, p);
      var f := Filter(t, p);
      if p(s[0]) {
        forall g | g in f ensures g.id != s[0].id {
          var k :| 0 <= k < |t| && t[k] == g;
          assert s[k + 1] == g;
        }
        var r := [s[0]] + f;
        forall i, j | 0 <= i < |r| && 0 <= j < |r| && r[i].id == r[j].id ensures i == j {
          if i > 0 && j > 0 {
            assert f[i - 1].id == f[j - 1].id;
          }
        }
      }
    }
  }

  /** Removing documents keeps the store well formed. */
  lemma FilterKeepsStoreValid(s: seq<TwichGame>, p: TwichGame -> bool, bound: StoreId)
    requires UniqueIds(s) && SavedBelow(s, bound)
    ensures UniqueIds(Filter(s, p)) && SavedBelow(Filter(s, p), bound)
  {
    FilterKeepsUniqueIds(s, p);
    FilterMembers(s, p);
    var f := Filter(s, p);
    forall i | 0 <= i < |f| ensures f[i].id.Some? && f[i].id.value < bound {
      assert f[i] in s;
    }
  }

  // ----- Properties of the store operations -----

  /** After deleting by name no document carries the name, and every
      document with another name is still there. */
  lemma DeleteRemovesOnlyName(s: seq<TwichGame>, name: string)
    ensures forall g :: g in WithoutName(s, name) <==> g in s && g.name != name
  {
    FilterMembers(s, NameIsNot(name));
  }

  /** When no document has the name, deleting it keeps the store as it is. */
  lemma DeleteWithoutMatchKeepsStore(s: seq<TwichGame>, name: string)
    requires forall g :: g in s ==> g.name != name
    ensures WithoutName(s, name) == s
  {
    FilterIdentity(s, NameIsNot(name));
  }

  /** A second delete of the same name leaves the store unchanged. */
  lemma DeleteIsIdempotent(s: seq<TwichGame>, name: string)
    ensures WithoutName(WithoutName(s, name), name) == WithoutName(s, name)
  {
    DeleteRemovesOnlyName(s, name);
    DeleteWithoutMatchKeepsStore(WithoutName(s, name), name);
  }

  /** Deleting every id found by the name query is deleting the name. */
  lemma DeletingMatchedIdsIsDeletingName(s: seq<TwichGame>, name: string)
    requires UniqueIds(s)
    ensures WithoutIds(s, IdsOf(WithName(s, name))) == WithoutName(s, name)
  {
    var ids := IdsOf(WithName(s, name));
    FilterMembers(s, NameIs(name));
    forall g | g in s ensures IdNotIn(ids)(g) == NameIsNot(name)(g) {
      if g.id in ids {
        var h :| h in WithName(s, name) && h.id == g.id;
        var i :| 0 <= i < |s| && s[i] == g;
        var j :| 0 <= j < |s| && s[j] == h;
        assert i == j;
      }
    }
    FilterAgree(s, IdNotIn(ids), NameIsNot(name));
  }

  /** Deleting one more id extends the set of deleted ids. */
  lemma DeleteOneMore(s: seq<TwichGame>, ids: set<Option<StoreId>>, id: Option<StoreId>)
    ensures WithoutIds(WithoutIds(s, ids), {id}) == WithoutIds(s, ids + {id})
  {
    FilterTwice(s, IdNotIn(ids), IdNotIn({id}), IdNotIn(ids + {id}));
  }

  /** Saving keeps ids unique and gives every stored document an id. */
  lemma SaveKeepsStoreValid(s: seq<TwichGame>, doc: TwichGame, freshId: StoreId)
    requires UniqueIds(s) && SavedBelow(s, freshId)
    ensures var (t, saved) := Save(s, doc, freshId);
      UniqueIds(t) && SavedBelow(t, if saved.id.value >= freshId then saved.id.value + 1 else freshId)
  {
    var (t, saved) := Save(s, doc, freshId);
    match FirstWhere(s, IdIs(saved.id))
    case Some(k) =>
      assert t == s[k := saved];
      forall i, j | 0 <= i < |t| && 0 <= j < |t| && t[i].id == t[j].id ensures i == j {
        if i != k && j != k { assert s[i].id == s[j].id; }
      }
    case None =>
      assert t == s + [saved];
  }

  /** After a save, looking the saved document's name up finds a document. */
  lemma SavedNameIsFound(s: seq<TwichGame>, doc: TwichGame, freshId: StoreId)
    ensures var (t, saved) := Save(s, doc, freshId); FirstWhere(t, NameIs(saved.name)).Some?
  {
    var (t, saved) := Save(s, doc, freshId);
    var i :| 0 <= i < |t| && t[i] == saved;
    assert NameIs(saved.name)(t[i]);
  }

  /** After deleting a name, looking it up finds nothing. */
  lemma DeletedNameIsNotFound(s: seq<TwichGame>, name: string)
    ensures FirstWhere(WithoutName(s, name), NameIs(name)).None?
  {
    DeleteRemovesOnlyName(s, name);
    var t := WithoutName(s, name);
    forall j | 0 <= j < |t| ensures !NameIs(name)(t[j]) { assert t[j] in t; }
  }

  class TwichGameMongoRepository {
    /** The game collection, in natural order. */
    var games: seq<TwichGame>
    /** Stand-in for ObjectId generation: above every id in use. */
    var nextId: StoreId
    /** `TwichGameMapper.to_persistence` and `TwichGameMapper.to_domain`. */
    const toPersistence: TwichGameEntity -> TwichGame
    const toDomain: TwichGame -> TwichGameEntity

    ghost predicate Valid()
      reads this
    {
      UniqueIds(games) && SavedBelow(games, nextId)
    }

    constructor (toPersistence: TwichGameEntity -> TwichGame, toDomain: TwichGame -> TwichGameEntity)
      ensures Valid() && games == []
      ensures this.toPersistence == toPersistence && this.toDomain == toDomain
    {
      this.toPersistence := toPersistence;
      this.toDomain := toDomain;
      games := [];
      nextId := 0;
    }

    /** `parse_game`: only builds the request event; it reads no state. */
    function ParseGame(name: string): (ev: PublicParseGameCalledEvent)
      ensures ev.eventType == GAME_EVENT_TYPE && ev.name == name
    {
      PublicParseGameCalledEvent(GAME_EVENT_TYPE, name)
    }

    /** `create_or_update`: saves the mapped document, then builds both the
        event and the entity from the one saved document. */
    method CreateOrUpdate(entity: TwichGameEntity) returns (r: ResultWithEvent<TwichGameEntity, TwichGameCreatedOrUpdatedEvent>)
      requires Valid()
      modifies this
      ensures Valid()
      ensures var doc := toPersistence(entity);
        var (store, saved) := Save(old(games), doc, old(nextId));
        && games == store
        && saved in games
        && (doc.id.Some? ==> saved == doc)
        && (doc.id.None? ==> saved == doc.(id := Some(old(nextId))))
        && (forall g :: g in games <==> g == saved || (g in old(games) && g.id != saved.id))
        && saved.id.Some?
        && r.event.id == saved.id.value
        && r.event.name == saved.name
        && r.event.igdbId == saved.igdbId
        && r.event.boxArtUrl == saved.boxArtUrl
        && r.event.parsedAt == saved.parsedAt
        && r.result == toDomain(saved)
    {
      var doc := toPersistence(entity);
      SaveKeepsStoreValid(games, doc, nextId);
      var (store, saved) := Save(games, doc, nextId);
      games := store;
      if saved.id.value >= nextId {
        nextId := saved.id.value + 1;
      }
      var event := CreatedOrUpdatedEvent(saved);
      var result := toDomain(saved);
      r := ResultWithEvent(result, event);
    }

    /** `all`: one entity per stored document, in store order. */
    function All(): (r: seq<TwichGameEntity>)
      reads this
      ensures |r| == |games|
      ensures forall i :: 0 <= i < |games| ==> r[i] == toDomain(games[i])
    {
      MapSeq(toDomain, games)
    }

    /** `delete_game_by_name`: deletes each document the name query finds,
        one at a time, and answers with the deleted event in every case. */
    method DeleteGameByName(name: string) returns (ev: TwichGameDeletedByNameEvent)
      requires Valid()
      modifies this
      ensures Valid() && nextId == old(nextId)
      ensures games == WithoutName(old(games), name)
      ensures ev == TwichGameDeletedByNameEvent(name)
    {
      var matching := WithName(games, name);
      ghost var deleted: set<Option<StoreId>> := {};
      FilterIdentity(games, IdNotIn(deleted));
      for k := 0 to |matching|
        invariant Valid() && nextId == old(nextId)
        invariant deleted == IdsOf(matching[..k])
        invariant games == WithoutIds(old(games), deleted)
      {
        DeleteOneMore(old(games), deleted, matching[k].id);
        FilterKeepsStoreValid(games, IdNotIn({matching[k].id}), nextId);
        games := WithoutIds(games, {matching[k].id});
        deleted := deleted + {matching[k].id};
        assert matching[..k + 1] == matching[..k] + [matching[k]];
      }
      assert matching[..|matching|] == matching;
      DeletingMatchedIdsIsDeletingName(old(games), name);
      ev := TwichGameDeletedByNameEvent(name);
    }

    /** `get_game_by_name`: the first document with the name, mapped, or
        `GameNotFoundException` when none has it. */
    function GetGameByName(name: string): (r: Result<TwichGameEntity, GameNotFoundException>)
      reads this
      ensures r.Failure? <==> forall i :: 0 <= i < |games| ==> games[i].name != name
      ensures r.Success? ==> exists i :: (0 <= i < |games| && games[i].name == name
        && (forall j :: 0 <= j < i ==> games[j].name != name)
        && r.value == toDomain(games[i]))
    {
      match FirstWhere(games, NameIs(name))
      case None => Failure(GameNotFoundException)
      case Some(k) => Success(toDomain(games[k]))
    }
  }
}
