/** What each /games route answers and what it does to the document collection, as pure functions
    of the collection before the request. The collection is a map from id to stored game. */
module Routes {
  import opened Js
  import opened Validation

  type Id = string
  type Db = map<Id, Game>

  /** The JSON body of a reply; `key` is the wrapper key of `{ game }`, `{ newGame }`, `{ updatedGame }`. */
  datatype Payload =
    | ErrorBody(error: string)
    | GameBody(key: string, game: Game)
    | GameList(games: Db)
    | MessageBody(message: string)

  /** A sent response, or none: a handler that throws leaves the request unanswered. */
  datatype Reply = Reply(status: nat, payload: Payload) | NoReply

  datatype Outcome = Outcome(reply: Reply, db: Db)

  const InvalidIdError := "Invalid ID"
  const GameNotFoundCheckError := "Game not found. Check if it exists"
  const InvalidGameError := "Invalid game! Please check whether you have filled all fields correctly"
  const GameNotFoundError := "Game not found"
  const DeletedMessage := "Game has been succesfully deleted"

  predicate Answered(r: Reply, status: nat)
  {
    r.Reply? && r.status == status
  }

  // ---------------------------------------------------------------------------
  // The store operations the handlers call
  // ---------------------------------------------------------------------------

  /** findById on the id-to-document map: the stored document, or null. */
  function FindById(db: Db, id: Id): (g: Option<Game>)
  {
    if id in db then Some(db[id]) else None
  }

  function SetField(stored: Value, given: Value): (v: Value)
  {
    if given == Undefined then stored else given
  }

  /** An update document without update operators is wrapped in `$set`: every key the update
      carries overwrites the stored value, and keys it lacks keep theirs. */
  function SetFields(stored: Game, update: Option<Game>): (g: Game)
  {
    match update
    case None => stored
    case Some(u) =>
      Game(SetField(stored.name, u.name), SetField(stored.year, u.year), SetField(stored.studio, u.studio),
           SetField(stored.genre, u.genre), SetField(stored.image, u.image))
  }

  predicate Complete(g: Game)
  {
    g.name != Undefined && g.year != Undefined && g.studio != Undefined
    && g.genre != Undefined && g.image != Undefined
  }

  /** An update that carries all five keys replaces the stored game wholesale; one that carries a
      key keeps what it says for that key; an absent key keeps the stored value. */
  lemma SetFieldsMeaning(stored: Game, u: Game)
    ensures Complete(u) ==> SetFields(stored, Some(u)) == u
    ensures u.name != Undefined ==> SetFields(stored, Some(u)).name == u.name
    ensures u.name == Undefined ==> SetFields(stored, Some(u)).name == stored.name
    ensures u.year != Undefined ==> SetFields(stored, Some(u)).year == u.year
    ensures u.year == Undefined ==> SetFields(stored, Some(u)).year == stored.year
    ensures u.studio != Undefined ==> SetFields(stored, Some(u)).studio == u.studio
    ensures u.studio == Undefined ==> SetFields(stored, Some(u)).studio == stored.studio
    ensures u.genre != Undefined ==> SetFields(stored, Some(u)).genre == u.genre
    ensures u.genre == Undefined ==> SetFields(stored, Some(u)).genre == stored.genre
    ensures u.image != Undefined ==> SetFields(stored, Some(u)).image == u.image
    ensures u.image == Undefined ==> SetFields(stored, Some(u)).image == stored.image
  {
  }

  // ---------------------------------------------------------------------------
  // The routes. Each function is the specification of the handler of the same route in
  // Server.GameStore, whose method body takes the same steps imperatively.
  // ---------------------------------------------------------------------------

  /** GET /games/:id */
  function GetOne(lib: Libraries, db: Db, id: Id): (r: Reply)
    ensures Answered(r, 422) <==> !lib.isValidId(id)
    ensures Answered(r, 404) <==> lib.isValidId(id) && id !in db
    ensures Answered(r, 200) <==> lib.isValidId(id) && id in db
    ensures Answered(r, 200) ==> r.payload == GameBody("game", db[id])
    ensures Answered(r, 422) ==> r.payload == ErrorBody(InvalidIdError)
    ensures Answered(r, 404) ==> r.payload == ErrorBody(GameNotFoundCheckError)
  {
    if !lib.isValidId(id) then Reply(422, ErrorBody(InvalidIdError))
    else
      var game := FindById(db, id);
      if game.None? then Reply(404, ErrorBody(GameNotFoundCheckError))
      else Reply(200, GameBody("game", game.value))
  }

  /** POST /games; `newId` is the id the database assigns on save, one it does not hold yet. */
  function Create(lib: Libraries, db: Db, body: Option<Game>, newId: Id): (o: Outcome)
    requires newId !in db
    ensures Answered(o.reply, 201) <==> body.Some? && WellFormed(lib, body.value)
    ensures Answered(o.reply, 201) ==> o.db == db[newId := body.value]
    ensures Answered(o.reply, 201) ==> o.reply.payload == GameBody("newGame", body.value)
    ensures Answered(o.reply, 400) <==> CheckGame(lib, body) == Rejected
    ensures Answered(o.reply, 400) ==> o.reply.payload == ErrorBody(InvalidGameError)
    ensures o.reply.NoReply? <==> CheckGame(lib, body) == Throws
    ensures !Answered(o.reply, 201) ==> o.db == db
  {
    match CheckGame(lib, body)
    case Rejected => Outcome(Reply(400, ErrorBody(InvalidGameError)), db)
    case Throws => Outcome(NoReply, db)
    case Accepted => Outcome(Reply(201, GameBody("newGame", body.value)), db[newId := body.value])
  }

  /** PUT /games/:id, as written: the condition is evaluated on the game already stored under
      `id`, not on the request body, and the body is then applied without any check. */
  function Update(lib: Libraries, db: Db, id: Id, body: Option<Game>): (o: Outcome)
    ensures Answered(o.reply, 422) <==> !lib.isValidId(id)
    ensures Answered(o.reply, 200) <==> lib.isValidId(id) && id in db && WellFormed(lib, db[id])
    ensures Answered(o.reply, 200) ==> o.db == db[id := SetFields(db[id], body)]
    ensures Answered(o.reply, 200) ==> o.reply.payload == GameBody("updatedGame", o.db[id])
    ensures Answered(o.reply, 422) ==> o.reply.payload == ErrorBody(InvalidIdError)
    ensures Answered(o.reply, 400) ==> o.reply.payload == ErrorBody(InvalidGameError)
    ensures lib.isValidId(id) && id !in db ==> Answered(o.reply, 400)
    ensures Answered(o.reply, 400) <==> lib.isValidId(id) && CheckGame(lib, FindById(db, id)) == Rejected
    ensures o.reply.NoReply? <==> lib.isValidId(id) && CheckGame(lib, FindById(db, id)) == Throws
    ensures !Answered(o.reply, 200) ==> o.db == db
  {
    if !lib.isValidId(id) then Outcome(Reply(422, ErrorBody(InvalidIdError)), db)
    else
      var game := FindById(db, id);
      match CheckGame(lib, game)
      case Rejected => Outcome(Reply(400, ErrorBody(InvalidGameError)), db)
      case Throws => Outcome(NoReply, db)
      case Accepted =>
        var db' := db[id := SetFields(game.value, body)];
        Outcome(Reply(200, GameBody("updatedGame", FindById(db', id).value)), db')
  }

  /** DELETE /games/:id */
  function Remove(lib: Libraries, db: Db, id: Id): (o: Outcome)
    ensures Answered(o.reply, 422) <==> !lib.isValidId(id)
    ensures Answered(o.reply, 404) <==> lib.isValidId(id) && id !in db
    ensures Answered(o.reply, 200) <==> lib.isValidId(id) && id in db
    ensures Answered(o.reply, 200) ==> o.db == db - {id} && o.reply.payload == MessageBody(DeletedMessage)
    ensures Answered(o.reply, 404) ==> o.reply.payload == ErrorBody(GameNotFoundError)
    ensures Answered(o.reply, 422) ==> o.reply.payload == ErrorBody(InvalidIdError)
    ensures !Answered(o.reply, 200) ==> o.db == db
  {
    if !lib.isValidId(id) then Outcome(Reply(422, ErrorBody(InvalidIdError)), db)
    else if FindById(db, id).None? then Outcome(Reply(404, ErrorBody(GameNotFoundError)), db)
    else Outcome(Reply(200, MessageBody(DeletedMessage)), db - {id})
  }

  // ---------------------------------------------------------------------------
  // Properties across routes
  // ---------------------------------------------------------------------------

  /** Every stored game satisfies the validity condition. */
  ghost predicate AllWellFormed(lib: Libraries, db: Db)
  {
    forall id :: id in db ==> WellFormed(lib, db[id])
  }

  /** A created game can be read back under its new id, unchanged, and nothing else moved. */
  lemma CreateThenGet(lib: Libraries, db: Db, body: Option<Game>, newId: Id)
    requires newId !in db && lib.isValidId(newId)
    requires Answered(Create(lib, db, body, newId).reply, 201)
    ensures GetOne(lib, Create(lib, db, body, newId).db, newId) == Reply(200, GameBody("game", body.value))
    ensures forall id :: id in db ==> GetOne(lib, Create(lib, db, body, newId).db, id) == GetOne(lib, db, id)
  {
    var db' := Create(lib, db, body, newId).db;
    forall id | id in db
      ensures GetOne(lib, db', id) == GetOne(lib, db, id)
    {
      assert id != newId && db'[id] == db[id];
    }
  }

  /** After a successful delete the id reads as not found, and the other ids read as before. */
  lemma RemoveThenGet(lib: Libraries, db: Db, id: Id, other: Id)
    requires Answered(Remove(lib, db, id).reply, 200)
    requires other != id
    ensures GetOne(lib, Remove(lib, db, id).db, id) == Reply(404, ErrorBody(GameNotFoundCheckError))
    ensures GetOne(lib, Remove(lib, db, id).db, other) == GetOne(lib, db, other)
  {
  }

  /** After a successful update a read of the same id returns what the update replied with. */
  lemma UpdateThenGet(lib: Libraries, db: Db, id: Id, body: Option<Game>)
    requires Answered(Update(lib, db, id, body).reply, 200)
    ensures GetOne(lib, Update(lib, db, id, body).db, id).payload.game == Update(lib, db, id, body).reply.payload.game
  {
  }

  /** The status of PUT, and whether it replies at all, do not depend on the body: only on the id
      and the stored game. (The 200 payload does carry the updated game.) */
  lemma UpdateIgnoresBodyValidity(lib: Libraries, db: Db, id: Id, b1: Option<Game>, b2: Option<Game>)
    ensures Update(lib, db, id, b1).reply.NoReply? == Update(lib, db, id, b2).reply.NoReply?
    ensures Update(lib, db, id, b1).reply.Reply? ==> Update(lib, db, id, b1).reply.status == Update(lib, db, id, b2).reply.status
  {
  }

  /** POST and DELETE keep every stored game valid. */
  lemma CreateAndRemoveKeepWellFormed(lib: Libraries, db: Db, body: Option<Game>, newId: Id, id: Id)
    requires newId !in db && AllWellFormed(lib, db)
    ensures AllWellFormed(lib, Create(lib, db, body, newId).db)
    ensures AllWellFormed(lib, Remove(lib, db, id).db)
  {
  }

  /** PUT does not: for every library and every valid stored game, an update with `{ "name": "" }`
      answers 200 and leaves an invalid game stored under the id. */
  lemma UpdateStoresUncheckedBody(lib: Libraries, db: Db, id: Id)
    requires lib.isValidId(id) && id in db && WellFormed(lib, db[id])
    ensures var o := Update(lib, db, id, Some(Game(Str(""), Undefined, Undefined, Undefined, Undefined)));
            Answered(o.reply, 200) && !WellFormed(lib, o.db[id]) && !AllWellFormed(lib, o.db)
  {
  }

  /** An instance: a collection holding one valid game stops being all valid after such a PUT. */
  lemma UpdateStoresUncheckedBodyExample()
    ensures var lib := Libraries(s => true, v => Bool(true), v => false);
            var stored := Game(Str("A"), Num(2020.0), Str("S"), Str("G"), Str("https://x.com/a.png"));
            var body := Game(Str(""), Undefined, Undefined, Undefined, Undefined);
            var o := Update(lib, map["1" := stored], "1", Some(body));
            && AllWellFormed(lib, map["1" := stored])
            && Answered(o.reply, 200)
            && !AllWellFormed(lib, o.db)
  {
    var lib := Libraries(s => true, v => Bool(true), v => false);
    var stored := Game(Str("A"), Num(2020.0), Str("S"), Str("G"), Str("https://x.com/a.png"));
    ValidImgIsImageSuffix("https://x.com/a.png");
    UpdateStoresUncheckedBody(lib, map["1" := stored], "1");
  }
}
