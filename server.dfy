/** The application: one collection of games, shared by the route handlers, which update it in place.
    Each handler method follows its route step by step and is proved equal to the function of the
    same route in Routes, which is its specification. */
module Server {
  import opened Js
  import opened Validation
  import opened Routes

  class GameStore {
    const lib: Libraries
    var games: Db

    constructor (lib: Libraries, initial: Db)
      ensures this.lib == lib && games == initial
    {
      this.lib := lib;
      games := initial;
    }

    /** GET /games */
    method ListGames() returns (r: Reply)
      ensures Answered(r, 200) && r.payload == GameList(games)
    {
      var all := games;
      r := Reply(200, GameList(all));
    }

    /** GET /games/:id */
    method GetGame(id: Id) returns (r: Reply)
      ensures r == GetOne(lib, games, id)
    {
      if !lib.isValidId(id) {
        r := Reply(422, ErrorBody(InvalidIdError));
        return;
      }
      var game := FindById(games, id);
      r := if game.None? then Reply(404, ErrorBody(GameNotFoundCheckError)) else Reply(200, GameBody("game", game.value));
    }

    /** POST /games; `newId` is the id the database assigns to the saved document. */
    method PostGame(body: Option<Game>, newId: Id) returns (r: Reply)
      requires newId !in games
      modifies this
      ensures r == Create(lib, old(games), body, newId).reply
      ensures games == Create(lib, old(games), body, newId).db
    {
      var verdict := CheckGame(lib, body);
      if verdict == Rejected {
        r := Reply(400, ErrorBody(InvalidGameError));
        return;
      }
      if verdict == Throws {
        r := NoReply;
        return;
      }
      var newGame := body.value;
      games := games[newId := newGame];
      r := Reply(201, GameBody("newGame", newGame));
    }

    /** PUT /games/:id, as written: the stored game is checked, the body is applied unchecked. */
    method PutGame(id: Id, body: Option<Game>) returns (r: Reply)
      modifies this
      ensures r == Update(lib, old(games), id, body).reply
      ensures games == Update(lib, old(games), id, body).db
    {
      if !lib.isValidId(id) {
        r := Reply(422, ErrorBody(InvalidIdError));
        return;
      }
      var game := FindById(games, id);
      var newGame := body;
      var verdict := CheckGame(lib, game);
      if verdict == Rejected {
        r := Reply(400, ErrorBody(InvalidGameError));
        return;
      }
      if verdict == Throws {
        r := NoReply;
        return;
      }
      games := games[id := SetFields(game.value, newGame)];
      var updatedGame := FindById(games, id);
      r := Reply(200, GameBody("updatedGame", updatedGame.value));
    }

    /** DELETE /games/:id */
    method DeleteGame(id: Id) returns (r: Reply)
      modifies this
      ensures r == Remove(lib, old(games), id).reply
      ensures games == Remove(lib, old(games), id).db
    {
      if !lib.isValidId(id) {
        r := Reply(422, ErrorBody(InvalidIdError));
        return;
      }
      var game := FindById(games, id);
      if game.None? {
        r := Reply(404, ErrorBody(GameNotFoundError));
        return;
      }
      games := games - {id};
      r := Reply(200, MessageBody(DeletedMessage));
    }
  }

  /** A client of the handlers: create, read back, replace with a complete body, delete, read again. */
  method Lifecycle(lib: Libraries, body: Game, replacement: Game, newId: Id)
    returns (created: Reply, read: Reply, updated: Reply, deleted: Reply, gone: Reply)
    requires lib.isValidId(newId)
    requires WellFormed(lib, body) && Complete(replacement)
    ensures created == Reply(201, GameBody("newGame", body))
    ensures read == Reply(200, GameBody("game", body))
    ensures updated == Reply(200, GameBody("updatedGame", replacement))
    ensures deleted == Reply(200, MessageBody(DeletedMessage))
    ensures gone == Reply(404, ErrorBody(GameNotFoundCheckError))
  {
    var store := new GameStore(lib, map[]);
    created := store.PostGame(Some(body), newId);
    read := store.GetGame(newId);
    SetFieldsMeaning(body, replacement);
    updated := store.PutGame(newId, Some(replacement));
    deleted := store.DeleteGame(newId);
    gone := store.GetGame(newId);
  }
}
