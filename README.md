# Game list API: validation and route decisions

A Dafny model of the core of a small Express and mongoose service that stores "game" documents
(name, year, studio, genre, image) in one collection and serves them under `/games`. The model
covers three parts of `index.js`:

- `validImg`, the test that an image URL ends in `.jpeg`, `.jpg`, `.gif` or `.png`. It is modelled as the
  regular-expression search it performs (`Validation.FirstMatch`, `Validation.ValidImg`), and a lemma
  proves it equal to a plain suffix test (`Validation.HasImageExtension`).
- The validity condition guarding the write routes (`Validation.CheckGame`). It is the same
  short-circuit chain of truthiness tests, `isNaN`, `validURL.isUri(...) === false` and
  `validImg(...) === false`. It is proved equal to the conjunction `Validation.WellFormed`.
- The decisions of the GET, POST, PUT and DELETE handlers. Each is a pure function of the
  collection before the request (`Routes.GetOne`, `Routes.Create`, `Routes.Update`, `Routes.Remove`).
  Each returns the reply (status and JSON body) and the collection after the request. The class
  `Server.GameStore` holds the collection as a `map` field. Its methods follow the handlers step by
  step, with their early returns, and are proved to agree with those functions.

The library calls whose code is not part of this model are the fields of `Validation.Libraries`:
`mongoose.Types.ObjectId.isValid`, `validURL.isUri` and the global `isNaN`. They are arbitrary
total functions. Every property below holds for all choices of them.

Request bodies and stored documents are `Validation.Game` records of JavaScript values
(`Js.Value`). An absent key is `Undefined`, and `Js.Truthy` gives JavaScript's truthiness. So a
`year` of `0` or `""` fails the presence test.

Consequences of the code as written, each proved:

- The URI test rejects only when `isUri` returns the boolean `false`. Any other return value, such as
  `undefined` or a string, lets the candidate through to `validImg`.
- A candidate can be truthy in every key, pass `isNaN` and `isUri`, and have an image that is not a
  string (a number, `true`, an object). Then `url.match` is not a function and the handler throws
  before touching the collection (`Verdict.Throws`). What the server then does depends on the
  Express and Node versions; the model takes it as no response (`Reply.NoReply`), see "Left out".
- PUT evaluates the condition on the document already stored under the id, not on the request body.
  A missing document therefore gives 400, not 404. The body is applied unchecked: a valid stored
  game, under any library, updated with `{"name": ""}` becomes invalid, and the route still
  answers 200 (`Routes.UpdateStoresUncheckedBody`). The status of PUT does not depend on the body
  (`Routes.UpdateIgnoresBodyValidity`); only the 200 payload carries the updated game.
- `findOneAndUpdate` gets an update document with no update operators. Mongoose wraps such an
  update in `$set`. So the keys the body carries overwrite the stored ones, and absent keys keep
  their stored values (`Routes.SetFields`). A body with all five keys replaces the game wholesale
  (`Routes.SetFieldsMeaning`).

The store is an id-to-document map; `Routes.FindById` is mongoose's `findById` on it, giving the
stored document for a present id and null for an absent one.

## Model

| member | source | states |
|---|---|---|
| `Validation.FirstMatch` | index.js:7 | the result is the first index from `i` on at which `\.(jpeg\|jpg\|gif\|png)$` matches; no match means no index up to the end matches |
| `Validation.ValidImgIsImageSuffix` | index.js:6-8 | `validImg(url)` holds exactly when `url` ends with `.jpeg`, `.jpg`, `.gif` or `.png` (case-sensitive, anchored at the end) |
| `Validation.ValidImgExamples` | index.js:7 | `a.png?x=1`, `a.PNG` and `https://example.com/x.txt` are rejected; `https://x.com/a.png` and `b.jpeg` are accepted |
| `Validation.CheckGame` | index.js:45 | the condition lets a game through exactly when the body is present, all five keys are truthy, `isNaN(year)` is false, `isUri(image)` is not `false`, and the image is a string with an image extension; it throws exactly when the checks before `validImg` pass and the image is not a string; it rejects on any falsy key or a string image without an extension |
| `Validation.ExampleGameAccepted` | index.js:45 | `{name:"A", year:2020, studio:"S", genre:"G", image:"https://x.com/a.png"}` passes whenever `isNaN(2020)` is false and `isUri` does not return `false` |
| `Routes.SetFieldsMeaning` | index.js:74 | under `$set`, a body with all five keys becomes the stored game; for each of the five keys, a key the body carries takes the body's value and an absent key keeps the stored value |
| `Routes.GetOne` | index.js:26-38 | 422 with `Invalid ID` exactly for an id `isValid` refuses; for a valid id, 404 exactly when no document is stored, else 200 with exactly the stored document |
| `Routes.Create` | index.js:41-53 | 201 exactly when the body is valid, and then the collection gains exactly the body under a new id and the reply carries it as `newGame`; 400 exactly when the condition rejects; no reply exactly when it throws; the collection is unchanged unless 201 |
| `Routes.Update` | index.js:56-78 | 422 exactly for a refused id; 200 exactly when the STORED document exists and is valid, and then only that id changes, to the stored game with the body's keys set, and the reply is the re-read document; an absent document gives 400; unchanged collection unless 200 |
| `Routes.Remove` | index.js:81-99 | 422 exactly for a refused id; 404 exactly when absent; 200 exactly when present, and then exactly that id is removed and the message is sent; unchanged collection unless 200 |
| `Routes.CreateThenGet` | index.js:50-52 | after a 201, reading the new id gives 200 with the body, and every pre-existing id reads as before |
| `Routes.RemoveThenGet` | index.js:96-98 | after a 200 delete the id reads 404 and every other id reads as before |
| `Routes.UpdateThenGet` | index.js:74-77 | after a 200 update, reading the id gives the same game PUT replied with |
| `Routes.UpdateIgnoresBodyValidity` | index.js:64-72 | whether PUT replies, and with which status, is the same for every body |
| `Routes.CreateAndRemoveKeepWellFormed` | index.js:45-50 | if every stored game is valid, it stays so after POST and after DELETE |
| `Routes.UpdateStoresUncheckedBody` | index.js:66-74 | for every library, every collection and every well-formed id holding a valid game, PUT with `{"name": ""}` answers 200 and leaves an invalid game stored under that id |
| `Routes.UpdateStoresUncheckedBodyExample` | index.js:66-74 | instance: a one-game collection that is all valid is no longer all valid after that PUT, which answers 200 |
| `Server.GameStore.ListGames` | index.js:20-23 | GET /games answers 200 with the whole collection |
| `Server.GameStore.GetGame` | index.js:26-38 | the handler's reply is `Routes.GetOne` of the collection, and the collection is not modified |
| `Server.GameStore.PostGame` | index.js:41-53 | the reply and the new collection are those of `Routes.Create` on the old collection |
| `Server.GameStore.PutGame` | index.js:56-78 | the reply and the new collection are those of `Routes.Update` on the old collection |
| `Server.GameStore.DeleteGame` | index.js:81-99 | the reply and the new collection are those of `Routes.Remove` on the old collection |
| `Server.Lifecycle` | index.js:41-99 | on a fresh store: POST of a valid game gives 201, GET gives it back, PUT with a complete body gives 200 with that body, DELETE gives 200, and a second GET gives 404 |

## Left out

- Express wiring is not modelled: route registration, `express.json()`, serialisation by `res.send`/`res.json`, the `/` welcome route, and `app.listen` with its console output. It is framework plumbing.
- The code of `valid-url`'s `isUri`, mongoose's `ObjectId.isValid` and the coercion inside `isNaN` is not part of this model. These are library code and appear as arbitrary functions in `Validation.Libraries`. Whether `isUri` ever returns the boolean `false` is therefore left open.
- `models/games.js` is not modelled. Its `require: true` keys are not mongoose's `required` option, so they enforce nothing.
- Routes.Create: the saved document is the body as given. Mongoose's schema casting (a string `year` turned into a number, unknown keys dropped, cast errors) is not modelled, and the 201 reply omits the `_id` and `__v` keys that the saved `newGame` carries.
- Routes.Create: when the image is a truthy non-string, the thrown error is modelled as no response with the store still serving later requests. That is Express 4 with a process that survives the unhandled rejection; Express 5 would answer 500, and Node 15 or later under Express 4 would end the process. The Express and Node versions are not part of this model.
- Routes.Update: the same assumption about a thrown error holds for PUT, when the stored document has a truthy non-string image.
- Routes.Update: the `$set` update is applied to the five keys as given. Casting of the update, and a body that is an array or carries `_id` or update operators, are not modelled.
- Routes.GetOne: ids are compared as strings, in every route keyed by id (`Routes.GetOne`, `Routes.Update`, `Routes.Remove`, and the new id of `Routes.Create`). Two strings that name the same ObjectId (for example, hex digits in different case) are different keys here.
- The database calls are network I/O and are not modelled as such. Only their effect on the id-to-document map is modelled: no waiting, no failures, no concurrent requests. A failed call (a rejected promise) is not modelled.
- Routes.Create: `newId` is the id mongoose gives the new document, taken as one not yet in the collection.
- Routes.Create: a body that carries its own `_id` is not modelled. Mongoose would use that id, storing the game under the client's choice or, for an id already stored, rejecting the save with a duplicate-key error.
- Server.GameStore.ListGames: `find()` returns an array of documents; the model replies with the id-to-document map, so the order of that array is not modelled.
- `index.js` has no in-memory collection that allocates ids as last-id-plus-one and no lookups that skip null holes. So the model has neither; ids come from the database.
