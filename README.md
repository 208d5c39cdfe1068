# Shows API: response envelope, list filter and handler guards

This project models the logic of the small Flask API for a "shows"
collection in `backend/app.py`. It covers four things:

- the uniform response envelope `{code, success, message, result}` that
  `create_response` builds, and its refusal of a payload that is neither a
  dict nor `None`;
- the `minEpisodes` filter of `GET /shows`, an order-preserving list
  comprehension over the stored records;
- the guards of `GET /shows/<id>` and `DELETE /shows/<id>`, which answer 404
  for an unknown id, over an explicit store value;
- the validation guard of `POST /shows`, both as written and as its error
  message says it should behave.

Everything is pure: each handler is a function from the store and the
already parsed request to the response and the store afterwards.

Modules:

- `Wrappers`: `Option` (Python's `None`) and `Result` (a value or a raised
  exception).
- `PyJson`: JSON values as Python represents them, Python's exceptions, and
  `hasattr` on such values.
- `Sequences`: order-preserving subsequences, the reference notion for both
  filters.
- `Envelope`: `create_response`.
- `ShowStore`: stored records and the datastore operations the handlers
  call (`getById`, `deleteById`, `create`). The datastore module is not part
  of this model. Its operations are given the natural contracts the handlers
  rely on: lookup of the record with that id, removal of the records with
  that id, and appending the body under a fresh id, after which `create`
  returns the stored record with its id (answered as the POST result).
  These contracts are proved about explicit definitions.
- `ShowFilter`: the `minEpisodes` comprehension, with Python's comparison
  semantics. A missing key raises `KeyError`. A non-numeric value raises
  `TypeError`. A `bool` compares as 0 or 1.
- `Handlers`: the route handlers and the properties relating them (POST then
  GET, DELETE then GET, the store invariant).

A stored record is `Show(id, fields)`. `fields` is the dict the client sent
and `id` is the one the store assigned. Its JSON form is the dict with `id`
set.

Where the code and its own documentation disagree, the model follows the
code:

- The docstring of `create_response` (backend/app.py:18-20) asks for a
  payload that maps the name of the data's type to the data.
  `get_single_show` passes the record itself, and the code accepts any dict.
- The 422 message at backend/app.py:83 says the body must carry the show
  name and the number of episodes seen. The code answers 422 for every body
  (see Findings).

## Model

| member | source | states |
|---|---|---|
| `Envelope.CreateResponse` | backend/app.py:9-36 | fails with `TypeError` and no envelope exactly when the payload is neither a dict nor `None`; otherwise `code` equals the returned status, `success` holds exactly when `200 <= status < 300`, and the message and payload (including `None`) pass through unchanged |
| `Envelope.ErrorStatusesAreNotSuccess` | backend/app.py:32 | 404 and 422 envelopes report `success == false`; 200 reports `true` |
| `PyJson.TypeName` | backend/app.py:27 | a value's Python type is `dict` exactly for JSON objects and `NoneType` exactly for `null` |
| `PyJson.HasAttr` | backend/app.py:82 | Python's `hasattr` on a value parsed from JSON: on a dict it answers by the attributes of the `dict` type alone, never by the dict's keys |
| `PyJson.HasAttrIgnoresKeys` | backend/app.py:82 | any two dicts, whatever their keys, give the same `hasattr` answer for every name |
| `PyJson.NoJsonValueHasShowAttributes` | backend/app.py:82 | no value a JSON body parses to has an attribute `name` or `episodes_seen` |
| `ShowStore.ShowToJson` | backend/app.py:76 | a record's dict carries the assigned id under `id` and every other field of the stored body unchanged, and nothing else |
| `ShowStore.GetById` | backend/app.py:74-76 | answers `None` exactly when no stored record has the id; otherwise a stored record with that id |
| `ShowStore.GetByIdAt` | backend/app.py:76 | with unique ids, looking up a stored record's id answers that record |
| `ShowStore.DeleteById` | backend/app.py:68 | afterwards no record has the id, every other record remains, nothing new appears, and an absent id leaves the store unchanged |
| `ShowStore.DeleteByIdIsSubsequence` | backend/app.py:68 | deleting keeps the remaining records in their stored order |
| `ShowStore.DeleteByIdKeepsUniqueIds` | backend/app.py:68 | deleting preserves uniqueness of ids |
| `ShowStore.SubsequenceUniqueIds` | backend/app.py:68 | a subsequence of a store with unique ids has unique ids |
| `ShowStore.NextId` | backend/app.py:84 | the id assigned on create is at least 1 and greater than every stored id |
| `ShowStore.Create` | backend/app.py:84 | the body is appended as a new record whose id is not in use |
| `ShowStore.CreateKeepsUniqueIds` | backend/app.py:84 | creating preserves uniqueness of ids |
| `ShowStore.GetAfterCreate` | backend/app.py:84 | looking up the id of a created record answers that record |
| `ShowFilter.EpisodesSeen` | backend/app.py:61 | reading `episodes_seen` fails with `KeyError` or `TypeError` exactly when the key is missing or its value is neither an int nor a bool; an int value is returned as is, a bool as 1 or 0 |
| `ShowFilter.FilterMinEpisodes` | backend/app.py:61 | the comprehension reads the records in order; when it succeeds the result is no longer than the stored list and holds only stored records (its exact contents are stated by the lemmas below) |
| `ShowFilter.FilterWithThreshold` | backend/app.py:57-61 | with a threshold that parsed, the comprehension as above; with one that did not, `int`'s error is met only once a record with the key is reached: an empty store yields `[]`, a first record without `episodes_seen` raises `KeyError`, otherwise the parse error is raised |
| `ShowFilter.FilterFailsOnFirstIncomparable` | backend/app.py:61 | the filter succeeds exactly when every record can be compared; otherwise it raises the error of the first record that cannot |
| `ShowFilter.FilterSound` | backend/app.py:61 | every returned record has `episodes_seen >= N` |
| `ShowFilter.FilterComplete` | backend/app.py:61 | each passing record appears as often as it is stored, and each failing one not at all |
| `ShowFilter.FilterIsSubsequence` | backend/app.py:61 | the result is a subsequence of the stored sequence: relative order is preserved |
| `ShowFilter.FilterKeepsEveryPassing` | backend/app.py:61 | every stored record with `episodes_seen >= N` is returned |
| `Handlers.ShowsPayload` | backend/app.py:60-62 | the payload is a dict with the single key `shows`, holding each listed record's dict in list order |
| `Handlers.GetAllShows` | backend/app.py:55-62 | without `minEpisodes` the answer is 200 with exactly the stored sequence and no store change; with a parsed threshold it fails exactly when some record cannot be compared; with an unparsable one it fails exactly when the store is not empty; otherwise 200 with the filtered list |
| `Handlers.GetAllShowsFiltered` | backend/app.py:59-62 | with a threshold, the list answered is sound, complete with multiplicities, and in stored order |
| `Handlers.BadThresholdOnEmptyStore` | backend/app.py:61-62 | a `minEpisodes` that does not parse raises nothing on an empty store, which answers 200 with no shows |
| `Handlers.DeleteShow` | backend/app.py:64-69 | an unknown id answers 404 "No show with this id exists" with result `None` and no store change; a known id answers 200 "Show deleted" with result `None`, and the record is gone |
| `Handlers.GetSingleShow` | backend/app.py:72-76 | never changes the store; an unknown id answers 404 with the fixed message and result `None`; a known id answers 200 with a stored record of that id as result |
| `Handlers.CreateNewShowAsWritten` | backend/app.py:79-84 | the guard as written: 422 with the fixed message and no store change when `hasattr(body, 'name')` is false, otherwise `NameError` on `FALSE` |
| `Handlers.AsWrittenRejectsEveryBody` | backend/app.py:82-83 | as written, every request body is refused with 422 and nothing is stored |
| `Handlers.CreateNewShow` | backend/app.py:79-84 | a body that is not a dict with both `name` and `episodes_seen` is refused with 422, the fixed message and no store change; otherwise the body is stored under a fresh id and answered with 200 |
| `Handlers.AsWrittenRefusesValidBody` | backend/app.py:82 | every body with both fields gets 422 from the code as written and 200 from the corrected guard |
| `Handlers.GetAfterCreateNewShow` | backend/app.py:72-84 | POST then GET by the returned id answers the same record |
| `Handlers.GetAfterDeleteShow` | backend/app.py:64-76 | DELETE then GET by the same id answers 404 |
| `Handlers.HandlersKeepUniqueIds` | backend/app.py:64-84 | get, delete and create keep ids unique |

## Left out

- Flask routing, `jsonify`, `request.args` and `request.json`, and `app.run`
  are framework I/O. Handlers take the parsed query value and body as
  parameters.
- `hello_world` and `mirror` are one-line calls of `create_response` with a
  dict payload. They are not modelled separately.
- `update_show` is not modelled. It calls `db.getByID`, which is not one of
  the datastore's operations, and its merge semantics live entirely in the
  datastore.
- The datastore module is not part of this model. `getById`, `deleteById`
  and `create` are given explicit definitions whose contracts are the ones
  stated above. Id assignment as "one more than the largest id, at least 1"
  is a choice of this model; only its freshness is relied on. `get` is the
  store value itself.
- `int(id)` on a non-numeric `id` raises an unhandled exception; the id
  arrives already parsed as an integer. The parsing of `minEpisodes` itself
  is not modelled either: its outcome (the number, or the `ValueError` that
  `int` raises) is a parameter, and the model does capture when that
  outcome is met, inside the comprehension after each record's
  `episodes_seen` lookup.
- JSON floating-point numbers are not represented. Neither are ids that
  compare equal across Python types (`True == 1`). Ids are integers.
- `PyJson.Attributes` lists the public attributes of Python's built-in
  types. Names starting with an underscore are left out; none is relevant.
- `ShowFilter.EpisodesSeen`: the text of the `TypeError` message is
  approximated; only the error kind is relied on.
- `vue-frontend/src/router/index.js` is declarative route configuration with
  no logic.

## Findings

| source | as written | input that shows it | evidently intended | confidence | as-written member | corrected member |
|---|---|---|---|---|---|---|
| backend/app.py:82 | `hasattr(data, 'name')==False or hasattr(data, 'episodes_seen')==FALSE` tests attributes, not keys. No JSON value has an attribute `name`, so every body is refused with 422. The undefined name `FALSE` is never reached. | body `{"name": "Friends", "episodes_seen": 3}` | refuse with 422 only when the body lacks `name` or `episodes_seen`; otherwise create the record | high (not executed) | `Handlers.CreateNewShowAsWritten`, with `Handlers.AsWrittenRejectsEveryBody` and `Handlers.AsWrittenRefusesValidBody` | `Handlers.CreateNewShow`, with `Handlers.GetAfterCreateNewShow` |
