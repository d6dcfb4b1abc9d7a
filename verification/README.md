# ToDoList client cache, routing and request assembly in Dafny

The system is a browser to-do client, a single `ToDoList` controller in
`script.js`. It mirrors a remote REST task list in a local ordered cache
(`_storage`) and talks to `https://todo.hillel.it/todo` with bearer-token requests.
This project models the three pieces of sequential logic under the network and
DOM plumbing. Each is a pure function.

- **Cache transitions** (module `ToDoList`, with `Storage` for the cache itself).
  `add`, `edit`, `complete` and `delete` each become a function
  `Client -> Step`. The server's replies are parameters: `Response<T>` is either
  `Ok(body)` or `NotOk(status)`. A `Step` records four things:
  - the next client;
  - every `fetch` issued, in order, with its URL and request descriptor;
  - the error that was caught and logged: `FalseIndex` for `'False index'`, or
    `Status(code)` for a reply that was not ok;
  - the task that `add` resolves to.

  `_findIndex` is `Storage.FindIndex`. The effects of `push`, index assignment
  and `splice` are stated against reference predicates:
  - `Appended`
  - `ReplacedAt`: exactly one slot changes
  - `RemovedAt`: one slot goes and the rest keep their order

  `CacheLaws` holds the laws that range over every operation (`Op`, `Run`, `RunAll`).
- **URL selection in `_getJSON`** (module `Routing`). `Url` gives one of three
  URLs: the base, `base/{id}`, or `base/{id}/toggle`. `Route` is its inverse.
  It is proved a two-sided inverse for ids that fit in one path segment.
- **`_createRequest`** (modules `Requests` and `Js`). JavaScript truthiness is
  modelled on a small value type. A header object is an ordered list of
  properties with distinct keys, kept in creation order. Object spread is modelled as assigning each
  property in turn: an existing key keeps its position and a new key goes last.

Every request descriptor's headers start from `content-type: application/json`.
A caller header with the same key replaces that value. With no caller headers,
`content-type` is the only header.

## Model

| member | source | states |
|---|---|---|
| Storage.FindIndex | script.js:180-182 | The result is the first index whose task has the given `_id`. It is -1 exactly when no cached task has that id. |
| Storage.Push | script.js:26 | `push` appends the task. The length grows by one and every earlier entry stays where it was. |
| Storage.Assign | script.js:46 | Index assignment replaces slot `i` only. The length and every other slot are unchanged. |
| Storage.Splice | script.js:82 | `splice(i, 1)` removes exactly slot `i`. Later entries shift down by one in order, and the multiset loses exactly that task. |
| Storage.AppendKeepsUnique | script.js:26 | Appending a task whose id is not yet cached keeps every cached id distinct. |
| Storage.ReplaceKeepsUnique | script.js:46 | Overwriting a slot with a task that has the same id keeps every cached id distinct. |
| Storage.RemoveKeepsUnique | script.js:82 | Splicing one slot out keeps every remaining id distinct. |
| ToDoList.GetTask | script.js:174-178 | `_getTask(id)` issues an authorized GET of `base/{id}` with no body. Edit and Complete state that this call follows an ok change request. |
| ToDoList.Add | script.js:13-32 | One authorized POST goes to the collection URL, with body `{value, priority}`. On an ok reply the returned task is appended and returned. On a non-ok reply the client is unchanged, `Status(code)` is logged and the result is `undefined`. |
| ToDoList.Edit | script.js:34-53 | An absent id logs `'False index'`, issues no request and changes nothing. Otherwise a PUT with the new `{value, priority}` goes to `base/{id}`, then a GET to `base/{id}` only if the PUT was ok. The cache changes only when both replies are ok: then exactly the slot `_findIndex` found is replaced by the fetched task. Any failure logs its status and leaves the client unchanged. |
| ToDoList.Complete | script.js:55-69 | The same as `edit`, except that the PUT goes to `base/{id}/toggle` and has no body. |
| ToDoList.Delete | script.js:71-89 | An absent id logs `'False index'` and issues no request. Otherwise one DELETE goes to `base/{id}`. Only an ok reply removes the found slot, and the other entries keep their order. A non-ok reply leaves the client unchanged. |
| CacheLaws.FailureLeavesClient | script.js:109-114 | For every operation, a logged failure means the client is exactly as it was. That covers a missing id and a non-ok reply at any stage. |
| CacheLaws.MissingIdSendsNothing | script.js:36-49 | `'False index'` is logged if and only if the operation is edit, complete or delete and the id is absent. In that case no request is issued. |
| CacheLaws.UniqueIdsPreserved | script.js:180-182 | Every operation keeps cached ids unique, given unique ids before and a server that keeps ids unique. Such a server creates fresh ids and re-fetches the task asked for. |
| CacheLaws.RunAllKeepsIdsUnique | script.js:13-89 | Id uniqueness survives any sequence of operations run one after another against such a server. |
| CacheLaws.DeleteRemovesId | script.js:81-82 | If ids are unique, a successful delete leaves no task with that id in the cache. |
| CacheLaws.RefreshKeepsIndex | script.js:45-46 | After `edit` or `complete` whose re-fetch returns the same id, `_findIndex` still finds the task at the same slot. |
| CacheLaws.AddToEmptyList | script.js:20-28 | Adding "Buy milk" to an empty cache, with the server returning id "t1", caches exactly that one task and returns it. |
| Routing.Url | script.js:102-107 | The URL always starts with the base, and equals the base exactly when the id is null. `Route` inverts it in both directions (RouteOfUrl, UrlOfRoute). |
| Routing.RouteOfUrl | script.js:102-107 | `Route` reads back the id and toggle flag from the URL `_getJSON` builds, whenever the id is one path segment. A null id gives the base URL, and the toggle flag is then ignored. |
| Routing.UrlOfRoute | script.js:102-107 | Every URL that `Route` accepts is exactly the URL `_getJSON` builds for that id and flag. |
| Routing.UrlOfItemRoute | script.js:105-107 | A path after `base/` that `Route` accepts is exactly what `_getJSON` appends for that id, with or without `/toggle`. |
| Routing.SlashInIdCollides | script.js:105-107 | An id containing `/toggle` is ambiguous: editing task `a/toggle` and toggling task `a` fetch the same URL. |
| Requests.CreateRequest | script.js:118-152 | The HTTP method is kept and `content-type` is always the first header created. Caller headers win on a key clash. Without a clashing caller header, `content-type` is `application/json`. No other header appears. A body is present exactly when `data` is truthy, and it is `data`. |
| Requests.BranchesAgree | script.js:118-152 | The four branches are one rule: spread the caller's headers, or nothing, over the JSON content type, and attach the data exactly when it is truthy. |
| Js.Truthy | script.js:119-134 | The `!data` and `!headers` tests: a value is falsy exactly when it is undefined, null, false, 0 or the empty string. |
| Js.Put | script.js:131 | Assigning a property sets that key and leaves every other key's value alone. An existing key keeps its place; a new key is created last. |
| Js.Spread | script.js:147 | `{...h, ...extra}` gives each key `extra`'s value when `extra` has the key and `h`'s value otherwise. `h`'s keys keep their places in creation order. |

## Left out

- `fetch`, `response.json()` and `JSON.stringify` are foreign calls. A reply is only ok or not ok with a status. A body that fails to parse is not modelled. A request body is the data value, not its JSON text.
- `_init`, `_getToken` and `_getList` (script.js:91-99, 154-172) are network bootstrap. The model starts from an initialised `Client` whose authorization header object is given. The state where `_storage` is still unset (the guard at script.js:260) is not modelled.
- DOM construction and the event handlers (script.js:184-268) are UI. That includes the `+note.id` coercion at script.js:210, 218 and 223. Ids are modelled as strings compared by equality. Under `===`, a number never equals a string id, so as written every UI-initiated edit, complete or delete would miss the cache and log `'False index'`. This is UI glue and is not modelled.
- Async interleaving is not modelled. Operations run one at a time to completion. In the source, `edit`, `complete` and `delete` compute the index before awaiting, so an overlapping `delete` can make that index stale. This is concurrency that the source does not coordinate.
- The server's toggle semantics are not modelled. The fetched task is whatever the server returns.
- `console.error` logging is recorded as the `logged` field. The text of the message is not modelled.
- Js.Put: positions are creation order. JavaScript enumerates array-index keys such as "0" first, in numeric order, and then the other keys in creation order. That reordering is not modelled, so "a new key is created last" is not a claim about enumeration order for such keys.
- Js.Spread: "`h`'s keys keep their places" is about creation order. An array-index key in `extra` would be enumerated before them, and that is not modelled.
- Requests.CreateRequest: "`content-type` is the first header" is about creation order. A caller header with an array-index key would be enumerated first. The headers this client passes (`Authorization`) are never array indexes.
- Js.Truthy: JavaScript numbers are modelled as integers, so `NaN` and `-0` (both falsy) are not represented.
- Routing.Url: `toggle === false` is modelled as a boolean flag. Every caller passes `true` or the default `false`.
