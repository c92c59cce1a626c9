# Pinned-repositories worker, modelled in Dafny

The worker answers `GET /get?u=<username>` (or `?user=<username>`). It fetches
the user's profile page and reads the names of the pinned repositories from
it. It then fetches the user's repository listing from the API and keeps the
records whose name is pinned. Each kept record is flattened into a
`ProjectData` and the array is returned as JSON.

The model has three modules:

- `Wrappers` — `Option`, which stands for a value that may be `null`.
- `PinnedRepos` (`pinned_repos.dfy`) — the upstream record `GithubRepo`,
  the output record `ProjectData`, and the filter-and-project step of
  `fetchPinnedReposFromAPI`. `Select` is the specification function. The
  method `FetchPinnedRepos` keeps the source's `for … of` loop with
  `continue` and `push`, and is proved equal to `Select`. Lemmas about
  `Select` prove the properties of that step.
- `Handler` (`handler.dfy`) — `fetchHTML`, the text-mapping half of
  `getPinnedRepoNamesFromData`, the username and route check, and the
  exported `fetch` handler. `Fetch` returns the response and the ordered
  pipeline steps it performed, so the model can state which upstream calls
  happen on each path.

Upstream I/O is passed in as parameters:

- Each upstream reply is a `Reply(ok, body)`. `ok` is the response's `ok`
  flag and `body` is the already-decoded text or JSON.
- The handler receives each reply as a function of the username, so the
  username it selected is visibly the one that is fetched.
- The HTML selector query is an abstract function from page text to the
  sequence of matched `Element`s.

What the worker does and does not do:

- The worker makes one unpaginated listing call (src/index.ts:24). There is
  no user-info call and no page-count loop.
- The listing is always fetched, even when no pinned names were found.
- The cache is commented out (src/index.ts:4-15).
- A failed listing request is checked and becomes an `Error` value
  (src/index.ts:30).
- The upstream-failure response "Request error" has the default status 200.
  The validation failure has status 502.

The field names of the upstream record and of `ProjectData` come from their
use in src/index.ts. The `types` module that declares them is not part of
this model.

## Model

| member | source | states |
|---|---|---|
| `PinnedRepos.Project` | src/index.ts:37-48 | each `ProjectData` field is the matching upstream field, unchanged; a `null` description or language is passed through as `None` |
| `PinnedRepos.ProjectFaithful` | src/index.ts:37-48 | two upstream records project to the same `ProjectData` iff they are equal; the name carries over, and a `null` description or language stays `null` |
| `PinnedRepos.Select` | src/index.ts:33-49 | the filtered output is never longer than the listing, and every output record's `repoName` is one of the requested names |
| `PinnedRepos.MatchIndices` | src/index.ts:34-35 | the positions of the records that pass the membership test: ascending, in range, each a match, and every match included |
| `PinnedRepos.SelectAlongMatches` | src/index.ts:33-49 | output element k is the projection of the k-th matching upstream record; the output is the ordered subsequence of matches and no match is dropped |
| `PinnedRepos.SelectAppend` | src/index.ts:34-49 | filtering a concatenated listing gives the concatenation of the filtered parts, so upstream listing order is kept |
| `PinnedRepos.SelectNoPinned` | src/index.ts:33-35 | with no requested names the output is empty |
| `PinnedRepos.SelectMembershipOnly` | src/index.ts:35 | the output depends only on which names are requested, not on their order or repetition, so pinned order is not reflected |
| `PinnedRepos.SelectCount` | src/index.ts:34-48 | a record with a pinned name appears in the output once per upstream occurrence, however often its name is requested; a record with an unpinned name never appears |
| `PinnedRepos.FetchPinnedRepos` | src/index.ts:30-51 | a non-ok listing status yields `Error("Request error")` and never data; otherwise the loop's result equals `Select` of the listing and the requested names |
| `Handler.FetchHtml` | src/index.ts:17-20 | the result is an error exactly when the profile status is not ok; the error is "Request error"; otherwise the result is the page text |
| `Handler.PinnedNames` | src/index.ts:57 | one name per matched element, in the same order, and name i is the text of element i |
| `Handler.PinnedNamesAppend` | src/index.ts:57 | the extractor distributes over concatenation of the matched elements, so document order is kept |
| `Handler.ValidateRequest` | src/index.ts:64-65 | rejected iff the path is not `/get` or neither `u` nor `user` is non-empty; an accepted username is non-empty, equals `u` when `u` is non-empty, and equals `user` otherwise |
| `Handler.ParameterAliases` | src/index.ts:64 | `u` and `user` are aliases, and an empty `u` falls back to `user` |
| `Handler.Fetch` | src/index.ts:61-74 | rejection answers "Incorrect request" with status 502 and contacts nothing. A failed profile fetch answers "Request error" after that one fetch, without running extraction. Otherwise it fetches the profile, extracts the names, always queries the listing, and answers with the enrichment result |

## Left out

- The network calls to github.com and api.github.com, the `User-Agent` header,
  and `response.text()`/`response.json()` decoding. Their results are inputs.
- Thrown failures. A `fetch` that rejects (src/index.ts:17, 24), a
  `response.text()` or `response.json()` that fails (src/index.ts:20, 31), or
  a listing body that is not an array (src/index.ts:34) throws out of the
  handler uncaught, and the runtime answers with its own error. Every reply
  in the model carries a decoded body, so only the routing on the `ok` flag
  is modelled.
- The `node-html-parser` selector query. Its matches are an abstract input;
  only the mapping of each match to its text is modelled.
- `JSON.stringify` and `Response` construction. A response body is either
  text or the value that would be serialised. The serialisation of an `Error`
  object is not modelled.
- The commented-out time-based cache. It is not live code and it depends on
  the wall clock.
- Asynchronous sequencing and the runtime's concurrent requests. Each request
  is modelled as one sequential run.
- The HTTP status code range behind `ok`. It is an abstract boolean.
