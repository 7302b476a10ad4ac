# Seed pipeline of the server registry, in Dafny

This project models the two policy cores of the registry's seed pipeline and
proves properties of them.

- **Seed export** (`SeedHandler` in `internal/api/handlers/v0/seed.go`, module
  `SeedExport` in `seed_export.dfy`). This is the GET endpoint that produces a
  seed snapshot. It refuses any other method with 405 and `Allow: GET`. It lists
  the registry once, with cursor `""` and limit 10000. It then looks up each
  listed server's detail by ID. Each slot of a preallocated array gets the
  detail, or the bare listed server when the lookup fails. Finally it sets the
  JSON and CORS headers and encodes the array. A failed listing or a failed
  encode gives 500.
- **Seed reader** (`ReadSeedFile` and `readFromHTTP` in
  `internal/database/import.go`, module `SeedReader` in `seed_reader.dfy`).
  An empty path defaults to `data/seed.json`, and it is an error when that
  file does not exist. A path starting with `http://` or `https://` is fetched
  over HTTP, and only status 200 is accepted. Any other path is read from disk.
  The bytes are decoded as an array of server details. When that decode fails,
  a second, untyped decode runs; only its success or failure matters.
- `model.dfy` (module `Model`) holds the value records: `Server` (ID, Name),
  `ServerDetail` (a server and its Packages), `Package`, and the `Option` and
  `Result` wrappers.

Every external effect is an oracle passed in as a value:
- The registry is a `Registry` with a `list` function from cursor and limit to
  a `ListResult`, and a `getById` function from ID to `Option<ServerDetail>`.
- The encoder's outcome is the boolean `encodeOk`.
- For the reader, `os.Stat`, `os.ReadFile`, the HTTP client and the two
  `json.Unmarshal` calls are the functions of an `Environment`.

Both components also return the calls or effects they perform, in order: the
registry calls of the handler, and the stat, fetch, read and decode steps of
the reader. This is what lets the model state which operations happen, in
what order, and where each path stops.

How the model is built:
- The handler's loop is `CollectDetails`. It fills an `array<Entry>` by index
  and moves on to the next server (`continue`) when a lookup fails. `Unset`
  stands for the nil a new slot holds. The method proves that no slot is left
  nil.
- The response writer is the class `ResponseRecorder`, whose status, headers
  and body the handler changes. `SeedHandler` is proved to leave the writer and
  the call list exactly as the pure function `Respond` describes. The lemmas
  about `Respond` carry the properties.
- In the same way, `ReadSeedFile` is an imperative method proved equal to the
  pure `Load`, and the lemmas about `Load` carry the reader's properties.

Three behaviours of the code that are easy to misread, modelled as the code
has them:
- `readFromHTTP` accepts exactly status 200, not every 2xx status
  (`import.go:75`).
- When the typed decode fails but the untyped one succeeds, `ReadSeedFile`
  returns whatever the failed typed decode had already put into `servers`.
  Go's decoder keeps going after a type mismatch, so this can be a non-empty
  list of partly filled records, not only an empty one. `TypedFailed(partial)`
  carries it.
- Only a "does not exist" error from `os.Stat` stops the default path. Any other
  stat error goes on to the read (`import.go:26`), which is `StatFailed` in the
  model.

## Model

| member | source | states |
|---|---|---|
| `SeedExport.CollectDetails` | internal/api/handlers/v0/seed.go:32-43 | one slot and one `GetByID(servers[i].ID)` call per listed server, in listing order; slot i is the detail when that lookup succeeds and exactly `servers[i]` when it fails; no slot is left nil |
| `SeedExport.SeedHandler` | internal/api/handlers/v0/seed.go:13-58 | the writer's final status, headers and body, and the registry calls made, are exactly those of `Respond` for the request method, registry and encode outcome |
| `SeedExport.ResponseRecorder.constructor` | internal/api/handlers/v0/seed_test.go:79 | a new recorder has status 200, no headers and nothing written |
| `SeedExport.ResponseRecorder.SetHeader` | internal/api/handlers/v0/seed.go:46-49 | sets one header and changes nothing else |
| `SeedExport.ResponseRecorder.Error` | internal/api/handlers/v0/seed.go:18 | `http.Error`: status, plain-text content type, no-sniff header, message plus newline; other headers kept |
| `SeedExport.ResponseRecorder.WriteJson` | internal/api/handlers/v0/seed.go:52 | a successful encode commits status 200 and writes the array; headers unchanged |
| `SeedExport.NonGetIsRefused` | internal/api/handlers/v0/seed.go:16-20 | any method other than GET gives 405, `Allow: GET`, the "Method not allowed" text, and no registry call, whatever the registry holds |
| `SeedExport.GetListsOnceFirst` | internal/api/handlers/v0/seed.go:23 | a GET calls `List` exactly once, first, with cursor "" and limit 10000; every later call is a `GetByID` |
| `SeedExport.ListFailureIsFatal` | internal/api/handlers/v0/seed.go:23-28 | a failed listing gives 500, no `GetByID` call and no JSON array |
| `SeedExport.LookupsFollowListing` | internal/api/handlers/v0/seed.go:33-35 | after a listing of n servers there are exactly n lookups, the i-th for `servers[i].ID` |
| `SeedExport.ExportFollowsListing` | internal/api/handlers/v0/seed.go:32-43 | a successful listing and encode give status 200, whatever the lookups return, and an array as long as the listing whose entry i is the detail or exactly `servers[i]` |
| `SeedExport.EntryDependsOnlyOnItsLookup` | internal/api/handlers/v0/seed.go:36-42 | failure isolation: entry j depends only on server j's lookup; other lookups failing or differing change neither it nor the status |
| `SeedExport.SuccessHeaders` | internal/api/handlers/v0/seed.go:46-49 | a success sets Content-Type application/json and the three CORS headers (`*`, `GET`, `Content-Type`) and keeps all other headers |
| `SeedExport.EncodeFailureIsFatal` | internal/api/handlers/v0/seed.go:52-56 | a failed encode gives 500 and no JSON array, after all lookups ran |
| `SeedExport.NextCursorIgnored` | internal/api/handlers/v0/seed.go:23 | the next cursor returned by `List` has no effect on the response or the calls |
| `SeedExport.SuccessfulExportScenario` | internal/api/handlers/v0/seed_test.go:38-93 | the test's single server with a one-package detail is exported as one entry named "test-server-1" with one package, status 200, JSON content type, after exactly the expected two calls |
| `SeedReader.ReadSeedFile` | internal/database/import.go:19-61 | the result and the effects performed are exactly those of `Load` for the path and environment |
| `SeedReader.ReadFromHttp` | internal/database/import.go:64-86 | the fetch succeeds if and only if the request got a response with status exactly 200 whose body could be read, and then the result is that body; any other status is `BadStatus` with that status; a transport error is `Unreachable` |
| `SeedReader.UrlIffScheme` | internal/database/import.go:35 | a path counts as a URL if and only if it is "http://" or "https://" followed by something |
| `SeedReader.DefaultPathIsLocal` | internal/database/import.go:25 | the default `data/seed.json` is not a URL |
| `SeedReader.MissingDefaultFailsFirst` | internal/database/import.go:23-28 | an empty path whose default file does not exist fails with NotFound("data/seed.json") after the existence check only, with no read, fetch or decode |
| `SeedReader.EmptyPathReadsDefaultFile` | internal/database/import.go:23-47 | an empty path is checked and then read from the local file system as "data/seed.json", unless the stat says it does not exist |
| `SeedReader.GivenPathUsedUnchanged` | internal/database/import.go:23 | a non-empty path is fetched or read as given and is never checked for existence |
| `SeedReader.FetchIffUrl` | internal/database/import.go:35-47 | the resolved path is fetched if and only if it is a URL, and read from disk if and only if it is not; nothing else is fetched or read |
| `SeedReader.RetrievalFailureSkipsDecode` | internal/database/import.go:37-46 | a failed fetch or read is an error carrying its cause, with no servers and no decode attempted |
| `SeedReader.NonOkStatusFails` | internal/database/import.go:75-77 | an HTTP status other than exactly 200 is a fetch error naming that status |
| `SeedReader.TypedDecodeIsResult` | internal/database/import.go:50-60 | when the typed decode succeeds, the result is exactly its sequence with no error, and the fallback decode does not run |
| `SeedReader.BothDecodesFail` | internal/database/import.go:51-56 | when both decodes fail the read fails with a parse error |
| `SeedReader.FallbackSuccessHidesFailure` | internal/database/import.go:51-57 | when the typed decode fails and the fallback succeeds, the outcome is `FallbackParsed`: the caller gets no error and only what the failed typed decode left behind |
| `SeedReader.FallbackRecordsUnused` | internal/database/import.go:52-57 | the records the fallback decode parses never reach the caller: replacing them changes neither the observed result nor the effects |
| `SeedReader.FallbackLosesRecords` | internal/database/import.go:50-60 | concrete case of the defect: one object with a mistyped name yields one empty detail and no error |
| `SeedReader.StrictDecodeSeed` | internal/database/import.go:50-57 | corrected decode policy: no error if and only if the typed decode succeeded, and then exactly its servers; a parsable but mistyped array is reported with its record count |
| `SeedReader.StrictPolicyReportsRecords` | internal/database/import.go:51-57 | under the corrected policy the same input is an error naming one unmatched record |
| `SeedReader.NotFoundStatusScenario` | internal/database/import.go:35-40 | an https seed location answering 404 fails with a fetch error carrying status 404 and returns no servers |

## Findings

| source | as written | input that shows it | evidently intended | confidence | as-written member | corrected member |
|---|---|---|---|---|---|---|
| internal/database/import.go:51-57 | when the typed decode fails and the untyped one succeeds, the error is dropped and the partly filled `servers` comes back with a nil error, while the parsed `rawData` is thrown away | a JSON array holding one object whose name is a number: the typed decode fails after allocating one record, the untyped decode succeeds, and the caller gets one empty detail and no error | a failed typed decode is always an error; the untyped decode only makes the message more specific | high (not executed) | `SeedReader.FallbackLosesRecords` | `SeedReader.StrictDecodeSeed` |

The reader itself (`ReadSeedFile`, `Load`) keeps the behaviour as written,
because that is what callers of this code get today. The defect is made
explicit as its own `FallbackParsed` outcome rather than being folded into
success. `StrictDecodeSeed` is the corrected policy. Its contract proves the
intended property: a read reports no error only when the typed decode
succeeded.

## Left out

- Logging (`log.Printf`): it has no observable effect on results.
- The real HTTP client (the 30-second timeout, redirects, `resp.Body.Close`) is
  replaced by an oracle result: `Fetched(status, body)` or `RequestFailed`.
  `io.ReadAll` is the body's `ReadResult`. `os.Stat` and `os.ReadFile` are
  oracles too.
- JSON decoding and encoding are abstract outcomes. The typed decode gives the
  servers, or a failure with the partial data. The untyped decode gives records
  or a failure. The encoder is the boolean `encodeOk`. So the JSON shape is not
  modelled, and neither is an encode-then-decode round trip.
- Untyped records (`map[string]any`) are modelled as `map<string, string>`.
  Only their presence matters, because the code never reads them.
- Go strings are byte strings. Paths, IDs and header values are modelled as
  `seq<char>`.
- `filepath.Join` is taken with the Unix separator (`data/seed.json`).
- Only the ID, Name and Packages fields of the records are kept. Description,
  Repository and VersionDetail are never inspected by this code.
- A `GetByID` that returns a nil detail together with a nil error is not
  modelled. The lookup is an `Option`, and None is the error case.
- `SeedExport.SeedHandler`: requires that nothing has been written to the
  writer yet, which net/http guarantees when it calls a handler. An encode that
  fails after part of the body was already sent is not modelled. The encode
  either fully succeeds or fails before writing anything.
- `Publish` and the storage behind `RegistryService` are not called by this
  code.
- Concurrency is not modelled; the handler is sequential. CORS behaviour is
  covered only as the literal header values.
- Duplicate IDs are not removed by either component, so the model does not
  prove that exported IDs are unique.
