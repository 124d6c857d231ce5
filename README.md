# godad: fresh-joke acquisition, in Dafny

godad is a command-line tool that prints one dad joke per run. It fetches the
joke from the icanhazdadjoke API and remembers every joke it has printed in a
SQLite table `jokes` (`id`, `joke`, `created_at`). It tries not to print the
same joke twice:

- `getFreshJoke` asks the API for a joke up to five times.
- It stores and returns the first joke whose text is not yet in the table.
- When no new joke can be had, `main` falls back to a random stored joke.
- When there is no stored joke to fall back on, the run is fatal.

`godad.dfy` models that core in one module, `Godad`:

- `JokeApi` is the joke API. It holds a script of replies and a counter
  `served` of requests made. The n-th request gets the n-th reply of the
  script. Each reply is `Fetched(text)` or `FetchFailed(cause)`. The causes
  are the four error returns of `getJoke`.
- `JokeStore` is the `jokes` table. It holds the stored texts in id order,
  a counter `statements` of SQL statements issued, and the set `faults` of
  statement numbers the driver fails. Its methods are the three queries of
  main.go: COUNT(*) of exact matches, INSERT, and the random pick.
- `TryReply` (one attempt), `Attempts` (the retry loop with `left` attempts to
  go) and `FreshRun` (one call) are the specification functions. A call's
  effect is a `Run`: the outcome, the table afterwards, and both counters.
- `TryOnce` and `GetFreshJoke` are the loop body and the loop as imperative
  methods. They are proved equal to `TryReply` and `FreshRun`.
- `TellJoke` is the fresh-or-fallback decision of `main`.
- The lemmas prove the properties of the loop: how many replies a call
  consumes, when the table grows and by what, that no duplicate is ever
  stored, and which error ends a call.

main.go has one table with columns `id`, `joke`, `created_at`, one JSON
source, and no check on the joke text, so an empty text is a valid joke here.

## Model

| member | source | states |
|---|---|---|
| `Godad.JokeApi.constructor` | main_test.go:49-63 | a new endpoint serves its script from the first reply on |
| `Godad.JokeApi.GetJoke` | main.go:162-202 | one request consumes exactly the next reply and yields it: the joke text or the failure |
| `Godad.JokeStore.constructor` | main.go:65-73 | opening the database yields the table with exactly the jokes stored by earlier runs (none on the first run) and no statement issued yet |
| `Godad.JokeStore.CountMatches` | main.go:138-142 | the lookup returns the number of rows whose text equals the argument exactly, or a driver error; the table is unchanged |
| `Godad.JokeStore.Insert` | main.go:146-149 | the insert appends exactly the text as the newest row, or fails on a driver error and changes nothing |
| `Godad.JokeStore.RandomJoke` | main.go:205-211 | the random pick returns some stored joke; it fails with no rows exactly when the table is empty, or on a driver error |
| `Godad.TryOnce` | main.go:132-154 | one attempt is fetch, then lookup, then insert when the count is zero; a duplicate leaves the table unchanged after one statement; otherwise the call settles |
| `Godad.GetFreshJoke` | main.go:129-159 | result and new state equal `FreshRun`; 1 to 5 replies are consumed; on success the text was not stored and is appended; on any error the table is unchanged; a table without duplicates stays so |
| `Godad.TellJoke` | main.go:76-86 | the printed joke is the fresh one, or else a joke stored before the run; the run is fatal exactly when the fresh call failed and the table was empty or the fallback query failed, and then it reports the fresh call's error and no rows or the driver fault |
| `Godad.AttemptsConsume` | main.go:130-158 | with `left` attempts, a call consumes at most `left` replies, at least one when `left` is positive, and at most two statements per reply; "no new joke after 5 attempts" comes only after all `left` replies |
| `Godad.FreshOutcome` | main.go:131-158 | success returns the text of the last reply consumed, which was not stored, and appends it; any error leaves the table unchanged; an API error is the last reply consumed; a lookup or insert error is a failed last statement; every earlier reply, and on exhaustion every reply, was an already stored text |
| `Godad.DuplicateMovesOn` | main.go:139-155 | an attempt whose text is stored (count not zero) changes nothing and moves on to the next reply with one attempt fewer |
| `Godad.FreshRunEffect` | main.go:129-159 | one call consumes 1 to 5 replies; it appends exactly the new text on success, leaves the table unchanged on failure, and keeps the table free of duplicates |
| `Godad.KeepsNoDuplicates` | main.go:139-150 | if no text is stored twice before a call, none is after it, whatever the outcome |
| `Godad.StoredRepliesExhaust` | main.go:153-158 | when all the next replies are stored texts and the driver does not fail, the call fails with "no new joke after 5 attempts" after consuming exactly those replies; the table is unchanged |
| `Godad.ApiErrorStops` | main.go:132-135 | an API error on any attempt ends the call at once with that error; the table is unchanged and no later reply is consumed |
| `Godad.StoreErrorStops` | main.go:138-150 | a failed lookup, or a failed insert of a new text, on any attempt ends the call at once with the lookup or insert error; the table is unchanged and no later reply is consumed |
| `Godad.SameTextTwice` | main.go:129-159 | with an API that always answers the same text, the first call stores and returns it; the second consumes 5 replies and fails with "no new joke after 5 attempts" |
| `Godad.MockServerScenario` | main_test.go:39-110 | replies first, second, first, third against an empty table: three calls return first, second, third, and the table ends as exactly [first, second, third] |

## Left out

- HTTP request construction, the headers, the 10-second timeout and reading the body in `getJoke` (main.go:162-193) are network I/O. Each reply is given as a `Fetch` in the API's script.
- JSON decoding (main.go:195-201) is a library call. A reply that decodes yields its `joke` field whatever `id` and `status` say. One that does not decode is `FetchFailed(JsonFailed)`.
- The API's script is finite and served once. Requests past its end fail as if no server answered (`SendFailed`). The mock server of the tests (main_test.go:49-57) wraps around to its first reply instead, and the real API answers indefinitely; a script longer than any run covers both.
- Driver failures of the SQLite statements are given by the set of failing statement numbers. Nothing says why a statement fails.
- `RandomJoke` returns any stored joke. The uniform distribution of `ORDER BY RANDOM()` is not modelled.
- The `id` and `created_at` columns are not stored. A text's id is its position in the table plus one.
- Godad.JokeStore.constructor: stands for opening `~/.godad/jokes.db` and `CREATE TABLE IF NOT EXISTS` (main.go:57-73). The file persists across runs, so the rows earlier runs stored are passed in as `jokes`. The file itself, its path and closing it are not modelled.
- The `apiURL` variable, its read/write lock and `setAPIURL` (main.go:24-28, 168-170, 214-219) guard the endpoint for tests. The endpoint is passed in explicitly as a `JokeApi`.
- `initConfig`, the configuration and flag handling, the home-directory lookup, directory creation and all logging (main.go:39-63, 92-126) are CLI plumbing.
- Printing the joke and the process exit status are not modelled. `TellJoke` returns what would be printed, or the fatal errors.
- The error values carry their kind, not their message text. `NoNewJoke(5)` stands for "could not find a new joke after 5 attempts".
- The lookup and the insert are separate statements with no transaction. A concurrent writer between them could store a duplicate. The model is single-threaded.
