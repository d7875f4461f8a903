# Pokedex client core in Dafny

This project models two parts of a Go command-line Pokedex client, which gets its data from a REST API.

- **The response cache** (`internal/pokecache`) maps request URLs to response bodies. Each entry carries the time it was stored. `Add` inserts an entry or replaces it. `Get` is a plain lookup that never looks at age. A background reaper wakes once per interval and deletes every entry older than the interval.
- **The REPL input and the cache-aside fetch** (`main.go`):
  - `cleanInput` lowers a line and splits it into fields.
  - The REPL takes the first field as the command word and the second as its argument.
  - `GetData` answers from the cache on a hit. On a miss it fetches the URL and stores the body only after a successful read of a 200 response.
  - The `map` and `mapb` commands page through location areas by moving `Config.Next` and `Config.Previous`.

Modules:

- `Wrappers` (`wrappers.dfy`): `Option` and `Result`.
- `Pokecache` (`pokecache.dfy`): the `Cache` class, with `cacheData` as a `map<string, Entry>` field. `Add`, `Get` and `Reap` are methods, and `Reap` is one tick of the reaper, written as a loop over the keys. The specification functions are `Lookup` and `Reaped`, and lemmas about them state what the source promises.
- `Input` (`input.dfy`): `Lower`, `Fields`, `CleanInput`, `SplitCommand` and `Interpret`.
  - `Fields` has an independent description: a line is a `Layout` of white-space gaps and words.
  - `FieldsCharacterized` proves that `Fields(s) == words` holds exactly when `s` is a well-separated layout of `words`.
- `Commands` (`commands.dfy`):
  - `GetData` is a method over a `Cache`, proved against the function `GetDataSpec`.
  - The class `Config` holds the two links.
  - `CommandMap` and `CommandMapb` are proved against `MapUrl`, `GetDataSpec` and `Turn`.

Time is an explicit `now: nat`, in the same unit as the cache's interval. The outcome of the HTTP request is an input value (`FetchOutcome`). The JSON decoder is an input function (`decode`).

## Model

| member | source | states |
|---|---|---|
| `Pokecache.Cache.constructor` | internal/pokecache/pokecache.go:51-56 | A new cache has an empty map, so every lookup on it misses. |
| `Pokecache.Cache.Add` | internal/pokecache/pokecache.go:18-24 | The entry for `key` becomes exactly `(now, val)`, whether or not one existed. The value and the time stamp are both replaced, with no merging. The domain gains at most `key`, and every other entry is unchanged. |
| `Pokecache.Cache.Get` | internal/pokecache/pokecache.go:26-35 | Reports a hit exactly when the key is present, with the stored payload. A miss returns an empty payload and `false`. The answer is `Lookup(map, key)`, so the lemmas about `Lookup` apply to it. The age of the entry plays no part, and the cache is not modified. |
| `Pokecache.Cache.Reap` | internal/pokecache/pokecache.go:41-47 | One pass over every key leaves exactly `Reaped(old map, now, interval)`, and every remaining entry is at most `interval` old. |
| `Pokecache.AddThenLookup` | internal/pokecache/pokecache.go:18-35 | After `Add(k, v)` at any time, `Get(k)` answers `(v, true)`. |
| `Pokecache.AddFrame` | internal/pokecache/pokecache.go:20 | The domain after `Add` is the old domain plus the key, so it grows by at most one. Every other key looks up as before. |
| `Pokecache.LookupMiss` | internal/pokecache/pokecache.go:32-33 | An absent key answers an empty payload and `false`. |
| `Pokecache.LookupIgnoresAge` | internal/pokecache/pokecache.go:29-31 | An entry that is expired but still present is a hit with its own payload. |
| `Pokecache.ReapedExactly` | internal/pokecache/pokecache.go:42-46 | A key survives the pass exactly when it was present and `now - createdAt <= interval`. A surviving entry is unchanged. |
| `Pokecache.ReapedKeepsBoundary` | internal/pokecache/pokecache.go:43 | An entry whose age equals the interval survives, because the comparison is strict. |
| `Pokecache.ReapedAllFresh` | internal/pokecache/pokecache.go:42-46 | After a pass no entry is older than the interval, and the domain is a subset of the old domain. |
| `Pokecache.ReapedIdempotent` | internal/pokecache/pokecache.go:42-46 | A second pass at the same `now` changes nothing. |
| `Pokecache.ReapedFreshUnchanged` | internal/pokecache/pokecache.go:42-46 | A pass over a cache whose entries are all fresh removes nothing. |
| `Pokecache.AddKeepsFresh` | internal/pokecache/pokecache.go:18-22 | With a non-negative interval, `Add` at `now` keeps "every entry is fresh at `now`" true. |
| `Pokecache.OverwriteThenExpireScenario` | internal/pokecache/pokecache.go:18-47 | Interval 5. `"u1"` is added at 0 and replaced at 1, and `Get` at time 1 returns the new value. A pass at 4 keeps it. A pass at 7 removes it, and `Get` then misses. |
| `Input.LowerChar` | main.go:102 | Maps a character to one that is not an upper-case ASCII letter. Each capital `A`–`Z` becomes the lower-case letter at the same position of the alphabet. It preserves white space both ways and leaves every other character unchanged. |
| `Input.Lower` | main.go:102 | Lowering keeps the length and maps each character by `LowerChar`, so the result has no upper-case letter. |
| `Input.LeadingWord` | main.go:103 | Gives the length of the longest white-space-free prefix. That prefix has no white space, and the character after it, if any, is white space. |
| `Input.Fields` | main.go:103 | Every field is non-empty and contains no white space. |
| `Input.FieldsOfLayout` | main.go:103 | A line made of white-space gaps around words splits back into exactly those words. The gaps between words must be non-empty; the gaps at the ends may be empty. |
| `Input.LayoutOfFields` | main.go:103 | Every line is the well-separated layout of its own fields, with gaps `Gaps(s)`. |
| `Input.FieldsCharacterized` | main.go:103 | `Fields(s) == words` holds exactly when `s` is a well-separated layout of `words`. |
| `Input.FieldsConcat` | main.go:103 | The fields, joined in order, equal the line with its white space removed. No other character is lost or reordered. |
| `Input.FieldsEmptyIff` | main.go:103 | There are no fields exactly when the line is empty or all white space. |
| `Input.FieldsNoUpper` | main.go:102-103 | Fields of a text without upper-case letters have none either. |
| `Input.CleanInput` | main.go:101-105 | `cleanInput` lowers the line and then splits it into fields. Every token is a non-empty word without white space or upper-case letters. |
| `Input.CleanInputTokens` | main.go:101-105 | Every token of `cleanInput` is non-empty, free of white space and lower case. |
| `Input.CleanInputKeepsOrder` | main.go:101-105 | The tokens, joined in order, equal the lowered line without its white space. |
| `Input.CleanInputEmptyIff` | main.go:101-105 | `cleanInput` is empty exactly for an empty or all-white-space line. |
| `Input.CleanInputSpacedWords` | repl_test.go:13-14 | `"  hello  world  "` gives `["hello", "world"]`. |
| `Input.CleanInputLowersWords` | repl_test.go:17-18 | `" HELLO WORLD THIS IS CHARMander "` gives the five lower-case words. |
| `Input.CleanInputLeadingSpaces` | repl_test.go:21-22 | Forty spaces followed by `"hi"` give `["hi"]`. |
| `Input.CleanInputEmptyLine` | repl_test.go:25-26 | `""` gives no tokens. |
| `Input.CleanInputTab` | repl_test.go:29-30 | `"hello\tworld"` gives `["hello", "world"]`. |
| `Input.CleanInputNewline` | repl_test.go:33-34 | `"foo\nbar"` gives `["foo", "bar"]`. |
| `Input.CleanInputSpacedThree` | repl_test.go:37-38 | `"   one\t two\nthree   "` gives `["one", "two", "three"]`. |
| `Input.CleanInputMixedSpace` | repl_test.go:45-46 | Tabs, a newline and double spaces between three words give those three words in order. |
| `Input.CleanInputSurroundingSpace` | repl_test.go:41-42 | Mixed white space around one word gives that word. |
| `Input.SplitCommand` | main.go:317-327 | There is no request exactly when there are no tokens. Otherwise the command is the first token, and the argument is the second token, or `""` when there is only one. |
| `Input.Interpret` | main.go:317-332 | A line is rejected exactly when `cleanInput` gives no tokens. Otherwise the command is the first token. It is invoked exactly when that token is a key of the command table, with the second token or `""` as argument; any other first token is an unknown command. |
| `Input.SplitIgnoresExtra` | main.go:323-327 | With two or more tokens, the request is the first token with the second as argument. Tokens after the second do not matter. |
| `Input.SplitSingle` | main.go:323-327 | A single token is a command with the argument `""`. |
| `Input.InterpretRejectsBlank` | main.go:317-322 | A line is rejected without dispatch exactly when it is empty or all white space. Otherwise the command is its first token. |
| `Input.InterpretInvokes` | main.go:323-330 | A dispatched command is a key of the command table. Its argument is `""` or a lower-case field. |
| `Commands.GetData` | main.go:171-193 | Returns `GetDataSpec(old map, url, fetch, now)`, and the cache's new map is the one it gives. |
| `Commands.GetDataHit` | main.go:172-175 | On a hit the cached bytes are returned, whatever the network outcome, and the cache is unchanged. |
| `Commands.GetDataMiss` | main.go:177-191 | On a miss the call succeeds exactly when a 200 response was read, and it then returns that body. |
| `Commands.GetDataThenGet` | main.go:190-191 | After a successful call, a later `Get(url)` returns the same bytes. |
| `Commands.GetDataFrame` | main.go:177-189 | A failed call leaves the cache unchanged, and no key other than the URL ever changes. |
| `Commands.CacheHitScenario` | cachemain_test.go:11-23 | The bytes of `{"field":"value"}`, added under the test URL, are returned by `GetData` even when the network would fail. |
| `Commands.Config.constructor` | main.go:257 | A new `Config` has empty `Next` and `Previous`. |
| `Commands.MapUrl` | main.go:122-127 | `map` requests the fixed first-page URL while `Next` is empty, and `Next` otherwise. |
| `Commands.Turn` | main.go:132-141 | A `GetData` error is returned with the links unchanged. A body that does not decode gives a decode error with the links unchanged. A decoded page lists its names, and the links become the page's `Next` and `Previous`. |
| `Commands.TurnLinks` | main.go:128-142 | A page is listed exactly when the fetch succeeded and the body decoded. Only then do the links change, and they become that page's links. |
| `Commands.CommandMap` | main.go:121-143 | Fetches `MapUrl(old Next)` through the cache. It lists the decoded page and adopts its links, or returns the error with the links unchanged. |
| `Commands.CommandMapb` | main.go:145-169 | With an empty `Previous` it reports the first page, and the links and the cache are unchanged. Otherwise it behaves like `map` on `Previous`. |
| `Commands.PagingScenario` | main.go:121-169 | On a fresh session `map` lists the first page and moves `Next` on. `mapb` then stays on the first page. |

## Left out

- The goroutine, `time.Ticker` and `sync.Mutex` are not modelled. One call of `Reap` is one tick of the reaper at one instant `now`; each `Get` and `Add` is atomic.
- The Go loop calls `time.Since` once per entry, so the clock advances slightly during a scan. The model evaluates the whole pass at a single `now`.
- `time.NewTicker` panics for a non-positive interval, so in Go `NewCache` with such an interval crashes the program from the reaper goroutine (internal/pokecache/pokecache.go:38, 54). The time package is not part of this model, and the model accepts any integer interval. Lemmas such as `Pokecache.AddKeepsFresh` therefore also cover an interval of 0, which the program never reaches.
- The cache keeps its interval as a field, although Go only passes it to `reapLoop`.
- `time.Now` and `time.Since` are replaced by the `now: nat` argument.
- Byte slices are values. Go's `Get` returns the stored slice itself, so a caller that mutates it would change the cache. The model does not capture this aliasing.
- `http.Get`, closing the body and `io.ReadAll` are not modelled. Their outcome is the input `FetchOutcome`. The text of the status error is not modelled: the error carries only the status code.
- `json.Unmarshal` is not modelled. It is the input function `decode` from bytes to an optional `LocationPage`.
- Output is not modelled: every `fmt.Print*`, including "Cache used!", the first-page notice and the listed names. The names are returned instead of printed.
- `Input.Lower` lowers only ASCII `A`–`Z`; `strings.ToLower` applies full Unicode case mapping. Strings in the model are sequences of characters, while Go strings are bytes. On non-ASCII input Go's `strings.ToLower` goes through `strings.Map`, which replaces each invalid UTF-8 byte with U+FFFD; the model cannot represent such input.
- `Input.Fields` separates fields only on the six ASCII white-space characters. Go also treats U+0085, U+00A0 and the other Unicode spaces as separators.
- These commands are outside the modelled core: `commandExit` (it calls `os.Exit`), `commandHelp`, `commandExplore`, `commandInspect` and `commandPokedex`. So is `commandCatch`, which uses floating point and `math/rand`.
- The `bufio.Scanner` loop of `main` is not modelled, and neither is the error a command callback returns (the REPL discards it).
- The live-network half of the `GetData` test (cachemain_test.go:26-33) is not modelled.
- The bounded-staleness guarantee "at most one interval past expiry" is a property of the ticker's timing. The model states only what each pass leaves behind.
