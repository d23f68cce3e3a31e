# Positional-argument check of ops_configurator

The configurator is started as `bun index.ts <config.json>`. Its entry point
hands the process's positional arguments to `readPositionalFile`. In that
list the first two entries are the runtime's name and the script's name, the
third is the path of the configuration file, and any further entries are
extras. The function looks only at the length of the list and at its third
entry, and returns a record `{ success, message?, positional? }`:

- fewer than two entries: failure, "This should not happen";
- exactly two: failure, "No configuration file provided";
- exactly three: success with the path;
- more than three: success with the path and the warning "Additional arguments will be ignored.".

This project models that function and the exported message constants in
Dafny. `positional.dfy` holds the model (module `Positional`) and its
properties. `positional_tests.dfy` restates the unit tests as lemmas
(module `PositionalTests`). `wrappers.dfy` holds the `Option` type that
stands for TypeScript's optional fields.

The model's main guarantees:

- the function's own contract states that the result is well formed, that it succeeds exactly when a third entry exists, and that the path is that entry;
- `Argv` is a right inverse: for every well-formed record it builds an argument list that produces that record (the unit tests' argument shapes, or `["bun"]` for the "This should not happen" record);
- `ImageIsWellFormed` uses `Argv` to show that the well-formed records are exactly the records the function can return;
- four lemmas describe each outcome by the shape of argv: fewer than two entries, exactly a runtime and a script, a path after them, extras after the path;
- `OnlyLengthAndThirdMatter` shows that only the length class and the third entry are ever read.

## Model

| member | source | states |
|---|---|---|
| Positional.ReadPositionalFile | index.ts:20-43 | the result is well formed; success iff there are at least 3 entries; a present path is always entry 2; a success carries a message iff there are more than 3 entries; a failure says "no configuration file" iff there are exactly 2 |
| Positional.FewerThanTwo | index.ts:25-28 | with fewer than 2 entries: not successful, message "This should not happen", no path |
| Positional.ExactlyTwo | index.ts:30-32 | with exactly 2 entries: not successful, message NoConfigFileProvidedMsg, no path |
| Positional.ExactlyThree | index.ts:42 | with exactly 3 entries: successful, path is entry 2, no message |
| Positional.MoreThanThree | index.ts:34-40 | with more than 3 entries: successful, path is entry 2, message AdditionalArgsMsg; replacing everything after index 2 changes nothing unless no extras remain |
| Positional.OnlyLengthAndThirdMatter | index.ts:25-42 | two lists of the same length, or both longer than 3, with the same third entry (when they have one) produce the same record: the runtime and script entries and the extras are never read |
| Positional.MessagesDistinct | index.ts:16-18 | the three exported messages and the inline "should not happen" message are pairwise distinct |
| Positional.MessageDeterminesOutcome | index.ts:25-42 | two argument lists with equal messages have the same success flag and fall into the same length class |
| Positional.Argv | index.ts:20-43 | for every well-formed result it builds an argument list (the unit tests' lists, or `["bun"]` for the "should not happen" case) that yields exactly that result |
| Positional.ImageIsWellFormed | index.ts:25-42 | a record is returned for some argument list iff it is well formed: path present iff success, failures carry one of the two failure messages, successes carry nothing or the extras warning |
| Positional.ShouldNotHappenIff | index.ts:25-28 | the "This should not happen" message appears iff the list has fewer than 2 entries |
| Positional.NoConfigFileIff | index.ts:30-32 | the "no configuration file" message appears iff the list is exactly a runtime and a script name |
| Positional.ConfigPathIsThirdEntry | index.ts:34-42 | the path reported is `path` iff the list is runtime, script, `path`, then any extras |
| Positional.ExtrasWarningIff | index.ts:34-40 | the extras warning appears iff at least one entry follows runtime, script and path |
| PositionalTests.NoPositionalArgProvided | tests/index.test.ts:11-15 | `["bun", "index.ts"]` fails with NoConfigFileProvidedMsg |
| PositionalTests.TooManyPositionalArgsProvided | tests/index.test.ts:17-22 | `["bun", "index.ts", "config.json", "extra"]` succeeds with path "config.json" and AdditionalArgsMsg |
| PositionalTests.PositionalArgProvided | tests/index.test.ts:24-28 | `["bun", "index.ts", "config.json"]` succeeds with path "config.json" |

## Left out

- `console.error` in the branch for fewer than two entries (index.ts:26): logging only, it does not affect the returned record.
- `parsePositionalFile` (index.ts:45-57): file reading through the runtime and a foreign JSON parser. The only part of it modelled is its message constant, `NotValidJsonMsg`.
- `main` (index.ts:59-124): argument parsing by a library, interactive prompts, a spinner, timers, coloured output and process exit codes. All of it is I/O and UI glue.
- Schema validation, querying the external `ops` tool and computing the missing keys: the source has no code for these, so there is nothing to model.
