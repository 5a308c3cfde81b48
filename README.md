# X archive to CSV: a verified model of the normaliser and the staged pipeline

This project models the core of `src/index.js`, a Node.js script that turns a
personal X (Twitter) data export into a CSV file of posts. The script has two parts.

- **The post normaliser** (`flattenTweets`). Each element `{ tweet: t }` of the
  archive's post collection becomes one flat record with fourteen keys. Five are
  copied: `id`, `favorite_count`, `retweet_count`, `created_at` and `full_text`.
  The rest are derived: `is_reply`, `in_reply_to_user_id`, `is_self_reply`,
  `retweet`, `has_media`, `hashtags`, `user_mentions`, `urls`, and `source`,
  which has its markup tags removed.
- **The stage-gated pipeline** (`main`). After reading the account, it runs three
  stages in order: raw posts to JSON, JSON to flattened JSON, flattened JSON to
  CSV. A stage is skipped when its output file already exists. A stage that fails
  before writing logs the error and writes nothing. The model assumes every write
  succeeds whole; see "## Left out".

The Dafny modules follow that split:

- `Markup` (markup.dfy) models the regular expression `/<[^>]*>/gi` as it is used
  by `replaceAll` (`StripTags`).
- `Posts` (posts.dfy) holds the raw and flat post datatypes and one function per
  derived field. Each function is written with the JavaScript operators the
  source uses: optional chaining, `?? 0`, `> 0` on a possibly `undefined`
  length, and string truthiness. The field's contract then states what that
  combination yields in plain terms.
- `Pipeline` (pipeline.dfy) models the file system as a `FileSystem` class whose
  `files` field is a `map` from paths to contents. The stage methods mutate it.
  Pure functions of the store specify those methods: `ConvertTweetsStep`,
  `FlattenStep` and `CsvStep` specify the three stage methods, and `RunStages`
  specifies `Run`. `JsonStage`, `FlattenStage` and `CsvStage` specify the
  existence-gated calls inside `Run`. Lemmas over these functions prove gating,
  preservation of existing files and idempotence.
- `Scenarios` (scenarios.dfy) works through concrete posts.

The model follows the code as written:

- The code copies `created_at` verbatim. It does not split it into a date and a time.
- The code emits no `link` field.
- A failed extraction of the posts file is caught and logged (src/index.js:35-38),
  so the process does not exit. Only a failed account extraction ends the process,
  before any stage runs. Either the awaited `readXFile` rejects (line 104), or
  `accountData[0].account` throws (line 105). In both cases `main`'s promise rejects.

## Model

| member | source | states |
|---|---|---|
| `Markup.StripTags` | src/index.js:55 | removing tags never lengthens the text; the function is pinned down by the equations `StripTagsKeepsText` (text before a `<` is kept), `StripTagsDropsTag` (a leading tag is dropped whole) and `StripTagsKeepsUntagged` (a text with no complete tag is returned unchanged) |
| `Markup.StripTagsLeavesNoTag` | src/index.js:55 | after stripping, no `<` in the text is followed anywhere later by a `>`: no complete tag is left |
| `Markup.StripTagsKeepsUntagged` | src/index.js:55 | text that contains no complete tag comes back unchanged |
| `Markup.StripTagsIdempotent` | src/index.js:55 | stripping twice gives the same text as stripping once |
| `Markup.StripTagsFixedPoints` | src/index.js:55 | stripping leaves a text unchanged exactly when the text contains no complete tag |
| `Markup.StripTagsShrinks` | src/index.js:55 | stripping only removes characters: the result is never longer, and a character absent from the input is absent from the result |
| `Markup.StripTagsKeepsText` | src/index.js:55 | a leading run of text without `<` is kept as it is, followed by the stripped rest |
| `Markup.StripTagsDropsTag` | src/index.js:55 | a leading tag, running from `<` to the first `>` after it, is removed whole (the match `[^>]*` may contain `<`) |
| `Markup.StripTagsElement` | src/index.js:55 | an element `<open>text<close>`, where the text has no `<`, strips to exactly its text |
| `Markup.CloseAt` | src/index.js:55 | finds the first `>` in a text, where a tag match ends; returns none exactly when the text has no `>` |
| `Posts.IsReply` | src/index.js:64 | `is_reply` holds exactly when `in_reply_to_user_id` is present and non-empty; it is false when the field is absent, null or "" |
| `Posts.ReplyTarget` | src/index.js:65 | `in_reply_to_user_id` is the number 0 exactly when the input field is absent; otherwise it is the input value, so the input field can be read back from the output |
| `Posts.IsSelfReply` | src/index.js:66 | `is_self_reply` holds exactly when `in_reply_to_user_id` is present and equals `account.accountId`; it is false when the field is absent |
| `Posts.IsRetweet` | src/index.js:67 | `retweet` holds exactly when `full_text` is present and starts with the three characters `R`, `T`, space; it is false when `full_text` is absent |
| `Posts.HasMedia` | src/index.js:68 | `has_media` holds exactly when `entities` and its `media` collection are present and the collection is non-empty |
| `Posts.EntityCount` | src/index.js:69-71 | `hashtags`, `user_mentions` and `urls` equal the size of their sub-collection, or 0 when the sub-collection or `entities` is absent |
| `Posts.CleanSource` | src/index.js:72 | `source` is "" when the input `source` is absent; otherwise it is the stripped input; either way it holds no complete tag and stripping it again changes nothing |
| `Posts.FlattenPost` | src/index.js:58-75 | copies `id`, both counts, `created_at` and `full_text` unchanged; `is_reply` implies a non-empty id in `in_reply_to_user_id`; a 0 there implies neither reply flag; `is_self_reply` holds exactly when that field is the account id, and then `is_reply` holds too unless the account id is ""; `retweet` implies the text starts with "RT "; `source` holds no tag; and every derived field equals the value its own rule (`IsReply`, `ReplyTarget`, `IsSelfReply`, `IsRetweet`, `HasMedia`, `EntityCount` for each of the three collections, `CleanSource`) gives, so the contract covers all fourteen keys |
| `Posts.FlattenAll` | src/index.js:58-75 | the mapping succeeds exactly when every element has a `tweet`; it then preserves length and order, with output element i the flat record of input element i |
| `Posts.FlattenAllAppend` | src/index.js:58 | mapping a concatenation gives the concatenation of the mapped parts, and fails when either part fails |
| `Pipeline.MapDocument` | src/index.js:57-58 | the flatten stage maps a parsed document of raw posts exactly as `FlattenAll` does; a parsed list of flat records maps only when it is empty, because each element lacks `tweet` |
| `Pipeline.ParsedJson` | src/index.js:41-51 | `readJSON` yields a document exactly when the file exists and holds JSON, and the document is what the file holds; otherwise it yields null |
| `Pipeline.ConvertTweetsStep` | src/index.js:31-39 | a failed extraction leaves the store as it was; otherwise reading the raw JSON path back gives the extracted posts; no other file changes and no other file appears |
| `Pipeline.FlattenStep` | src/index.js:53-83 | when the raw JSON does not read (`readJSON` null, line 57) or the mapping throws, the store is unchanged; otherwise reading the flattened path back gives the mapped document; no other file changes and no other file appears |
| `Pipeline.CsvStep` | src/index.js:85-94 | when the flattened JSON does not read, the store is unchanged; the flattened JSON reads exactly when, afterwards, the CSV artifact renders exactly what the flattened file holds; no other file changes and no other file appears |
| `Pipeline.JsonStage` | src/index.js:107-111 | the first stage leaves the store unchanged when the raw JSON exists, and is exactly `ConvertTweetsStep` when it is absent; it can add only that artifact; every existing file keeps its contents |
| `Pipeline.FlattenStage` | src/index.js:113-117 | the second stage leaves the store unchanged when the flattened JSON exists, and is exactly `FlattenStep` when it is absent; it can add only that artifact; every existing file keeps its contents |
| `Pipeline.CsvStage` | src/index.js:119-123 | the third stage leaves the store unchanged when the CSV exists, and is exactly `CsvStep` when it is absent; it can add only that artifact; every existing file keeps its contents |
| `Pipeline.RunStages` | src/index.js:107-123 | a run never modifies or removes an existing file; the only files it creates are the three artifacts; a CSV it creates renders exactly the flattened artifact left in the store |
| `Pipeline.RunOnCompleteStoreIsNoop` | src/index.js:107-123 | with all three artifacts present, a run changes nothing |
| `Pipeline.RunIdempotent` | src/index.js:107-123 | a second run over the store the first run left behind changes nothing |
| `Pipeline.UnreadableJsonWritesNoFlat` | src/index.js:41-57 | when the raw JSON cannot be read after the first stage (`readJSON` returns null), no flattened artifact is written, and no CSV artifact appears that was not already there |
| `Pipeline.RunFromScratch` | src/index.js:107-123 | from a store without any artifact, a run with posts that all map writes the raw posts as JSON, their flat records as JSON, and a CSV of those records |
| `Pipeline.RunRederivesFromRawJson` | src/index.js:113-123 | with the raw JSON kept and both later artifacts missing, a run re-derives the flattened artifact from the raw JSON and then the CSV from that, and touches nothing else |
| `Pipeline.RunRederivesOnlyMissing` | src/index.js:119-123 | with only the CSV artifact missing, a run re-derives the CSV from the flattened artifact and touches nothing else |
| `Pipeline.FileSystem.Exists` | src/index.js:5-12 | `fileExists` is true exactly when the path is in the store |
| `Pipeline.FileSystem.ReadJson` | src/index.js:41-51 | `readJSON` yields the parsed document when the file exists and holds JSON; otherwise it yields null |
| `Pipeline.FileSystem.WriteFile` | src/index.js:77 | a write replaces the file at that path and changes no other file |
| `Pipeline.ConvertTweetsToJson` | src/index.js:31-39 | writes the extracted posts to the raw JSON path; when extraction fails, the store is left as it was |
| `Pipeline.FlattenTweets` | src/index.js:53-83 | writes the flat records when the raw JSON reads and maps, and otherwise leaves the store as it was; a newly written flattened artifact implies the raw JSON was readable |
| `Pipeline.ConvertToCsv` | src/index.js:85-94 | writes the CSV of the flattened document when that document reads, and otherwise leaves the store as it was |
| `Pipeline.Run` | src/index.js:96-124 | the process crashes exactly when the account collection is missing or empty, and then no file changes, so no CSV is produced; otherwise the store ends as the three gated stages leave it |
| `Scenarios.CleanSourceExample` | src/index.js:72 | a post whose source is `<a href="x">Web App</a>` gets the source `Web App` |
| `Scenarios.SelfReplyRetweetExample` | src/index.js:64-71 | a post answering account "123" with text "RT hello" and one hashtag is a reply, a self-reply and a retweet, with no media, one hashtag, no mentions, no urls and an empty source |

## Left out

- `readXFile` (src/index.js:14-29) is not modelled. It loads a browser script through a spoofed global `window` and a dynamic `import`. Its result is a parameter of `Run`: an `Option` that is `None` when loading fails or binds no `part0`. The global it leaves set when the import throws is also not modelled.
- `JSON.stringify` and `JSON.parse` (src/index.js:34, 44, 76) are not modelled. A JSON file holds the document it encodes, so parsing gives back what was written. A file that does not parse is `Malformed`.
- The `csv-stringify` library (src/index.js:88) is not modelled. A CSV file holds the document it was rendered from. CSV quoting and the column layout are left out, and so is CSV round-tripping.
- `ConvertToCsv`: what `stringify` does with a null document is not visible. The model assumes it writes nothing, as a thrown error would cause.
- Path construction with `resolve`/`join` (src/index.js:97-102) becomes three distinct constant paths. The account and posts file paths appear only through the extraction results.
- `console.log` diagnostics are not modelled. Async/await sequencing becomes ordinary sequential calls, because each step is awaited before the next one.
- The copied fields `id`, `favorite_count`, `retweet_count` and `created_at` are modelled as present strings. When one of them is absent in the archive, `JSON.stringify` drops that key. The model does not capture this. An absent `full_text` and a `null` one are both `None`. Line 73 copies the value as it is, so `JSON.stringify` (line 76) writes `"full_text": null` for a null text and drops the key for an absent one. The model does not tell these two flattened artifacts apart.
- `accountId` is modelled as a string. An account record without `accountId` is not modelled; in JavaScript, `undefined === undefined` would then mark as a self-reply every post whose `in_reply_to_user_id` key is absent (not one where it is `null`, since `null === undefined` is false). An account element without an `account` key is not modelled either.
- An extraction result that is not an array of `{ tweet }` elements is not modelled. The model folds it into the `None` case of extraction. In the source the outcome depends on the value:
  - A truthy non-array is written as JSON, and then `tweets.map` throws.
  - A `null` one is written as the text `null`. `readJSON` then returns null, and the `if ( tweets )` guard (line 57) skips the map.
  - An `undefined` one fails `writeFile`'s argument check, so nothing is written.
- `FileSystem.WriteFile`: writes are assumed to succeed and to replace the whole file. In the source, `fs.writeFile` (src/index.js:34, 77, 89) can reject, for example when `src/data` is missing; the rejection is caught at lines 35, 79 and 90. A failure part-way through, or an error from the stream `stringify` returns (line 88), can leave an empty or partial file. The existence-only gate (lines 107-123) then treats that file as finished on every later run. The model does not capture partial or failed writes.
- The report queries in src/duckdb.js are not modelled. They are SQL text run by an embedded DuckDB engine, so their meaning lives in that engine.
