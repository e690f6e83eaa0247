# MailHub ingestion, classification and dedup pipeline in Dafny

This project models the core of MailHub, a desktop mail client with a Rust
backend. The core is the path a message takes from fetch to store:

- **Sync loop** (`sync_emails`): visits the configured accounts in order and fetches each one's mail.
- **Classifier**: runs on each fetched message when AI classification is on.
- **Auto-delete and notify policy**: applied to each classification.
- **Dedup-insert** (`add_emails`): puts the batch into the store, keyed by message id.
- **Classifier internals**: extracts a verification code and link with regular expressions, then asks one of three providers (OpenAI, Anthropic, Gemini) for a category.
- **Category mapping**: maps the provider's free-text answer to one of four categories.
- **Store**: the JSON-file store's list operations.
- **Commands**: `send_email` and `add_account`.

Everything is pure functions over immutable datatypes:

- Strings are `seq<char>`. Rust's byte lengths and byte slicing are modelled explicitly as UTF-8 byte counts.
- The AI provider is a function parameter `Request -> Reply`.
- A file write is a `saved: Result<()>` parameter.
- A sync run is driven by one `Round(fetched, saved)` per account.

| file | module | models |
|---|---|---|
| wrappers.dfy | Wrappers | `Option`, `Result` (anyhow errors as strings) |
| types.dfy | Types | the records and enums of `types.rs`, with their lowercase wire names |
| text.dfy | Text | UTF-8 byte length, `&s[..n]`, `str::contains`, `to_lowercase` |
| extract.dfy | Extract | hand-written leftmost-first matchers for the five regexes, `captures`, the code and link extractors |
| regex_spec.dfy | RegexSpec | each regex as a relational "there is a split" predicate, proved equivalent to its matcher |
| classifier.dfy | Classifier | prompt, provider requests, reply decoding, category mapping, `classify_email` |
| collections.dfy | Collections | `add_emails`' insert loop, `position`, `retain`, generic over the id field |
| storage.dfy | Storage | `Store::new` and the mutating store calls |
| commands.dfy | Commands | `sync_emails`, `send_email`, `add_account` |
| scenarios.dfy | Scenarios | the extractors on the demo message and on a labelled code |
| pipeline_scenarios.dfy | PipelineScenarios | the demo message through the classifier, and one concrete two-account sync |

## Model

| member | source | states |
|---|---|---|
| Types.ParseCategory | src-tauri/src/types.rs:83-90 | a string decodes to a category exactly when it is that category's lowercase serde name |
| Types.ParseAIProvider | src-tauri/src/types.rs:102-108 | a string decodes to a provider exactly when it is that provider's lowercase name |
| Types.ParseProtocol | src-tauri/src/types.rs:15-21 | a string decodes to a protocol exactly when it is that protocol's lowercase name |
| Types.ParseProvider | src-tauri/src/types.rs:23-29 | a string decodes to a mail provider exactly when it is that provider's lowercase name |
| Types.ParseTheme | src-tauri/src/types.rs:117-123 | a string decodes to a theme exactly when it is that theme's lowercase name |
| Types.WireNamesRoundTrip | src-tauri/src/types.rs:83-90 | every enum's name decodes back to the same value, and different categories have different names |
| Text.Utf8LenAppend | src-tauri/src/ai/mod.rs:51 | the byte length of a concatenation is the sum of the byte lengths |
| Text.Utf8LenAtLeastLength | src-tauri/src/ai/mod.rs:51 | a string has at least as many bytes as characters, with equality exactly for ASCII text |
| Text.PrefixWithin | src-tauri/src/ai/mod.rs:51 | the longest prefix whose encoding fits in n bytes: a prefix, within n bytes, and one more character would overflow |
| Text.SliceOkIffCharBoundary | src-tauri/src/ai/mod.rs:51 | `&s[..n]` is defined exactly when n is at most the byte length and falls on a character boundary |
| Text.Truncate | src-tauri/src/ai/mod.rs:51 | `&s[..s.len().min(n)]` is a prefix of `s` of exactly min(len, n) bytes |
| Text.TruncateAscii | src-tauri/src/ai/mod.rs:51 | on ASCII text the byte slice never panics and keeps the first min(len, n) characters |
| Text.Contains | src-tauri/src/ai/mod.rs:61 | `contains` is true exactly when the pattern occurs at some index |
| Text.Lower | src-tauri/src/ai/mod.rs:60 | lowercasing keeps the length and maps each character on its own. ASCII capitals become their small letters and no ASCII capital is left. Every other character except the Kelvin sign is kept |
| Text.LowerIdempotent | src-tauri/src/ai/mod.rs:60 | lowercasing an already lowercased answer changes nothing |
| Extract.RunEnd | src-tauri/src/ai/mod.rs:172 | a greedy character-class run: every character up to the end is in the class, and the next one is not |
| Extract.LabelAt | src-tauri/src/ai/mod.rs:172-173 | a label match captures 4 to 8 characters that occur in the text |
| Extract.YourCodeAt | src-tauri/src/ai/mod.rs:174 | an "is your code" match captures 4 to 8 characters that occur in the text |
| Extract.SixDigitsAt | src-tauri/src/ai/mod.rs:175 | a `\b`-delimited six-digit match captures exactly six characters of the text |
| Extract.KeywordWithin | src-tauri/src/ai/mod.rs:191 | true exactly when one of verify/confirm/activate/validation lies inside the given range |
| Extract.LinkAt | src-tauri/src/ai/mod.rs:191 | a link match is the text starting at that index |
| Extract.MatchAt | src-tauri/src/ai/mod.rs:171-175 | any match occurs in the text, and a code capture has 4 to 8 characters |
| Extract.FirstSomeFrom | src-tauri/src/ai/mod.rs:179 | the first index holding a value, with none before it |
| Extract.FindFrom | src-tauri/src/ai/mod.rs:179 | the leftmost index from `from` where the pattern matches, with no match before it, or none at all |
| Extract.Leftmost | src-tauri/src/ai/mod.rs:179 | `captures` finds a hit exactly when the pattern matches somewhere, and the hit is leftmost |
| Extract.FirstCodePattern | src-tauri/src/ai/mod.rs:178-184 | the first pattern in list order that matches anywhere, with none of the earlier ones matching |
| Extract.ExtractCode | src-tauri/src/ai/mod.rs:169-187 | None exactly when no pattern matches. Otherwise it is the leftmost capture of the first matching pattern: 4 to 8 characters taken from the text |
| Extract.ExtractLink | src-tauri/src/ai/mod.rs:189-199 | None exactly when the link pattern matches nowhere. Otherwise it is the leftmost link match, shaped like a URL |
| Extract.SchemeIsUrl | src-tauri/src/ai/mod.rs:191 | the `http://` or `https://` prefix consists of URL characters |
| Extract.LinkAtShape | src-tauri/src/ai/mod.rs:191 | a link match has a scheme, then URL characters containing a keyword, after at least one character |
| RegexSpec.LabelAtIsRegex | src-tauri/src/ai/mod.rs:172-173 | the label matcher agrees with the regex `(?i)<label>[:：\s]+([A-Z0-9]{4,8})` both ways, and returns the greedy capture |
| RegexSpec.SpacedWordAtIsRegex | src-tauri/src/ai/mod.rs:174 | `\s+<word>` matches exactly with the full white-space run before the word |
| RegexSpec.YourCodeMatchFound | src-tauri/src/ai/mod.rs:174 | any split satisfying `([0-9]{4,8})\s+is\s+your\s+code` makes the matcher capture those digits |
| RegexSpec.YourCodeAtMatches | src-tauri/src/ai/mod.rs:174 | every matcher hit is a split satisfying the regex |
| RegexSpec.YourCodeAtIsRegex | src-tauri/src/ai/mod.rs:174 | the "is your code" matcher agrees with its regex both ways and captures the digits of the match |
| RegexSpec.SixDigitsAtIsRegex | src-tauri/src/ai/mod.rs:175 | the six-digit matcher matches exactly at a word boundary followed by six digits and another word boundary |
| RegexSpec.LinkMatchFound | src-tauri/src/ai/mod.rs:191 | any split satisfying the link regex makes the matcher match, at least as far |
| RegexSpec.LinkAtMatches | src-tauri/src/ai/mod.rs:191 | every matcher hit is a split satisfying the link regex, ending where the hit ends |
| RegexSpec.LinkAtIsRegex | src-tauri/src/ai/mod.rs:191 | the link matcher agrees with `https?://[^\s<>"]+(?:verify\|confirm\|activate\|validation)[^\s<>"]*` both ways, and takes the longest match |
| Classifier.Preview | src-tauri/src/ai/mod.rs:51 | the preview is a prefix of the body of exactly min(len, 500) bytes |
| Classifier.PromptShape | src-tauri/src/ai/mod.rs:48-52 | the subject and the preview sit at fixed places in the prompt. The prompt's byte size is at most the fixed text plus the subject plus 500, however long the body |
| Classifier.PromptDeterminesSubject | src-tauri/src/ai/mod.rs:48-52 | different subjects give different prompts for the same body |
| Classifier.PreviewSeesOnlyPrefix | src-tauri/src/ai/mod.rs:51 | a body that starts with the 500-byte preview of another has the same preview |
| Classifier.PromptSeesOnlyPreview | src-tauri/src/ai/mod.rs:48-52 | two bodies that agree on their first 500 bytes give the same prompt |
| Classifier.BuildRequest | src-tauri/src/ai/mod.rs:74-167 | per provider: endpoint and model defaults or overrides, auth headers, `max_tokens` 50, Gemini's key in the URL, the prompt sent unchanged |
| Classifier.CredentialPlacement | src-tauri/src/ai/mod.rs:138-148 | OpenAI and Anthropic keep the key out of the URL. Gemini keeps it out of the headers, and a Gemini endpoint override makes the model setting irrelevant |
| Classifier.AnswerOf | src-tauri/src/ai/mod.rs:94-103 | transport and JSON-decoding failures are errors. A missing answer field reads as "normal". The status code plays no part |
| Classifier.CategoryOf | src-tauri/src/ai/mod.rs:60-69 | each of the four categories holds exactly under its lowercased-substring condition, checked in the order marketing, important, verification |
| Classifier.CategoryOfIgnoresCase | src-tauri/src/ai/mod.rs:60-69 | the category does not depend on the case of the answer: the lowercased answer gets the same category |
| Classifier.MixedAnswerIsMarketing | src-tauri/src/ai/mod.rs:60-69 | an answer naming both IMPORTANT and marketing is Marketing, because marketing is checked first |
| Classifier.EmptyAnswerIsNormal | src-tauri/src/ai/mod.rs:60-69 | an empty answer is Normal |
| Classifier.ShoutedImportantIsImportant | src-tauri/src/ai/mod.rs:60-69 | the answer "IMPORTANT" is Important, whatever its case |
| Classifier.CategoryOfOwnName | src-tauri/src/ai/mod.rs:60-69 | a provider answering with a category's name gets that category |
| Classifier.ClassifyEmail | src-tauri/src/ai/mod.rs:20-45 | disabled gives the default Normal/no-notify result. Enabled, it fails exactly on a transport or decoding failure; otherwise it maps the answer to a category, notifies exactly for Important and Verification, and attaches the extracted code and link |
| Classifier.DisabledIgnoresContent | src-tauri/src/ai/mod.rs:21-28 | with classification off the result does not depend on the message or the provider |
| Classifier.MissingAnswerIsNormal | src-tauri/src/ai/mod.rs:98-101 | a JSON reply without the answer field classifies as Normal and does not notify |
| Classifier.RejectedKeyReadsAsNormal | src-tauri/src/ai/mod.rs:94-101 | as written: a 401 reply reads like a 200 reply, and an error body without the answer field gives Normal |
| Classifier.CheckedAnswerOf | src-tauri/src/ai/mod.rs:94-101 | corrected: only a 2xx reply yields an answer, the same one as before. Any other status is an error |
| Classifier.PreviewPanicsOnSplitCharacter | src-tauri/src/ai/mod.rs:51 | as written: a body of 499 ASCII letters followed by "é" makes the 500-byte slice undefined (the slice panics) |
| Classifier.SafePreview | src-tauri/src/ai/mod.rs:51 | corrected: always defined. It is the longest prefix within 500 bytes and equals the original preview whenever that is defined |
| Collections.AnyHasKey | src-tauri/src/storage/mod.rs:102 | `iter().any(id == k)` is true exactly when some record has the id |
| Collections.InsertNew | src-tauri/src/storage/mod.rs:99-108 | the insert loop never shrinks the list and adds at most one record per batch element |
| Collections.InsertNewShape | src-tauri/src/storage/mod.rs:101-105 | the result is the unseen batch records, most recent of the batch first, in front of the unchanged old list |
| Collections.FreshKeys | src-tauri/src/storage/mod.rs:101-105 | the inserted records carry exactly the batch ids not seen before, each once |
| Collections.InsertNewKeys | src-tauri/src/storage/mod.rs:99-108 | the ids after the insert are the old ids plus the batch ids |
| Collections.InsertNewUnique | src-tauri/src/storage/mod.rs:99-108 | if the stored ids are unique they stay unique |
| Collections.InsertNewGrowth | src-tauri/src/storage/mod.rs:99-108 | the list grows by the number of distinct new ids in the batch |
| Collections.InsertNewKnown | src-tauri/src/storage/mod.rs:99-108 | a batch of already-stored ids leaves the list unchanged, length and order |
| Collections.InsertNewIdempotent | src-tauri/src/storage/mod.rs:99-108 | inserting the same batch twice is the same as inserting it once |
| Collections.MergeAllKeys | src-tauri/src/storage/mod.rs:99-108 | inserting several batches in turn adds exactly their ids |
| Collections.MergeAllFront | src-tauri/src/storage/mod.rs:99-108 | inserting several batches in turn keeps the old list at the back and puts only records of the batches in front of it |
| Collections.Position | src-tauri/src/storage/mod.rs:112 | `position` returns the first index with the id, or None exactly when no record has it |
| Collections.ReplaceFirst | src-tauri/src/storage/mod.rs:110-117 | an update with an unknown id finds nothing to replace. With a known id, one record with that id is replaced and the length is kept |
| Collections.ReplaceFirstKeepsUnique | src-tauri/src/storage/mod.rs:110-117 | replacing a record by one with the same id keeps ids unique and puts the new record in the list |
| Collections.RemoveAll | src-tauri/src/storage/mod.rs:121 | `retain(id != k)` keeps exactly the records with other ids |
| Collections.RemoveAllAppend | src-tauri/src/storage/mod.rs:121 | removal distributes over concatenation, so the order of the survivors is kept |
| Collections.RemoveAllAbsent | src-tauri/src/storage/mod.rs:121 | removing an absent id changes nothing |
| Collections.RemoveAllIdempotent | src-tauri/src/storage/mod.rs:121 | after removal the id is gone, and removing again changes nothing |
| Storage.Apply | src-tauri/src/storage/mod.rs:64-136 | a call fails exactly when it writes and the write fails, with the write's error. An update with an unknown id writes nothing and leaves the store alone |
| Storage.SaveOutcomeOnlyAffectsStatus | src-tauri/src/storage/mod.rs:64-136 | the in-memory change is made before the save and survives its failure |
| Storage.OpsTouchOneList | src-tauri/src/storage/mod.rs:64-136 | account calls change only accounts, email calls only emails, settings calls only settings |
| Storage.AddAccountAndEmailDoNotDeduplicate | src-tauri/src/storage/mod.rs:64-97 | `add_account` appends and `add_email` prepends without an id check, so a re-added email duplicates its id |
| Storage.AddEmailsProperties | src-tauri/src/storage/mod.rs:99-108 | `add_emails` puts the unseen batch in front of the old list, keeps ids unique, and is idempotent |
| Storage.UpdateEmailProperties | src-tauri/src/storage/mod.rs:110-117 | an unknown id changes nothing and reports success even when the disk fails. A known id replaces its first record only |
| Storage.DeleteEmailProperties | src-tauri/src/storage/mod.rs:119-124 | `delete_email` removes every record with the id, keeps the others, and always saves |
| Storage.LoadList | src-tauri/src/storage/mod.rs:19-33 | a list file fails exactly when unreadable, with its read error. A file that parses gives that list. A missing or unparsable file gives the empty list |
| Storage.LoadSettings | src-tauri/src/storage/mod.rs:35-49 | the settings file fails exactly when unreadable, with its read error. A file that parses gives those settings. A missing or unparsable file gives the defaults |
| Storage.NewStore | src-tauri/src/storage/mod.rs:16-57 | loading succeeds exactly when the directory is created and no file is unreadable. The first error in the order directory, accounts, emails, settings is the one reported. A loaded store holds each file's parsed contents, or the empty list or default settings where a file is missing or unparsable |
| Storage.SavedStoreReloads | src-tauri/src/storage/mod.rs:16-57 | a store whose three files hold its own lists and settings loads back as the same store |
| Storage.NewStoreDefaults | src-tauri/src/storage/mod.rs:16-57 | a fresh or corrupt data directory gives an empty store with notifications on, no classifier and the system theme |
| Commands.ClassifyOne | src-tauri/src/lib.rs:74-89 | one message keeps everything but its classification and yields at most one notification, about itself |
| Commands.ClassifyOneNotifyIff | src-tauri/src/lib.rs:75-88 | a notification is reported exactly when classification succeeds, asks for one, and notifications are on. The classification is attached exactly when it succeeds |
| Commands.ClassifyBatch | src-tauri/src/lib.rs:71-92 | the batch keeps its length, order and everything but classifications. With classification on, each message is exactly what the one-message step makes of it. With classification off the batch is untouched and silent. Only notifications are reported |
| Commands.ClassifyBatchNotifications | src-tauri/src/lib.rs:84-88 | the notifications are exactly those of the classified messages that ask for one, in batch order |
| Commands.FirstFailedSave | src-tauri/src/lib.rs:94 | the first round whose save fails, or None exactly when every save succeeds |
| Commands.SyncFrom | src-tauri/src/lib.rs:67-100 | the loop returns Ok when every save succeeds, otherwise the first failed save's error. The stored list only grows at the front |
| Commands.ClassifiedBatchesKeys | src-tauri/src/lib.rs:71-92 | classifying the batches keeps their ids |
| Commands.ClassifiedBatchesOff | src-tauri/src/lib.rs:71-72 | with classification off the batches are merged as fetched |
| Commands.SyncReportsEvents | src-tauri/src/lib.rs:67-100 | the loop reports, in order, a failure for each account whose fetch fails and the notifications of each fetched batch, up to and including the batch whose save fails. The log does not depend on the stored list |
| Commands.SyncMergesBatches | src-tauri/src/lib.rs:67-100 | the stored list is the old list with `add_emails` applied to each fetched batch, classified, in account order, up to and including the batch whose save fails |
| Commands.SyncStoresIds | src-tauri/src/lib.rs:67-100 | the stored ids are the old ids plus the ids of every batch fetched up to and including the first failed save |
| Commands.SyncStoresClassified | src-tauri/src/lib.rs:71-94 | every message the list gains belongs to one of those batches as classified |
| Commands.SyncEmails | src-tauri/src/lib.rs:60-101 | sync changes only the email list and succeeds exactly when all saves succeed. The old emails stay at the back. The ids gained are those of every batch fetched up to and including the first failed save. Every message gained carries its batch's classification. The log is the fetch failures and notifications of those rounds, in account order |
| Commands.FailedFetchIsolated | src-tauri/src/lib.rs:96 | dropping an account whose fetch failed leaves the stored emails and the result unchanged |
| Commands.FailureLog | src-tauri/src/lib.rs:96 | one fetch failure per account, in account order, with its id and reason |
| Commands.AllFetchesFail | src-tauri/src/lib.rs:96-100 | when every fetch fails the sync succeeds, stores nothing, and logs exactly one failure per account |
| Commands.RoundsAfterAbortIrrelevant | src-tauri/src/lib.rs:94 | once a save fails the loop has returned: later accounts do not affect anything |
| Commands.SyncWithoutClassifierReportsOnlyFailures | src-tauri/src/lib.rs:71-72 | with classification off only fetch failures are reported |
| Commands.SyncWithoutClassifierStoresRaw | src-tauri/src/lib.rs:71-94 | with classification off, every batch fetched up to the first failed save is merged exactly as fetched, in account order |
| Commands.SyncWithoutClassifierKeepsFirstBatch | src-tauri/src/lib.rs:71-94 | with classification off, the list built from the first raw batch stays at the back of the result |
| Commands.AutoDeleteIsNoOp | src-tauri/src/lib.rs:79-81 | as written: turning auto-delete on changes neither the stored message nor the events |
| Commands.ClassifyBatchDroppingMarketing | src-tauri/src/lib.rs:78-81 | corrected batch step: messages can only be dropped, never added |
| Commands.DroppingMarketingKeepsNone | src-tauri/src/lib.rs:78-81 | corrected: under auto-delete no fetched message classified Marketing survives |
| Commands.DroppingMarketingIsFilter | src-tauri/src/lib.rs:78-81 | corrected: under auto-delete the kept messages are exactly the fetched ones the as-written step does not tag Marketing, in batch order, with the same notifications |
| Commands.DroppingMarketingAgreesWhenOff | src-tauri/src/lib.rs:78-81 | without auto-delete the corrected batch step is the as-written one |
| Commands.FindAccount | src-tauri/src/lib.rs:111-114 | the first account with the id, or the error "Account not found" exactly when there is none |
| Commands.SendEmail | src-tauri/src/lib.rs:104-119 | an unknown sender account gives "Account not found", otherwise the transport's result |
| Commands.AddAccountCommand | src-tauri/src/lib.rs:26-35 | the account is appended after the unchanged old list. An account with an id is stored as given; one without gets the fresh uuid as its id and is otherwise unchanged. The emails and settings are untouched. The status is the save's outcome |
| Scenarios.DemoHasNoCodeLabel | src-tauri/src/ai/mod.rs:172 | the `code` label pattern matches nowhere in the demo body: where "code" occurs, the separator is followed by "is", two code characters where four are needed |
| Scenarios.DemoVerificationLabelAt5 | src-tauri/src/ai/mod.rs:173 | the `verification` label pattern matches the demo body at index 5 and captures the word "code" |
| Scenarios.DemoCodeIsTheWordCode | src-tauri/src/email/mod.rs:53 | the code extracted from the demo body is "code", not 123456 |
| Scenarios.DemoHasNoLink | src-tauri/src/email/mod.rs:53 | the demo body has no verification link |
| Scenarios.LabelledCodeWins | src-tauri/src/ai/mod.rs:171-184 | in "code: AB12CD 654321" the label pattern wins over the six-digit pattern |
| PipelineScenarios.DemoEmailClassified | src-tauri/src/email/mod.rs:38-60 | the demo message, answered "verification", is Verification, notifies, and carries code "code" and no link |
| PipelineScenarios.SyncBatchClassified | src-tauri/src/lib.rs:74-90 | with auto-delete on, a marketing message is tagged and kept silently, and an important one is tagged and notifies |
| PipelineScenarios.SyncScenario | src-tauri/src/lib.rs:60-101 | a sync where account A fails and B brings a marketing and an important message: Ok, A's failure logged, both messages stored (newest first), only the important one notified |

## Left out

- HTTP and JSON: requests and replies are values. The provider is a function `Request -> Reply` passed in. `temperature` 0.3 and the JSON bodies' exact layout are not modelled; the fields that matter are (URL, headers, model, `max_tokens`, prompt). Each provider reads its answer from a different JSON path; the reply carries the answer already extracted, or None when the field is missing.
- The file system: `fs::create_dir_all`, `read_to_string`, `to_string_pretty` and `fs::write` are replaced by their outcomes (`FileState`, `saved`). The serialised form is not modelled; only the wire names of the enums are.
- The `Mutex`es, the `Arc` and async scheduling: each call runs alone. Lock poisoning (`unwrap` on `lock()`) is not modelled.
- IMAP/SMTP and the demo `EmailClient::fetch_emails` / `send_email` stubs in `email/mod.rs`: a fetch is the `fetched` field of a round, a send is the `sent` parameter. The demo message's body and subject are used as data in the scenarios.
- `uuid::Uuid::new_v4()`: the fresh id is a parameter of length 36.
- The getters (`get_accounts`, `get_emails`, `get_settings`), `greet`, the Tauri command wrappers, `update_account`/`delete_account`/`update_settings` of `lib.rs` beyond the store calls they forward, and the frontend (`App.tsx`, `src/types`).
- `println!`/`eprintln!`: a notification and a failed fetch become `Event`s in the returned log, in the order they would be printed.
- Unicode regex features: `\b` is ASCII (a word character is a letter, a digit or `_`). Case-insensitive matching folds ASCII letters plus the two non-ASCII characters that fold to ASCII letters here, U+017F (long s) and U+212A (Kelvin sign). `to_lowercase` is modelled on ASCII plus the Kelvin sign; other characters are kept unchanged. Rust lowercases some other characters to text containing an ASCII letter: U+0130 (capital I with dot) becomes `i` followed by U+0307. That `i` is always followed by U+0307, and none of marketing, important and verification ends in `i`, so no keyword occurrence can use it and no keyword search changes.
- The 500-byte slice panics when byte 500 falls inside a character. `ClassifyEmail`, `ClassifyOne`, `ClassifyBatch` and `SyncFrom` require the bodies they classify to be sliceable there (`PreviewDefined`); the panic is under Findings.
- Commands.ClassifyBatchDroppingMarketing: its own contract only bounds the length. What it keeps is stated by `DroppingMarketingIsFilter`, `DroppingMarketingKeepsNone` and `DroppingMarketingAgreesWhenOff`.
- Commands.SyncFrom: its own contract gives the result and says the list only grows at the front; what it stores is stated by `SyncMergesBatches`, `SyncStoresIds` and `SyncStoresClassified`, and what it reports by `SyncReportsEvents`. The loop models the code as written, with the as-written batch step; the corrected auto-delete is a separate batch step and is not threaded through the loop.
- Where the code does something other than what it evidently intends, the model follows the code and states the intended behaviour separately (see Findings):
  - Auto-delete: the comment "Skip adding this email" at src-tauri/src/lib.rs:80 says a marketing message is not stored under auto-delete; the `continue` only skips the notification, and the message is stored.
  - Provider errors: a rejected request (a 401 for a bad key) should make the classification fail; src-tauri/src/ai/mod.rs:97-101 never looks at the status, so such a reply reads as "normal".
  - The preview: a preview of at most 500 bytes should never panic; src-tauri/src/ai/mod.rs:51 slices at byte 500 and panics when that byte falls inside a character.
  - Message ids: `add_emails` keeps ids unique (src-tauri/src/storage/mod.rs:99-108), but `add_email` inserts without checking, so ids are unique only as long as every insert goes through `add_emails`.

## Findings

| source | as written | input that shows it | evidently intended | confidence | as-written member | corrected member |
|---|---|---|---|---|---|---|
| src-tauri/src/lib.rs:79-81 | `continue` under auto-delete skips only the notification. The message has already been tagged in place and is still passed to `add_emails` | any fetched message the provider classifies as marketing, with `auto_delete` on: it is stored | marketing messages are not stored when auto-delete is on (the comment says "Skip adding this email") | high; follows from the loop structure; not executed | Commands.AutoDeleteIsNoOp | Commands.DroppingMarketingKeepsNone |
| src-tauri/src/ai/mod.rs:94-101 | the HTTP status is never checked. An error reply whose JSON lacks the answer field reads as "normal" | a 401 reply `{"error": ...}` to a bad API key: the message is classified Normal instead of the classification failing | only a 2xx reply yields a category; others are provider errors | high; not executed | Classifier.RejectedKeyReadsAsNormal | Classifier.CheckedAnswerOf |
| src-tauri/src/ai/mod.rs:51 | `&body[..body.len().min(500)]` slices at byte 500 | a body of 499 ASCII letters followed by "é" (bytes 499-500): byte 500 is inside the "é", so the slice panics | a preview of at most 500 bytes ending on a character boundary | high; Rust's `str` slicing panics off a char boundary; not executed | Classifier.PreviewPanicsOnSplitCharacter | Classifier.SafePreview |
