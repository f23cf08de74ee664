# payload-alt-text-generator, modelled in Dafny

This project models the Payload CMS plugin `payload-alt-text-generator`. The plugin lists the images of an
upload collection that lack alt text. It asks a vision model (Anthropic, OpenAI or Google) to
describe each image, and it writes the descriptions back into the collection's alt field. The model
covers:

- **the plugin entry** (`Plugin`). The caller's options are merged over the defaults. The
  configuration rewrite then adds four endpoints, a list-view generator and a per-field generate
  button, to the targeted collections only.
- **the four endpoints**:
  - `GET /missing-alt` (`MissingAlt`, with the filename classifier in `Filenames`);
  - `POST /save-alt` (`SaveAlt`);
  - `POST /save-bulk-alt` (`SaveBulkAlt`);
  - `POST /generate-alt`, in its source form (`GenerateAltLegacy`) and in its bundled form
    (`GenerateAlt`). The bundled form adds an extension check, a filename-only SVG path, re-encoding
    of large images and a retry loop.
- **the document store** behind the endpoints (`Store`). `find` and `update` are over an abstract
  store. The set of documents whose update fails is an oracle.
- **the vision providers**:
  - the three provider classes (`Anthropic`, `OpenAI`, `Google`);
  - what they share (`Vision`);
  - their bounded exponential-backoff retry (`Retry`);
  - the factory that picks one of them (`ProviderFactory`).
- **the client modal** that drives bulk generation:
  - the suggestion store and its updates (`Suggestions`);
  - the chunked "Generate All" loop with Cancel (`Batches`);
  - the review-then-save modal (`ExplicitSaveModal`) and the auto-save modal (`AutoSaveModal`), as
    classes whose fields are the React state;
  - one row of the modal (`ImageRow`).

Every network call, SDK call and store call becomes a parameter:
- a function from the request to its outcome (`Outcome<T>` is a value or a thrown JavaScript value);
- or a function from the attempt number to its outcome, for the retry loop.

The model records waits, requests and responses instead of performing them. Shared values live in
`Common`, and the JavaScript string built-ins the code uses live in `Text`, including the `$&`, `$$`, `` $` `` and `$'` patterns that `replace` expands in a replacement text.

## Model

| member | source | states |
|---|---|---|
| Common.ErrorString | src/endpoints/generateAlt.ts:102 | `String(error)` of an Error joins name and message with ": ", dropping an empty part; any other thrown value is its own text |
| Common.ErrorMessage | dist/index.mjs:200 | `error.message` for an Error, else `String(error)`: exactly `String(error)` for a non-Error or a nameless Error, and otherwise what `String(error)` shows after "name: " |
| Text.Lower | src/endpoints/getMissingAlt.ts:7 | lower-casing keeps the length, maps each character by itself and leaves no ASCII capital |
| Text.Trim | src/providers/anthropic.ts:71 | `trim()` yields the slice of the input between leading and trailing white space, and that slice neither starts nor ends with white space |
| Text.Take | src/providers/anthropic.ts:71 | `slice(0, n)` is the first n characters (Unicode scalar values, see Left out), exactly n of them when the text is longer, or the whole text when it is shorter |
| Text.ContainsAt | src/endpoints/generateAlt.ts:54-56 | `includes(p)` holds exactly when `p` starts at some position of the text |
| Text.ContainsNeedsFirstChar | dist/index.mjs:79-83 | `includes(p)` is false when the text lacks the pattern's first character |
| Text.NotContainsBefore | dist/index.mjs:79-83 | a pattern does not occur when the first n characters lack its first character and fewer characters than the pattern follow them |
| Text.LastSegment | src/endpoints/getMissingAlt.ts:7 | `split(c).pop()` is the suffix after the last `c`, holds no `c`, and is the whole text when there is no `c` |
| Text.FirstSegment | dist/index.mjs:99 | `split(c)[0]` is the prefix before the first `c` and holds no `c` |
| Text.LastSegmentAfter | dist/index.mjs:73-74 | the last segment of a text ending in a separator and then a separator-free stretch is that stretch |
| Text.SubstituteLiteral | src/endpoints/generateAlt.ts:59-62 | a replacement text without '$' is inserted as it is |
| Text.SubstituteMatched | dist/index.mjs:151 | "$&" in a replacement text stands for the matched text |
| Text.SubstituteDollar | dist/index.mjs:151 | "$$" in a replacement text stands for one "$" |
| Text.SubstituteChar | dist/index.mjs:151 | any character other than '$' in a replacement text is copied |
| Text.ReplaceFromMatch | src/endpoints/generateAlt.ts:59-62 | an occurrence at the scan position is replaced by the substituted replacement, which sees the whole input before and after it, and the scan resumes after the occurrence |
| Text.ReplaceFromMiss | src/endpoints/generateAlt.ts:59-62 | where the pattern does not start, one character is copied and the scan moves on by one |
| Text.ReplaceFromLiteral | src/endpoints/generateAlt.ts:59-62 | a stretch without the pattern's first character is copied as it is |
| Text.ReplaceFromFill | src/endpoints/generateAlt.ts:59-62 | an occurrence is replaced by a replacement text without '$' as it is |
| Text.ReplaceAllAbsent | src/endpoints/generateAlt.ts:59-62 | a global replace of a pattern that does not occur leaves the text unchanged |
| Text.ReplaceAllPrefix | src/endpoints/generateAlt.ts:59-62 | a prefix without the pattern's first character is copied unchanged, and the scan goes on after it within the whole input, so the replacement's "$`" still sees that prefix |
| Text.ReplaceAllOnce | src/endpoints/generateAlt.ts:59-62 | a single occurrence between two stretches lacking the pattern's first character is replaced by the substituted replacement, and both stretches are kept |
| Text.MatchPatternExpanded | dist/index.mjs:151 | `"x{filename}y".replace(/{filename}/g, "a$&.png")` is "xa{filename}.pngy" |
| Text.DollarPatternExpanded | dist/index.mjs:151 | with the filename "p$$.png" the template "x{filename}y" becomes "xp$.pngy" |
| Text.ContextPatternsExpanded | dist/index.mjs:151 | with the filename "$`$'" the template "x{filename}y" becomes "xxyy" |
| Text.NatToString | src/endpoints/generateAlt.ts:61 | `String(n)` is a non-empty string of decimal digits without a leading zero whose value is n |
| Store.Matching | src/endpoints/getMissingAlt.ts:28-34 | the where-clause keeps exactly the documents whose alt field is empty, null or absent |
| Store.FindMissing | src/endpoints/getMissingAlt.ts:52-63 | `find` succeeds exactly for a known collection, and returns the first min(500, m) of its m matching documents, in store order |
| Store.Update | src/endpoints/saveAlt.ts:30-37 | `update` succeeds exactly when the document can be updated, and then changes only that collection |
| Store.UpdateKeepsCanUpdate | src/endpoints/saveBulkAlt.ts:31-48 | one update does not change whether another update of the same collection succeeds |
| Store.UpdateStoresValue | src/endpoints/saveAlt.ts:30-37 | after a successful update the document holds the new value in the field |
| Filenames.IsImageFileIgnoresCase | src/endpoints/getMissingAlt.ts:6-9 | the extension test does not depend on letter case |
| Filenames.LowerLastSegment | src/endpoints/getMissingAlt.ts:7 | lower-casing commutes with taking the last '.'-segment |
| Filenames.IsImageFileByExtension | src/endpoints/getMissingAlt.ts:4-9 | "base.ext" is an image exactly when lower-cased `ext` is on the ten-entry allow-list |
| Filenames.IsImageFileWithoutDot | src/endpoints/getMissingAlt.ts:6-9 | a name without '.' is judged on the whole name |
| Filenames.IsImageFileUpperCaseExample | src/endpoints/getMissingAlt.ts:6-9 | "a.JPG" is accepted |
| Filenames.IsImageFileNoDotExample | src/endpoints/getMissingAlt.ts:6-9 | "photo" is rejected |
| Filenames.IsImageFileRejectExample | src/endpoints/getMissingAlt.ts:6-9 | "report.pdf" is rejected |
| Filenames.Basename | dist/index.mjs:73 | the text after the last '/', which is non-empty and holds no '/'; the whole name when that text is empty (an empty name or a trailing '/') |
| Filenames.StripExtension | dist/index.mjs:74 | drops a final ".ext" with a non-empty ext and nothing else: when the name has a last '.' followed by at least one character, the result is the text before that '.'; otherwise the name is kept |
| Filenames.SplitCamelAppend | dist/index.mjs:75 | the camel split of a+b is the splits of a and of b with one space between them exactly when a ends in a lower-case letter and b starts with a capital |
| Filenames.SplitCamelPlain | dist/index.mjs:75 | a text without a lower-case letter followed by a capital is left as it is |
| Filenames.CollapseWord | dist/index.mjs:76 | a word without white space is kept as it is |
| Filenames.CollapseRun | dist/index.mjs:76 | a word, a run of white space and a text starting otherwise: the word is kept and the whole run becomes one ' ' |
| Filenames.CollapseSpacesChars | dist/index.mjs:76 | the collapsed text keeps non-space characters and has no white space but ' ' |
| Filenames.CollapseSpacesSingle | dist/index.mjs:76 | the collapsed text never has two spaces in a row |
| Filenames.SeparatorsReplaced | dist/index.mjs:75 | the separated name holds no '-' or '_' |
| Filenames.LoweredSeparatedIsPlain | dist/index.mjs:75-76 | lower-cased and collapsed, the name has no separator, no capital and only ' ' as white space |
| Filenames.TrimKeepsClean | dist/index.mjs:76 | trimming such a text makes it clean: no separator, capital, doubled or edge space |
| Filenames.CleanedIsClean | dist/index.mjs:73-76 | the cleaned name is clean and neither starts nor ends with a space |
| Filenames.AppendWordKeepsClean | dist/index.mjs:79-84 | appending " word" of lower-case letters keeps a clean text clean |
| Filenames.KindSuffixKeepsClean | dist/index.mjs:79-85 | adding the icon/logo suffix keeps a clean text clean |
| Filenames.DeriveAltFromFilename | dist/index.mjs:72-86 | the description is the cleaned name, possibly followed by " icon" or " logo" |
| Filenames.DeriveAltIsClean | dist/index.mjs:72-86 | the description holds no '-', '_', capital, or doubled or non-' ' white space |
| Filenames.ContainsExtend | dist/index.mjs:79 | a text still contains a pattern once something is appended |
| Filenames.ContainsSuffix | dist/index.mjs:79-83 | a text contains each of its suffixes |
| Filenames.KindSuffixChoice | dist/index.mjs:77-85 | " icon" exactly for an icon-like name lacking "icon", else " logo" exactly for a logo name lacking "logo", never both |
| Filenames.KindSuffixMentionsKind | dist/index.mjs:77-85 | an icon-like name always yields a text mentioning "icon"; a logo name that is not icon-like, one mentioning "logo" |
| Filenames.NameWithoutExtensionOf | dist/index.mjs:73-74 | "name.ext" without '/' and with no '.' in ext loses exactly ".ext" |
| Filenames.TwoWordsClean | dist/index.mjs:76 | two lower-case words joined by one space are their own collapsed, trimmed form |
| Filenames.DashesSnake | dist/index.mjs:75 | in two lower-case words joined by '_' the '_' becomes a space |
| Filenames.CamelWordsCleaned | dist/index.mjs:73-76 | a camel-case name of two words plus ".ext", such as "beachSunset.jpg", is cleaned to the words in lower case with one space between them |
| Filenames.SnakeWordsCleaned | dist/index.mjs:73-76 | a snake-case name of two lower-case words plus ".ext", such as "app_ico.png", is cleaned to the words with one space between them |
| Filenames.CamelKinds | dist/index.mjs:77-78 | a name without 'i', 'l' (either case) and not ending in 'o' is neither icon-like nor a logo name |
| Filenames.IcoKinds | dist/index.mjs:77-79 | a snake-case name ending in "_ico" is icon-like, and its spaced form lacks "icon" when the first word has no 'i' |
| Filenames.CamelWordsDescribed | dist/index.mjs:72-86 | such a camel-case name is described by its two words alone: "beachSunset.jpg" gives "beach sunset" |
| Filenames.IcoNameDescribed | dist/index.mjs:72-86 | a snake-case name ending in "_ico" gets the suffix " icon": "app_ico.png" gives "app ico icon" |
| MissingAlt.ImageDocs | src/endpoints/getMissingAlt.ts:66-70 | the filter keeps exactly the documents with a filename that is an image file |
| MissingAlt.AltOrNull | src/endpoints/getMissingAlt.ts:75 | `alt` is null exactly when the where-clause counts the field as missing; otherwise it is the field's non-empty string |
| MissingAlt.GetMissingAlt | src/endpoints/getMissingAlt.ts:14-86 | 401 without a user; 500 when the query fails; otherwise 200 with a count when `countOnly=true`, else a list whose `totalDocs` is its length |
| MissingAlt.ImageDocsAppend | src/endpoints/getMissingAlt.ts:66-70 | filtering distributes over concatenation, so order is kept |
| MissingAlt.ListIsFoundImages | src/endpoints/getMissingAlt.ts:52-81 | the list is exactly the found image documents, in store order, as records |
| MissingAlt.ListedAltIsNull | src/endpoints/getMissingAlt.ts:28-34 | every listed record has `alt: null` and names an image file |
| MissingAlt.CountMatchesList | src/endpoints/getMissingAlt.ts:36-50 | the count mode reports the `totalDocs` the list mode would |
| MissingAlt.CollectionChoice | src/endpoints/getMissingAlt.ts:21-22 | a non-empty route parameter picks the collection, else the first configured one |
| SaveAlt.SaveAlt | src/endpoints/saveAlt.ts:7-44 | 401 without a user; 400 without an `imageId` or with `altText` absent (a `null` one passes); 200 exactly when both guards pass and the update succeeds; the store is unchanged on any failure |
| SaveAlt.SaveAltWritesOnlyTheAlt | src/endpoints/saveAlt.ts:28-39 | a 200 echoes the id and sets exactly that document's alt field, in the chosen collection |
| SaveAlt.EmptyAltTextAccepted | src/endpoints/saveAlt.ts:21 | `altText: ""` passes the guard and clears the alt text |
| SaveAlt.NullAltTextStored | src/endpoints/saveAlt.ts:21-37 | `altText: null` passes the guard, answers 200 and stores null, so the document counts as missing alt text again |
| SaveBulkAlt.SettleAll | src/endpoints/saveBulkAlt.ts:31-50 | one settled result per update, carrying that update's id |
| SaveBulkAlt.SettledIndependently | src/endpoints/saveBulkAlt.ts:31-48 | an update's success depends only on its own id and the store before the batch |
| SaveBulkAlt.Partition | src/endpoints/saveBulkAlt.ts:52-58 | the loop yields the ids of the successes and of the failures, in order |
| SaveBulkAlt.PartitionIsComplete | src/endpoints/saveBulkAlt.ts:52-58 | together the two lists are the settled ids, counted with multiplicity |
| SaveBulkAlt.PartitionIsSound | src/endpoints/saveBulkAlt.ts:52-58 | `success` lists only ids that succeeded, `failed` only ids that failed |
| SaveBulkAlt.PartitionKeepsOrder | src/endpoints/saveBulkAlt.ts:52-58 | splitting the settled list splits both output lists |
| SaveBulkAlt.SaveBulkAlt | src/endpoints/saveBulkAlt.ts:7-61 | 401 without a user; 400 without an update array; otherwise 200 with the partition of the settled updates and the store they leave |
| SaveBulkAlt.BulkOutcomePerId | src/endpoints/saveBulkAlt.ts:27-60 | update k is listed under `success` exactly when the store accepts it, under `failed` otherwise |
| SaveBulkAlt.EmptyUpdates | src/endpoints/saveBulkAlt.ts:20-28 | an empty list answers empty `success` and `failed` and leaves the store alone |
| Retry.CallWithBackoff | src/providers/anthropic.ts:29-69 | the while loop produces exactly the outcome and waits of the recursive retry definition |
| Retry.RetryFromShape | src/providers/anthropic.ts:34-69 | from attempt j: at most 3-j waits, the k-th being 2^(j+k)·15000 ms; earlier attempts all rate-limited; an error ends the run only when it is not a rate limit or no retry is left |
| Retry.RetryShape | src/providers/anthropic.ts:29-69 | at most four calls and three waits of 15 s, 30 s, 60 s; a value is what the last call returned |
| Retry.NonRateLimitNoWait | src/providers/anthropic.ts:56-67 | an error that is not a rate limit is rethrown at once, with no wait |
| Retry.PersistentRateLimit | src/providers/anthropic.ts:61-67 | four rate-limit errors are rethrown after waits of 15000, 30000 and 60000 ms |
| Retry.GeometricSum | src/providers/anthropic.ts:62 | waits 2^k·15000 for k < n add up to (2^n-1)·15000 |
| Retry.TotalWait | src/providers/anthropic.ts:29-69 | a call that ends after n waits has waited 15000·(2^n-1) ms in total |
| Vision.Shorten | src/providers/anthropic.ts:71 | the alt text is a prefix of the trimmed text: the whole trimmed text when it fits, otherwise exactly its first maxLength characters; it does not start with white space |
| Vision.AltTextOf | src/providers/anthropic.ts:71-72 | a call resolves exactly when the retry loop ended with a value; otherwise it rejects with the loop's error |
| Vision.GenerateWith | src/providers/anthropic.ts:22-73 | the method's result is the shortened text of the retried call built from key, model and image |
| Vision.AltTextComesFromSuccess | src/providers/anthropic.ts:34-72 | a returned alt text is the trimmed text of the one successful attempt, whole when it fits and cut to exactly maxLength characters otherwise, and that attempt was preceded only by at most three rate-limited failures |
| Anthropic.RateLimitMeans | src/providers/anthropic.ts:57-60 | an Error is a rate limit exactly when its message holds "429" or "rate limit" |
| Anthropic.AnthropicProvider.constructor | src/providers/anthropic.ts:17-20 | the key is kept as given; the model defaults to claude-sonnet-4-20250514 only when absent |
| Anthropic.AnthropicProvider.GenerateAltText | src/providers/anthropic.ts:22-73 | the configured key, else ANTHROPIC_API_KEY, is used; the result is that of the shared retry-and-shorten body |
| OpenAI.RateLimitMeans | src/providers/openai.ts:57-60 | an Error is a rate limit exactly when its message holds "429" or "rate limit" |
| OpenAI.OpenAIProvider.constructor | src/providers/openai.ts:17-20 | the key is kept as given; the model defaults to gpt-4o only when absent |
| OpenAI.OpenAIProvider.GenerateAltText | src/providers/openai.ts:22-73 | the configured key, else OPENAI_API_KEY, is used; the result is that of the shared retry-and-shorten body |
| Google.RateLimitMeans | src/providers/google.ts:57-61 | an Error is a rate limit exactly when its message holds "429", "rate limit" or "RESOURCE_EXHAUSTED" |
| Google.GoogleProvider.constructor | src/providers/google.ts:17-20 | the key is kept as given; the model defaults to gemini-1.5-flash only when absent |
| Google.GoogleProvider.GenerateAltText | src/providers/google.ts:22-74 | the configured key, else GOOGLE_GENERATIVE_AI_API_KEY, is used; the result is that of the shared retry-and-shorten body |
| ProviderFactory.CreateProvider | src/providers/index.ts:8-41 | no configuration gives OpenAI with no key and the default model; a known tag gives that class with the key and model passed on; any other tag throws "Unknown provider: <tag>" |
| GenerationSteps.QualifyUrl | src/endpoints/generateAlt.ts:31-37 | only a URL starting with '/' gets `protocol://host` in front |
| GenerationSteps.QualifyUrlIdempotent | src/endpoints/generateAlt.ts:31-37 | qualifying twice is qualifying once, and the result ends with the given URL |
| GenerationSteps.MediaTypeOf | src/endpoints/generateAlt.ts:49-56 | png if the content type mentions png, else webp, else gif, else jpeg |
| GenerationSteps.MediaTypeAfterResize | dist/index.mjs:136-150 | a re-encoded image is always JPEG; otherwise the content type decides |
| GenerationSteps.SmallImageKeepsType | dist/index.mjs:136-150 | an image of at most 4 MiB and 7500 pixels a side keeps its content type's media type |
| GenerationSteps.PromptWithoutPlaceholders | src/endpoints/generateAlt.ts:59-62 | a prompt without '{' is sent unchanged |
| GenerationSteps.PassFills | src/endpoints/generateAlt.ts:59-62 | one `replace` pass fills every occurrence of its own placeholder and leaves the other placeholders and the literal text alone |
| GenerationSteps.PromptFilled | src/endpoints/generateAlt.ts:59-62 | every placeholder of a template is filled: "{filename}" with the filename or "unknown", "{maxLength}" with the decimal limit, "{language}" with the language; the literal text is kept |
| GenerationSteps.EachPlaceholderFilled | src/endpoints/generateAlt.ts:59-62 | a template with one placeholder of each kind is filled in place |
| GenerationSteps.DefaultShapeFilled | dist/index.mjs:151 | a template shaped like the default prompt (language, filename, language, limit) is filled in place |
| GenerationSteps.FilenameSpellingLanguageIsFilledLater | src/endpoints/generateAlt.ts:59-62 | the passes run in order, so a filename spelled "{language}" is replaced by the language in the final prompt |
| GenerationSteps.DefaultPromptFilled | src/plugin.ts:10-21 | the default prompt is filled in full: the language twice, the filename (or "unknown") and the decimal limit, every other character kept |
| GenerationSteps.SuggestionText | src/endpoints/generateAlt.ts:88-91 | a text first block gives its shortened text, another block "", no block throws |
| GenerateAltLegacy.GenerateAlt | src/endpoints/generateAlt.ts:8-106 | 401 without a user; 400 without an image URL; a 200 carries a suggestion of at most maxLength; the status is 200, 400, 401 or 500 |
| GenerateAltLegacy.LegacyCallShape | src/endpoints/generateAlt.ts:26-86 | the call's image comes from the qualified URL, which ends with the given one; the call sends it with its media type, the filled prompt, the configured model and 300 tokens |
| GenerateAltLegacy.SuccessEchoesRequest | src/endpoints/generateAlt.ts:88-98 | a 200 echoes imageId, filename and the unqualified imageUrl, with the shortened first text block |
| GenerateAltLegacy.FetchFailureDetails | src/endpoints/generateAlt.ts:40-44 | a non-2xx fetch answers 500 with details "Error: Failed to fetch image: <status>" |
| GenerateAltLegacy.ThrownBecomes500 | src/endpoints/generateAlt.ts:99-105 | any error thrown in the try block becomes a 500 whose details are `String(error)` |
| GenerateAlt.RequestExtensionAgrees | dist/index.mjs:99-103 | with a filename that has an extension, the handler judges it as `isImageFile` does |
| GenerateAlt.ListedFilesPass | dist/index.mjs:99-109 | every file the missing-alt list offers passes the extension check |
| GenerateAlt.Prepare | dist/index.mjs:88-150 | 401 without a user and 400 without an image URL, before anything else |
| GenerateAlt.Finish | dist/index.mjs:192-206 | the answer is 200 or 500; a 200 needs a reply with a first block; a rethrown error becomes a 500 with its message |
| GenerateAlt.HandleGenerateAlt | dist/index.mjs:87-208 | the handler answers as Prepare decides, or as Finish decides on the retry loop's outcome |
| GenerateAlt.GuardOrder | dist/index.mjs:90-109 | 401, then 400 for a missing URL, then 400 "Not an image" naming ".ext"; none fetches |
| GenerateAlt.SvgUsesFilenameOnly | dist/index.mjs:110-119 | an SVG is answered 200 with the description derived from its filename (or URL), whatever the fetch would return |
| GenerateAlt.AskShape | dist/index.mjs:120-179 | a vision call is made only for an authorised non-SVG image whose fetch succeeded; it sends JPEG after re-encoding, the filled prompt and 100 tokens |
| GenerateAlt.AnswerFromSuccessfulAttempt | dist/index.mjs:152-206 | at most four attempts; a 200 comes from the one successful attempt after rate-limited failures only; a rethrown error is reported by its message |
| Plugin.Merge | src/plugin.ts:8-32 | each option the caller gives wins; each absent option takes its default: ['media'], the prompt, 80, 5, claude-sonnet-4-20250514, 'alt', 'English' |
| Plugin.NoOptionsGiveDefaults | src/plugin.ts:29-32 | no options give exactly the defaults, and restating the defaults changes nothing |
| Plugin.AddButton | src/plugin.ts:42-72 | a field not named altFieldName is unchanged; the alt field's afterInput becomes its list followed by one GenerateAltButton with the slug and field name |
| Plugin.PluginEndpoints | src/plugin.ts:77-99 | four endpoints, in order: GET /missing-alt, POST /generate-alt, POST /save-alt, POST /save-bulk-alt, each built from the merged options |
| Plugin.Extend | src/plugin.ts:36-119 | an untargeted collection is returned unchanged; a targeted one gains the field buttons, the four endpoints after its own, and the AltTextGenerator after its beforeListTable entries |
| Plugin.ApplyPlugin | src/plugin.ts:34-126 | the same collections in the same order, each extended with the merged options; the rest of the config passes through |
| Plugin.CollectionsKeptInOrder | src/plugin.ts:36-39 | collection i keeps its slug, and is returned unchanged when not targeted |
| Plugin.DefaultTargetsMedia | src/plugin.ts:9 | with no options, exactly the collections with slug `media` are changed |
| Plugin.OnlyAltFieldGetsButton | src/plugin.ts:42-72 | in a targeted collection a field changes exactly when named altFieldName, keeping its afterInput list and gaining one button at the end |
| Plugin.TargetedCollectionAppends | src/plugin.ts:74-119 | a targeted collection keeps its endpoints and list components first, then the four plugin endpoints and one generator with batchSize and altFieldName |
| Suggestions.Started | src/components/AltTextModal.tsx:51-61 | the entry written first has the image's id, status generating, no text and no error |
| Suggestions.CaughtMessageShown | src/components/AltTextModal.tsx:102-104 | an AbortError shows "Request timed out"; any other thrown value shows its message, or `String(e)` for a non-Error |
| Suggestions.Generated | src/components/AltTextModal.tsx:63-122 | the entry is ready with the reply's text exactly when the reply is 2xx; otherwise error with no text, and the error is "Error: " followed by the reply's error (non-2xx) or by the caught message (a rejected request) |
| Suggestions.AbortShowsTimedOut | src/components/AltTextModal.tsx:102-104 | a request aborted by the 120 s timeout shows "Error: Request timed out" |
| Suggestions.Put | src/components/AltTextModal.tsx:94-98 | `next.set(id, s)`: the key is added or replaced and the other entries are kept |
| Suggestions.PutsCommute | src/components/AltTextModal.tsx:174 | writes for different images commute |
| Suggestions.UpdateText | src/components/AltTextModal.tsx:198-207 | only an existing entry's text changes; its status and every other entry are kept |
| Suggestions.ApplySingleSave | src/components/AltTextModal.tsx:221-230 | a 2xx save sets the entry's text and status saved; otherwise nothing changes |
| Suggestions.ToSave | src/components/AltTextModal.tsx:127 | exactly the ready results with non-empty text are submitted, each no more often than it occurs among the results |
| Suggestions.MarkedSavedMeans | src/components/AltTextModal.tsx:144-153 | the keys are unchanged, and an entry is marked saved exactly when its id is in the reply's `success` |
| Suggestions.MarkSaved | src/components/AltTextModal.tsx:146-151 | the loop over `success` produces the MarkedSaved store |
| Suggestions.BulkSaveMarksOnlySubmitted | src/components/AltTextModal.tsx:126-158 | for a reply that lists only sent ids, a bulk save changes nothing but the status of submitted ready entries, to saved |
| Suggestions.IdsMeans | src/components/AltTextModal.tsx:174 | an id is among a list's ids exactly when some entry has it |
| Suggestions.PutAllKeys | src/components/AltTextModal.tsx:174 | writing a list of entries adds exactly their ids |
| Suggestions.PutAllMiss | src/components/AltTextModal.tsx:174 | an entry whose id none of the written entries has is kept |
| Suggestions.PutAllHit | src/components/AltTextModal.tsx:174 | with distinct ids each written entry ends in the store |
| Suggestions.SameIds | src/components/AltTextModal.tsx:174 | lists with the same entries have the same ids |
| Suggestions.SameAt | src/components/AltTextModal.tsx:174 | two orders of the same distinct-id entries agree at every key |
| Suggestions.CompletionOrderIrrelevant | src/components/AltTextModal.tsx:174 | the order in which the requests of a chunk complete does not change the resulting store |
| Batches.ChunkStartIsProduct | src/components/AltTextModal.tsx:166 | after k steps of `i += b`, i is k·b |
| Batches.ChunksRun | src/components/AltTextModal.tsx:166-170 | no more chunks than the list needs, and all of them without a Cancel |
| Batches.PutAllSnoc | src/components/AltTextModal.tsx:174 | writing one more entry at the end is one more Put |
| Batches.ChunkHit | src/components/AltTextModal.tsx:174 | after a chunk each of its images holds its final entry |
| Batches.ChunkMiss | src/components/AltTextModal.tsx:174 | a chunk leaves the entries of other images alone |
| Batches.SliceIsNext | src/components/AltTextModal.tsx:172-178 | the chunk holds exactly the images between two successive progress counts |
| Batches.NextChunk | src/components/AltTextModal.tsx:172 | a chunk of distinct images has distinct images |
| Batches.Position | src/components/AltTextModal.tsx:172 | image j lies in the next chunk exactly when it is between the two progress counts |
| Batches.RunHit | src/components/AltTextModal.tsx:166-179 | every image the run has reached holds its final entry |
| Batches.RunMiss | src/components/AltTextModal.tsx:166-179 | an entry no reached image has is left as it was |
| Batches.ChunksLeft | src/components/AltTextModal.tsx:166 | chunk k starts inside the list exactly when k is below the number of chunks |
| Batches.StartShift | src/components/AltTextModal.tsx:166 | chunk starts shift by one chunk for a list one chunk shorter |
| Batches.StartGrows | src/components/AltTextModal.tsx:166 | chunk starts never decrease |
| Batches.PutAllPrefix | src/components/AltTextModal.tsx:174 | writing a prefix one entry longer is one more Put |
| Batches.LoopExit | src/components/AltTextModal.tsx:166-170 | the loop stops after exactly ChunksRun chunks, and with the flag raised exactly when Cancel came before the last chunk |
| Batches.ChunkAdvance | src/components/AltTextModal.tsx:172-178 | one more chunk before any Cancel advances the progress to min(i+b, n) and appends it to the trail |
| Batches.ProgressTrailLists | src/components/AltTextModal.tsx:175-178 | the trail lists the progress after each chunk, starting at 0 |
| Batches.ProgressNeverDecreases | src/components/AltTextModal.tsx:175-178 | the progress shown never decreases and never exceeds the number of images |
| Batches.UncancelledRunCoversAll | src/components/AltTextModal.tsx:166-179 | without a Cancel the progress ends at the number of images |
| Batches.CancelFinishesChunkInFlight | src/components/AltTextModal.tsx:166-170 | a Cancel during chunk c lets that chunk finish and starts no other |
| ExplicitSaveModal.GenerationKeepsId | src/components/AltTextModal.tsx:86-113 | each final entry is about its own image |
| ExplicitSaveModal.StepAdvances | src/components/AltTextModal.tsx:166-179 | one loop pass before any Cancel moves the run's state from k chunks to k+1 |
| ExplicitSaveModal.AltTextModal.constructor | src/components/AltTextModal.tsx:23-30 | `images ?? []`, an empty store, nothing running, progress 0 of 0 |
| ExplicitSaveModal.AltTextModal.GenerateAltText | src/components/AltTextModal.tsx:48-123 | the result is the image's outcome, and the store gains that entry |
| ExplicitSaveModal.AltTextModal.GenerateChunk | src/components/AltTextModal.tsx:174 | every image of the chunk is marked generating, then gets its final entry |
| ExplicitSaveModal.AltTextModal.StartRun | src/components/AltTextModal.tsx:161-164 | the flags are reset, progress is 0 of the number of images |
| ExplicitSaveModal.AltTextModal.NextChunk | src/components/AltTextModal.tsx:172-178 | one loop pass: the chunk, the progress update, a Cancel clicked meanwhile |
| ExplicitSaveModal.AltTextModal.HandleGenerateAll | src/components/AltTextModal.tsx:160-183 | the store after exactly ChunksRun chunks, progress of that many chunks, the flag raised exactly for a Cancel before the last chunk, and generating/cancelling cleared |
| ExplicitSaveModal.AltTextModal.HandleCancel | src/components/AltTextModal.tsx:193-196 | the flag the loop checks is raised and the modal shows "Cancelling" |
| ExplicitSaveModal.AltTextModal.SaveBatch | src/components/AltTextModal.tsx:126-158 | sends the ready entries with text; nothing sent changes nothing; otherwise the reply's `success` ids are marked saved |
| ExplicitSaveModal.AltTextModal.HandleSaveAll | src/components/AltTextModal.tsx:185-191 | the request holds exactly the store's ready entries with text, and the store then reflects the reply |
| ExplicitSaveModal.AltTextModal.HandleUpdateSuggestion | src/components/AltTextModal.tsx:198-207 | the store becomes UpdateText of the old store |
| ExplicitSaveModal.AltTextModal.HandleSaveAlt | src/components/AltTextModal.tsx:209-231 | a rejected request is passed on and changes nothing; a reply applies ApplySingleSave |
| ExplicitSaveModal.ListValues | src/components/AltTextModal.tsx:186 | `Array.from(values())` lists exactly the store's entries, as many as the store has keys |
| ExplicitSaveModal.GenerateAllOutcome | src/components/AltTextModal.tsx:160-183 | every reached image holds its own outcome, ready or error; without a Cancel every image is reached |
| ExplicitSaveModal.GenerateAllKeepsOthers | src/components/AltTextModal.tsx:160-183 | entries of images Generate All did not reach are left as they were |
| AutoSaveModal.AutoFinal | dist/components/index.mjs:336-342 | the entry is saved only for a ready outcome with text that was acknowledged, otherwise it is the generation outcome |
| AutoSaveModal.GenerateAndSaveWritesOne | dist/components/index.mjs:336-342 | generate-and-save of one image is one write of its final entry |
| AutoSaveModal.AutoFinalKeepsId | dist/components/index.mjs:336-342 | each final entry is about its own image |
| AutoSaveModal.FinishAllIsPutAll | dist/components/index.mjs:352 | the chunk's generate-and-save calls write exactly the final entries |
| AutoSaveModal.AutoRunIsRun | dist/components/index.mjs:343-359 | the auto-save run is the generic chunked run with the auto-save outcomes |
| AutoSaveModal.GenerateAllOutcome | dist/components/index.mjs:343-359 | every reached image holds its final entry, never pending or generating |
| AutoSaveModal.StepAdvances | dist/components/index.mjs:343-359 | one loop pass before any Cancel moves the run's state from k chunks to k+1 |
| AutoSaveModal.AltTextModal.constructor | dist/components/index.mjs:225-231 | `images ?? []`, an empty store, nothing running, progress 0 of 0 |
| AutoSaveModal.AltTextModal.GenerateAltText | dist/components/index.mjs:245-306 | the result is the image's outcome, and the store gains that entry |
| AutoSaveModal.AltTextModal.SaveBatch | dist/components/index.mjs:307-335 | sends the ready entries with text; nothing sent changes nothing; otherwise the reply's `success` ids are marked saved |
| AutoSaveModal.AltTextModal.GenerateAndSave | dist/components/index.mjs:336-342 | the outcome is written, then saved at once when ready with text |
| AutoSaveModal.AltTextModal.GenerateChunk | dist/components/index.mjs:352 | the chunk marks every image generating, then generates and saves each |
| AutoSaveModal.AltTextModal.StartRun | dist/components/index.mjs:344-346 | the flag is reset, progress is 0 of the number of images |
| AutoSaveModal.AltTextModal.NextChunk | dist/components/index.mjs:351-356 | one loop pass: the chunk, the progress update, a Cancel clicked meanwhile |
| AutoSaveModal.AltTextModal.HandleGenerateAll | dist/components/index.mjs:343-359 | the store after exactly ChunksRun auto-save chunks, progress of that many chunks, the flag raised exactly for a Cancel before the last chunk, generating cleared |
| AutoSaveModal.AltTextModal.HandleCancel | dist/components/index.mjs:360-362 | only the flag the loop checks is raised |
| AutoSaveModal.AltTextModal.HandleUpdateSuggestion | dist/components/index.mjs:363-372 | the store becomes UpdateText of the old store |
| AutoSaveModal.AltTextModal.HandleSaveAlt | dist/components/index.mjs:373-394 | a rejected request is passed on and changes nothing; a reply applies ApplySingleSave |
| ImageRow.RowBody | src/components/ImageRow.tsx:84-163 | spinner exactly while generating, the error exactly on error, a text box exactly for ready or saved (disabled while saving), else the hint |
| ImageRow.GenerateOnlyWithoutText | src/components/ImageRow.tsx:179-195 | Generate or Retry is offered exactly when the row shows neither text nor a spinner |
| ImageRow.SaveButtonBesideTextBox | dist/components/index.js:210-219 | the Save button appears only on a ready row beside the text box, disabled together with it |
| ImageRow.SettleAsWritten | src/components/ImageRow.tsx:136-144 | as written: a resolved save clears the flag and takes the new text; a rejected save changes nothing |
| ImageRow.Settle | src/components/ImageRow.tsx:136-144 | with `finally`: the flag is always cleared; the original text changes only when the save went through |
| ImageRow.RejectedSaveLocksRow | src/components/ImageRow.tsx:136-145 | as written, a rejected save leaves the text box disabled |
| ImageRow.SettledRowIsEditable | src/components/ImageRow.tsx:126-145 | with `finally`, a ready or saved row is editable again however its save ends |
| ImageRow.BlurCommitRow.constructor | src/components/ImageRow.tsx:24-25 | not saving; the remembered text is the suggestion's text or "" |
| ImageRow.BlurCommitRow.Focus | src/components/ImageRow.tsx:133-135 | focusing remembers the box's text |
| ImageRow.BlurCommitRow.Blur | src/components/ImageRow.tsx:136-141 | a changed text is saved and the box disabled; unchanged text saves nothing |
| ImageRow.BlurCommitRow.SaveSettledAsWritten | src/components/ImageRow.tsx:136-144 | as written: a resolved save clears the flag and takes the new text; a rejected save leaves the row saving, with its old text |
| ImageRow.BlurCommitRow.SaveSettled | src/components/ImageRow.tsx:136-144 | corrected with `finally` (see Findings): the settled save updates the row as Settle says, so the flag is always cleared |
| ImageRow.SaveButtonRow.constructor | dist/components/index.js:51 | not saving |
| ImageRow.SaveButtonRow.HandleSave | dist/components/index.js:52-55 | nothing without text; otherwise the row's text is saved and the button disabled |
| ImageRow.SaveButtonRow.SaveSettledAsWritten | dist/components/index.js:52-57 | as written: the flag is cleared only when the save resolved; a rejected save leaves the button disabled |
| ImageRow.SaveButtonRow.SaveSettled | dist/components/index.js:52-57 | corrected with `finally` (see Findings): the flag is cleared however the save ends |

## Left out

- I/O is not performed. This covers HTTP fetches, the Anthropic/OpenAI/Google SDK calls, `sharp` re-encoding, base64 encoding, timers and `console.error`. Their results are parameters, and the waits are recorded rather than slept.
- Concurrency is sequential. `Promise.all` runs its callbacks one after the other in list order. `CompletionOrderIrrelevant` shows that the completion order of one chunk's generate requests does not change the store. Interleavings of user clicks with a running Generate All are reduced to one Cancel at a chunk boundary (`cancelAt`).
- A JavaScript `Map`'s insertion order is not modelled. The store is a Dafny `map`, and `ListValues` leaves the listing order open.
- Text handling is approximate. `toLowerCase` only lower-cases ASCII letters. The white-space set of `trim` and `\s` is the ECMAScript one, without Unicode category lookups.
- Text.Take and Vision.Shorten count Unicode scalar values, as a Dafny `string` does. JavaScript's `length` and `slice(0, n)` count UTF-16 code units (src/providers/anthropic.ts:71, src/providers/openai.ts:71, src/providers/google.ts:72, src/endpoints/generateAlt.ts:90, dist/index.mjs:192). For text with characters outside the Basic Multilingual Plane, such as emoji, the source keeps at most maxLength code units, while the model keeps up to maxLength scalar values, which can be up to 2·maxLength code units. The source can also cut a surrogate pair in half, leaving a lone surrogate that a Dafny `string` cannot hold. For text within the Basic Multilingual Plane the two counts agree.
- `maxLength` and `batchSize` are natural numbers. A negative `slice` bound is not modelled.
- Plugin.Merge: an option given explicitly as `undefined` overrides its default in the source; the model treats it as absent.
- ExplicitSaveModal.AltTextModal.HandleGenerateAll and AutoSaveModal.AltTextModal.HandleGenerateAll require `batchSize > 0`. With 0 the source loops forever.
- AutoSaveModal.GenerateAllOutcome assumes a bulk-save reply lists only ids it was sent (`SoundSaver`). The save-bulk-alt endpoint guarantees this (`SaveBulkAlt.PartitionIsSound`).
- Rendering is not modelled: styling, the progress bar, the `savedCount` badge, the enabled state of the Generate All, Cancel and Save All buttons, the Escape-key listener and body-overflow effects. The same goes for `AltTextGenerator.tsx` and `GenerateAltButton.tsx`, which only open the modal or call the endpoint.
- src/types.ts documents a maxLength default of 125, but src/plugin.ts uses 80. The model follows the code.
- Keys that the plugin copies unread (field types, hooks, the rest of the configuration) are one opaque value per record.
- A document store's access control and hooks are left out. The set of updates that fail is the `Store` oracle.
- SaveAlt.SaveAlt: the body is taken as already parsed. In the source `await req.json()` runs before the `try` (src/endpoints/saveAlt.ts:14, dist/index.mjs:217), so a malformed body rejects the handler's promise instead of producing a response.
- SaveBulkAlt.SaveBulkAlt: the body is taken as already parsed; a malformed body rejects the handler in the source (src/endpoints/saveBulkAlt.ts:14, dist/index.mjs:249).
- GenerateAlt.HandleGenerateAlt: the body is taken as already parsed; a malformed body rejects the handler in the source (dist/index.mjs:93).
- GenerateAltLegacy.GenerateAlt: the body is taken as already parsed; a malformed body rejects the handler in the source (src/endpoints/generateAlt.ts:15).
- Text.ReplaceAll models `replace` with a pattern that matches only its own text and has no capture groups, which is how the plugin calls it. Named groups and "$1"-style group references do not arise.

## Findings

| source | as written | input that shows it | evidently intended | confidence | as-written member | corrected member |
|---|---|---|---|---|---|---|
| src/components/ImageRow.tsx:136-144 (same pattern in dist/components/index.js:52-57) | `setIsSaving(true); await onSave(v); setIsSaving(false)`. The modal's `handleSaveAlt` has no `catch`, so a rejected save-alt request skips `setIsSaving(false)`. | A ready row edited from "old" to "new" and blurred while save-alt is unreachable. The fetch rejects, so `isSaving` stays true and the text box stays disabled. | The flag is cleared in a `finally`, so the row is editable again however the save ends. | not executed | ImageRow.SettleAsWritten, ImageRow.RejectedSaveLocksRow, ImageRow.BlurCommitRow.SaveSettledAsWritten, ImageRow.SaveButtonRow.SaveSettledAsWritten | ImageRow.Settle, ImageRow.SettledRowIsEditable, ImageRow.BlurCommitRow.SaveSettled, ImageRow.SaveButtonRow.SaveSettled |
