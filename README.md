# Mood-based wallpaper: a verified model of its resolvers and stores

The application builds a wallpaper for a mood. It joins an image with a quote.
It can keep the result in a history and share it as a link. Beneath the React
components are a few pieces of sequential logic. This project models them in
Dafny:

- **Image resolution** (`useImageAPI`, and the older `useUnsplashAPI`). There
  are four tiers: the key check, the chosen provider's adapter, Lorem Picsum,
  then the built-in image of the mood. A result from the first tier clears
  `error`; each later tier leaves its advisory there.
- **Quote resolution** (`useOpenAI`). It covers:
  - the free tier and the key check;
  - the request table of the OpenAI, Anthropic, Google and Azure endpoints;
  - reading the reply through optional chains;
  - classifying a failure by substrings of its message;
  - three static quotes for each of the nine moods.
- **The wallpaper history.** It is a most-recent-first list of at most 20
  records. It exists twice: persisted in browser storage (`historyStorage`) and
  mirrored in memory (`useWallpaperHistory`).
- **The settings key record** (`useApiKeys`). Covers the initial state, the
  load, save and clear, and the "has key" flags.
- **The custom quote dialog** (`CustomQuoteInput`). A state machine over its
  quote, author and error fields.
- **The share button** (`ShareButton`). Covers the share text, the ordered
  link parameters, the copy chain and the share dispatch.
- **The configuration tables** for moods, image providers and quote providers.

Network replies, random draws, the clock and the storage slot are inputs of the
model:

- A reply is `Reply<T> = Delivered(body) | NotOk(status) | Rejected(error)`.
- A random draw is a real `r` with `0 <= r < 1`, which picks index `floor(r * n)`.
- A storage slot is `Slot<T> = Empty | Unparsable | Holds(value)`.

Objects whose fields the code updates are classes:

- `ImageApiHook`, `UnsplashApiHook` and `QuoteApiHook` hold `loading`/`error`.
- `HistoryStore` holds the storage slot; `WallpaperHistoryHook` holds the mirror.
- `ApiKeysHook`, `QuoteForm` and `ShareButtonState` hold the rest.

Each method is proved against a function that describes the whole call
(`Resolve`, `Fetch`, `Generate`, `SaveList`, `WithoutId`, `ToggleFavoriteIn`,
`Validate`, `CopyRouteOf`, `ShareRouteOf`). The lemmas state the properties of
those functions.

Files:

- `wrappers.dfy`: Option, Result, the JavaScript thrown value, replies, storage slots.
- `text.dfy`: the JavaScript string operations used:
  - `trim` with its whitespace set;
  - `includes`;
  - decimal rendering;
  - UTF-16 `length`;
  - capitalising the first letter.
- `lists.dfy`: order-preserving `filter` and the random pick idiom.
- `types.dfy`: the records of `src/types/index.ts`.
- `moods.dfy`, `image_providers.dfy`, `ai_providers.dfy`: the configuration tables.
- `image_api.dfy`, `unsplash_api.dfy`: the two image hooks.
- `quote_api.dfy`, `quote_errors.dfy`, `static_quotes.dfy`: the quote hook.
- `history_storage.dfy`, `wallpaper_history.dfy`: the persisted history and its mirror.
- `api_keys.dfy`, `custom_quote_input.dfy`, `share_button.dfy`: settings, the dialog, the share button.

Facts about the code that shape the model:

- **Stored keys.** `useApiKeys` replaces the whole record with the parsed one
  on load. A stored record lacking a field leaves that field undefined, and
  `ApiKeys.HasKeyIn` returns `None` there, where `trim` throws.
- **Missing image key.** When the chosen image provider needs a key and none is
  usable, `useImageAPI` returns the Lorem Picsum image and sets no advisory
  (`ImageApi.KeyMissingUsesPicsum`).
- **Share link.** The code builds a share link but has no parser for it.
  What is proved is that the query splits back into its serialized entries in
  order (`ShareButton.QuerySplitsIntoPairs`).
- **Failure classes.** Quote failures are classified only by substrings of the
  thrown message. A malformed reply therefore ends as "No quote generated" or as
  the engine's `TypeError` message.
- **The older Unsplash hook.** Its tests expect `null` and the message "Unsplash
  API key not configured" when no key is set, and `null` on a 404. The code
  never produces either: it returns the mood's built-in image, leaves `error`
  untouched without a key, and sets "Failed to fetch image: <status>" on a
  failed reply. The model follows the code (`UnsplashApi.Fetch`).

## Model

| member | source | states |
|---|---|---|
| Types.MoodNameInjective | src/types/index.ts:1 | Two moods have the same string name exactly when they are the same mood, so comparing names compares moods. |
| Moods.MoodConfigOf | src/config/moods.ts:3-30 | The mood table has an entry exactly for happy, sad and motivated, and each entry's id is its own mood. |
| Moods.SearchTermsWellFormed | src/config/moods.ts:10 | Each configured mood has six search terms, all non-empty and pairwise distinct. |
| Moods.PickSearchTerm | src/hooks/useImageAPI.ts:104-105 | The term drawn with `floor(r * length)` is always one of the mood's search terms. |
| ImageProviders.ImageProviderConfigOf | src/config/imageProviders.ts:3-45 | `getImageProviderConfig(p)` is the entry whose id is `p`. |
| ImageProviders.ImageProviderList | src/config/imageProviders.ts:47-49 | The list holds every entry, in declaration order (picsum, pixabay, pexels, unsplash). |
| ImageProviders.ImageProviderListCoversTable | src/config/imageProviders.ts:47-49 | Every provider's entry is in the list, and no provider appears twice. |
| ImageProviders.FreeImageProviders | src/config/imageProviders.ts:51-53 | Every entry returned is marked free. |
| ImageProviders.FreeImageProvidersAre | src/config/imageProviders.ts:51-53 | The free providers are exactly picsum, pixabay and pexels, in table order. |
| ImageProviders.KeyRequirement | src/config/imageProviders.ts:3-41 | Only picsum needs no key, and the default provider is picsum, which needs none. |
| ImageProviders.KeyUrlWhenRequired | src/config/imageProviders.ts:17 | Every provider that needs a key has a `getKeyUrl`. |
| AiProviders.ProviderConfigOf | src/config/aiProviders.ts:3-49 | There is an entry for every quote provider except meta and groq, whose lookup is undefined; each entry's id is its key. |
| AiProviders.ProviderList | src/config/aiProviders.ts:51-53 | The list is the entries of free, openai, anthropic, google and azure, in that order. |
| AiProviders.ProviderListCoversTable | src/config/aiProviders.ts:51-53 | A provider is in the list exactly when it has a table entry. |
| AiProviders.KeyRequirement | src/config/aiProviders.ts:3-45 | Among the entries only free needs no key, and free is the default. |
| AiProviders.KeyUrlWhenRequired | src/config/aiProviders.ts:16 | Every entry that needs a key has a `getKeyUrl`. |
| Lists.Filter | src/config/imageProviders.ts:52 | `filter` keeps exactly the elements that pass the test, each taken from the input, and never grows the list. |
| Lists.Pick | src/hooks/useOpenAI.ts:191 | `xs[floor(r * xs.length)]` is an element of `xs` for every draw `0 <= r < 1`. |
| Lists.PickReaches | src/hooks/useOpenAI.ts:191 | Every element can be drawn: the draw `i / n` is valid and yields `xs[i]`. |
| Text.Trim | src/hooks/useApiKeys.ts:42-43 | `trim()` removes exactly the leading and trailing JavaScript whitespace; the result is empty exactly when the text is blank. |
| Text.TrimIdempotent | src/components/CustomQuoteInput.tsx:31 | Trimming a trimmed text changes nothing. |
| Text.UsableKeyIsNotBlank | src/hooks/useImageAPI.ts:15 | `!key \|\| !key.trim()` fails exactly when the key is present and not blank. |
| Text.OrElse | src/hooks/useOpenAI.ts:14 | `a \|\| b` on optional keys is `a` when `a` is truthy and `b` otherwise; it is truthy when either is. |
| Text.NatToString | src/hooks/useImageAPI.ts:83 | A number is rendered as at least one decimal digit, with no leading zero. |
| Text.NatToStringInjective | src/hooks/useUnsplashAPI.ts:34 | Different numbers render differently. |
| Text.Utf16Length | src/components/CustomQuoteInput.tsx:26 | A string's JavaScript length lies between its code-point count and twice that. |
| Text.TrimShortens | src/components/CustomQuoteInput.tsx:26-31 | Trimming never makes the JavaScript length longer. |
| Text.Capitalize | src/hooks/useImageAPI.ts:91 | `charAt(0).toUpperCase() + slice(1)` upper-cases the first letter and keeps the rest and the length. |
| Text.UpperAscii | src/hooks/useImageAPI.ts:91 | `toUpperCase` turns a lower-case ASCII letter into the upper-case letter at the same position in the alphabet and leaves other characters alone. |
| ImageApi.KeyRequiredMatchesTable | src/hooks/useImageAPI.ts:15 | The hard-coded providers that need a key are exactly those whose table entry requires one. |
| ImageApi.MoodSeeds | src/hooks/useImageAPI.ts:68-74 | Each image mood has five picsum seeds. |
| ImageApi.MoodSeedsShape | src/hooks/useImageAPI.ts:68-72 | A mood's seeds are consecutive hundreds, and no seed belongs to two moods. |
| ImageApi.PicsumInfoIds | src/hooks/useImageAPI.ts:79 | The info lookup by `seed % 1000` asks for the same photo for the i-th motivated and the i-th happy seed, and for id 0 for seed 1000. |
| ImageApi.PicsumSeed | src/hooks/useImageAPI.ts:74-75 | The drawn seed is one of the mood's seeds. |
| ImageApi.PicsumInfoUrl | src/hooks/useImageAPI.ts:79 | The info request goes to the picsum info endpoint with the photo id `seed % 1000`, followed by "/info". |
| ImageApi.InfoUrlNamesSeed | src/hooks/useImageAPI.ts:79-83 | The info request for a seed names the same photo id as the record `picsum-<seed>` exactly when the seed is below 1000. |
| ImageApi.PicsumInfoAsksForRecordPhoto | src/hooks/useImageAPI.ts:75-83 | The info request asks about the photo the record is named after exactly when the seed is below 1000: always for happy, never for motivated, and for sad except on seed 1000. |
| ImageApi.PicsumAuthor | src/hooks/useImageAPI.ts:80-93 | The author is "Lorem Picsum" when the info reply is not ok, or when it is ok but has no author or an empty one. An ok reply's non-empty author is returned as is. It is missing only when the request or its JSON parse throws. |
| ImageApi.PicsumImage | src/hooks/useImageAPI.ts:66-96 | `fetchPicsumImage` produces a record exactly when its info step does not throw. |
| ImageApi.PicsumRecordShape | src/hooks/useImageAPI.ts:82-96 | A picsum record is called "picsum-<seed>" for one of the mood's seeds. Its alt text is the capitalised mood plus " mood wallpaper", and it is credited to the info author or "Lorem Picsum". Its three large URLs coincide. |
| ImageApi.FallbackUrls | src/hooks/useImageAPI.ts:239-244 | A built-in image's raw, full and regular URLs coincide. |
| ImageApi.FallbackImageShape | src/hooks/useImageAPI.ts:235-276 | The built-in image of a mood is called "fallback-<mood>", is credited to Free Images/free, and differs between moods. |
| ImageApi.FallbackIsNotPicsum | src/hooks/useImageAPI.ts:83 | A picsum image never has the id of a built-in image. |
| ImageApi.FetchFailure | src/hooks/useImageAPI.ts:120-125 | A `TypeError` whose message contains "fetch" becomes a network error; anything else is rethrown unchanged. |
| ImageApi.PixabayRecord | src/hooks/useImageAPI.ts:127-143 | A Pixabay record is called "pixabay-<id>", uses the tags or "<mood> mood wallpaper" as alt text, and credits the hit's user. |
| ImageApi.PixabayChecks | src/hooks/useImageAPI.ts:100-119 | The Pixabay checks pass exactly for a usable key and an ok reply with at least one hit. |
| ImageApi.PixabayAsWritten | src/hooks/useImageAPI.ts:99-144 | As written, the Pixabay adapter fails on every input. |
| ImageApi.PixabayCorrected | src/hooks/useImageAPI.ts:99-144 | With `data` in scope, the adapter produces an image exactly when the checks pass, and the image is built from one of the hits. |
| ImageApi.PexelsRecord | src/hooks/useImageAPI.ts:182-198 | A Pexels record is called "pexels-<id>", uses the alt text or "<mood> mood wallpaper", and credits the photographer. |
| ImageApi.PexelsChecks | src/hooks/useImageAPI.ts:147-174 | The Pexels checks pass exactly for a usable key and an ok reply with at least one photo; a 401 reply is an invalid key. |
| ImageApi.PexelsAsWritten | src/hooks/useImageAPI.ts:146-199 | As written, the Pexels adapter fails on every input. |
| ImageApi.PexelsCorrected | src/hooks/useImageAPI.ts:146-199 | With `data` in scope, the adapter produces an image exactly when the checks pass, and the image is built from one of the photos. |
| ImageApi.UnsplashAdapter | src/hooks/useImageAPI.ts:201-233 | The Unsplash adapter returns the reply body exactly for a usable key and an ok reply; a 401 reply is an invalid key. |
| ImageApi.PixabayDataScope | src/hooks/useImageAPI.ts:116-127 | On a good reply the written Pixabay adapter fails because `data` is out of scope; the corrected one returns the record of the drawn hit. |
| ImageApi.PexelsDataScope | src/hooks/useImageAPI.ts:171-182 | The same for Pexels: the written adapter fails and the corrected one returns the drawn photo's record. |
| ImageApi.ProviderDownAdvice | src/hooks/useImageAPI.ts:48 | The advisory after a provider failure starts with the provider's id. |
| ImageApi.RouteOf | src/hooks/useImageAPI.ts:15-38 | The first tier is one of four routes, each given by an if-and-only-if. A key-requiring provider without a usable key goes to picsum; picsum goes to picsum; a key-requiring provider with a key goes to its adapter; any other id goes to the built-in image. |
| ImageApi.FirstTier | src/hooks/useImageAPI.ts:13-40 | The try block yields the built-in image for an unknown provider, the adapter's image when it produced one, and the picsum record on the picsum routes. |
| ImageApi.AfterProviderFailure | src/hooks/useImageAPI.ts:46-55 | After a provider failure, picsum is retried. When it produces, its image comes with "<provider> temporarily unavailable"; otherwise the built-in image comes with the retry advisory. |
| ImageApi.ResolveSteps | src/hooks/useImageAPI.ts:9-64 | A whole call returns the first tier's image with no error. If that tier fails, failing picsum gives the built-in image with the "All image services" advisory. Any other failed provider gives the picsum retry or the built-in image, with their advisories. |
| ImageApi.KeyMissingUsesPicsum | src/hooks/useImageAPI.ts:15-18 | Without a usable key a key-requiring provider's adapter is never called and does not affect the result; the picsum image comes with no advisory. |
| ImageApi.Dispatch | src/hooks/useImageAPI.ts:23-38 | picsum goes to picsum, a key-requiring provider with a key calls its adapter and returns its image, and an unknown id returns the built-in image with no advisory. |
| ImageApi.ProviderFailureTiers | src/hooks/useImageAPI.ts:46-55 | A failing key-requiring provider gives picsum's image with "<provider> temporarily unavailable. Using free images.", or the built-in image with the retry advisory. |
| ImageApi.PicsumFailureTier | src/hooks/useImageAPI.ts:56-60 | A failing picsum provider returns the built-in image with "All image services temporarily unavailable. Using built-in fallback.". |
| ImageApi.FailureCauseIgnored | src/hooks/useImageAPI.ts:41-60 | The image and the advisory do not depend on why the adapter failed. |
| ImageApi.ImageComesFromATier | src/hooks/useImageAPI.ts:9-64 | The image is the adapter's, a picsum record or the built-in image; the advisory is null exactly when the first tier succeeded. |
| ImageApi.AsWrittenNeverFromAdapter | src/hooks/useImageAPI.ts:27-32 | With the adapters as written, a pixabay or pexels call never returns that provider's own image. |
| ImageApi.ImageApiHook.constructor | src/hooks/useImageAPI.ts:5-7 | An omitted provider is picsum; nothing is loading and there is no error. |
| ImageApi.ImageApiHook.FetchImageByMood | src/hooks/useImageAPI.ts:9-64 | The returned image and the final `error` are those of the whole-call description, and `loading` ends false. |
| UnsplashApi.WhitespaceKeyIsSent | src/hooks/useUnsplashAPI.ts:10-15 | The check is for truthiness only: a whitespace key still sends a request, although the trimmed check elsewhere would refuse it. |
| UnsplashApi.RandomPhotoRequest | src/hooks/useUnsplashAPI.ts:21-31 | The request asks for a random landscape photo for one of the mood's search terms and sends "Client-ID <key>". |
| UnsplashApi.FallbackImage | src/hooks/useUnsplashAPI.ts:48-89 | The built-in image is called "fallback-<mood>" and credited to Unsplash. |
| UnsplashApi.MotivatedReusesHappyUrls | src/hooks/useUnsplashAPI.ts:74-85 | The motivated built-in image uses the happy image's URLs, under its own id and description. |
| UnsplashApi.AgreesWithImageApiFallback | src/hooks/useUnsplashAPI.ts:48-89 | The two hooks' built-in images share ids and descriptions, and their URLs match except for motivated; the credits differ. |
| UnsplashApi.FailureMessage | src/hooks/useUnsplashAPI.ts:33-41 | A status failure reads "Failed to fetch image: <status>"; a thrown Error gives its message; any other thrown value gives "Failed to fetch image". |
| UnsplashApi.StatusMessagesDiffer | src/hooks/useUnsplashAPI.ts:34 | Status advisories name the status: two statuses give the same advisory only if equal, and never the generic one. |
| UnsplashApi.Fetch | src/hooks/useUnsplashAPI.ts:9-46 | A request is sent exactly when the argument key or the build-time key is truthy. Without one, the built-in image comes back and the error is untouched. An ok reply is returned as is, with no error. A failed one gives the built-in image, with `FailureMessage` of the reply as the advisory. |
| UnsplashApi.ImageSource | src/hooks/useUnsplashAPI.ts:39-42 | When the request fails, the image is the mood's built-in one, whatever the failure or the key. |
| UnsplashApi.UnsplashApiHook.constructor | src/hooks/useUnsplashAPI.ts:5-7 | Nothing is loading and there is no error. |
| UnsplashApi.UnsplashApiHook.FetchImageByMood | src/hooks/useUnsplashAPI.ts:9-46 | The image, `error` and the request sent are those of `Fetch`. `loading` is untouched without a key and false after a request. |
| StaticQuotes.FallbackQuotes | src/hooks/useOpenAI.ts:142-188 | Each of the nine moods has three static quotes. |
| StaticQuotes.FallbackQuotesWellFormed | src/hooks/useOpenAI.ts:142-188 | Every static quote has a non-empty text and a non-empty author. |
| StaticQuotes.FallbackQuote | src/hooks/useOpenAI.ts:190-191 | `getFallbackQuote(mood)` is one of that mood's three quotes. |
| QuoteErrors.ThrownMessage | src/hooks/useOpenAI.ts:120 | An Error gives its message; any other thrown value gives "Failed to generate quote". |
| QuoteErrors.Classify | src/hooks/useOpenAI.ts:124-132 | First match wins: "401", "not valid" or "unauthorized" means an invalid key. Otherwise "403", "quota" or "limit" means an exceeded quota. Otherwise "fetch" or "network" means unavailable. Anything else is another error. |
| QuoteErrors.KeyMissing | src/hooks/useOpenAI.ts:18 | The missing-key advisory starts with the provider's id. |
| QuoteErrors.Advisory | src/hooks/useOpenAI.ts:124-132 | Every classified advisory starts with the provider's id. |
| QuoteErrors.StatusHeadHarmless | src/hooks/useOpenAI.ts:91 | "<provider> API error: " holds no character that could start a keyword or a "4xx" code. |
| QuoteErrors.StatusClassification | src/hooks/useOpenAI.ts:91 | A status error is classified by its digits alone: "401" in them means an invalid key, else "403" an exceeded quota, else another error. |
| QuoteErrors.Status401And403 | src/hooks/useOpenAI.ts:124-127 | HTTP 401 is reported as an invalid key and HTTP 403 as an exceeded quota, for every provider that sends requests. |
| QuoteApi.MoodPrompt | src/hooks/useOpenAI.ts:26-30 | Only happy, sad and motivated have a prompt. |
| QuoteApi.BuildRequest | src/hooks/useOpenAI.ts:32-82 | A request is built exactly for openai, anthropic, google, and azure with an endpoint. Azure without an endpoint throws "Azure endpoint is required"; free, meta and groq throw "Unsupported provider". Every request is a POST with the JSON content type first, for the mood's prompt. |
| QuoteApi.RequestCarriesKey | src/hooks/useOpenAI.ts:36-78 | openai sends "Bearer <key>"; anthropic sends x-api-key and the API version; google puts the key at the end of the URL; azure sends api-key to a URL under the given endpoint. |
| QuoteApi.Extract | src/hooks/useOpenAI.ts:98-109 | Extracted text is always already trimmed. |
| QuoteApi.ExtractWellFormed | src/hooks/useOpenAI.ts:98-109 | Each provider's documented reply layout yields its text, trimmed. |
| QuoteApi.WalkChoices | src/hooks/useOpenAI.ts:101 | `data.choices[0]?.message?.content` reaches the text of a well-formed OpenAI or Azure reply. |
| QuoteApi.WalkAnthropic | src/hooks/useOpenAI.ts:104 | `data.content[0]?.text` reaches the text of a well-formed Anthropic reply. |
| QuoteApi.WalkGoogle | src/hooks/useOpenAI.ts:107 | `data.candidates[0]?.content?.parts[0]?.text` reaches the text of a well-formed Google reply. |
| QuoteApi.ExtractMissingOrEmptyList | src/hooks/useOpenAI.ts:101-107 | A reply without the list throws, since `[0]` is not optional; an empty list gives no text. |
| QuoteApi.TryBlock | src/hooks/useOpenAI.ts:25-118 | A request is sent exactly when the table builds one. The block succeeds only on an ok reply whose extracted text is non-empty, returning it with author "AI Generated". |
| QuoteApi.QuoteOf | src/hooks/useOpenAI.ts:115-135 | A static outcome draws one of the mood's static quotes; a reply outcome is the provider's quote. |
| QuoteApi.Conclude | src/hooks/useOpenAI.ts:119-135 | After an attempt the error is cleared exactly on success. A success returns the provider's quote; a throw gives a static quote and the advisory classified from the thrown message. |
| QuoteApi.NoRequestPaths | src/hooks/useOpenAI.ts:10-20 | The free tier and a missing or blank key make no request and use the static list. Free leaves `error` alone; a missing key sets "<provider> API key missing. Using free quotes.". |
| QuoteApi.FailsBeforeRequest | src/hooks/useOpenAI.ts:68-81 | Azure without an endpoint, meta and groq send no request and end with a static quote and an advisory. |
| QuoteApi.AlwaysAQuote | src/hooks/useOpenAI.ts:111-135 | Outside the free tier, the error is null exactly when the quote is the provider's. That quote comes from an ok reply, is non-empty and trimmed, and is credited "AI Generated". |
| QuoteApi.StatusAdvisories | src/hooks/useOpenAI.ts:90-92 | A reply that is not ok is classified by its status digits alone. |
| QuoteApi.QuoteApiHook.constructor | src/hooks/useOpenAI.ts:4-6 | An omitted provider is the free tier; nothing is loading and there is no error. |
| QuoteApi.QuoteApiHook.Attempt | src/hooks/useOpenAI.ts:22-138 | The attempt's source, `error` and request are those that `Conclude` gives for the try block, and `loading` ends false. |
| QuoteApi.QuoteApiHook.GenerateQuote | src/hooks/useOpenAI.ts:8-139 | The quote, `error` and request are those of the whole-call description. `loading` is false after an attempt and untouched otherwise. |
| HistoryStorage.WallpaperId | src/utils/historyStorage.ts:9 | A record id starts with "wallpaper-". |
| HistoryStorage.TitleShape | src/utils/historyStorage.ts:11 | A title is "<mood> - " followed by the first 30 characters of the quote and "...". |
| HistoryStorage.NewRecord | src/utils/historyStorage.ts:7-12 | A new record keeps the wallpaper unchanged, has the given id and time and the title, and has no favourite flag. |
| HistoryStorage.SaveList | src/utils/historyStorage.ts:15 | Saving puts the new record first, the earlier records after it in order, and keeps at most 20. |
| HistoryStorage.SaveDropsOnlyOldest | src/utils/historyStorage.ts:4-15 | Saving onto fewer than 20 records drops nothing; saving onto 20 drops exactly the oldest. |
| HistoryStorage.WithoutId | src/utils/historyStorage.ts:33 | Removal keeps exactly the records with another id. |
| HistoryStorage.WithoutIdAppend | src/utils/historyStorage.ts:33 | Removal keeps the order: removing from a concatenation removes from each part. |
| HistoryStorage.WithoutUnknownId | src/utils/historyStorage.ts:33 | Removing an id no record has leaves the list unchanged. |
| HistoryStorage.ToggleFavoriteIn | src/utils/historyStorage.ts:43-47 | Toggling negates the flag of every record with that id, where unset counts as false. It changes no other field and no other record. |
| HistoryStorage.ToggleTwice | src/utils/historyStorage.ts:45 | Toggling twice restores a set flag, but an unset flag ends as false. |
| HistoryStorage.ToggleTwiceRestores | src/utils/historyStorage.ts:45 | Toggling twice is the identity when every record with that id has its flag set. |
| HistoryStorage.HistoryStore.constructor | src/utils/historyStorage.ts:3 | The store starts with the given storage slot. |
| HistoryStorage.HistoryStore.GetWallpaperHistory | src/utils/historyStorage.ts:21-29 | The load gives the stored list, or [] when nothing is stored or the stored text does not parse. |
| HistoryStorage.HistoryStore.SaveWallpaperToHistory | src/utils/historyStorage.ts:6-19 | Saving returns the new record and stores it in front of the loaded list, cut to 20. |
| HistoryStorage.HistoryStore.RemoveWallpaperFromHistory | src/utils/historyStorage.ts:31-35 | The loaded list is stored back without the records with that id. |
| HistoryStorage.HistoryStore.ClearWallpaperHistory | src/utils/historyStorage.ts:37-39 | The entry is removed, so the next load gives []. |
| HistoryStorage.HistoryStore.ToggleWallpaperFavorite | src/utils/historyStorage.ts:41-49 | The loaded list is stored back with the favourite flags of that id toggled. |
| WallpaperHistory.KeepLatestIsSaveList | src/hooks/useWallpaperHistory.ts:33 | The mirror's `[saved, ...prev.slice(0, 19)]` equals the store's `[saved, ...history].slice(0, 20)`, so at most 20 entries. |
| WallpaperHistory.FavoritesOf | src/hooks/useWallpaperHistory.ts:57 | The favourites are exactly the entries with a truthy flag. |
| WallpaperHistory.WithMood | src/hooks/useWallpaperHistory.ts:61 | The mood filter keeps exactly the entries whose mood name equals the string. |
| WallpaperHistory.FiltersPreserveOrder | src/hooks/useWallpaperHistory.ts:56-62 | Both filters keep the history's order. |
| WallpaperHistory.WithMoodByName | src/hooks/useWallpaperHistory.ts:60-62 | Asking by a mood's name returns exactly the entries of that mood. |
| WallpaperHistory.WallpaperHistoryHook.constructor | src/hooks/useWallpaperHistory.ts:12-13 | The history starts empty and loading. |
| WallpaperHistory.WallpaperHistoryHook.LoadHistory | src/hooks/useWallpaperHistory.ts:16-29 | The mount effect sets the history to the loaded list, so the mirror matches the store, and loading ends. |
| WallpaperHistory.WallpaperHistoryHook.SaveWallpaper | src/hooks/useWallpaperHistory.ts:31-35 | The store saves the new record and the mirror puts it first, keeping at most 20. A mirror in step with the store stays in step. |
| WallpaperHistory.WallpaperHistoryHook.RemoveWallpaper | src/hooks/useWallpaperHistory.ts:37-40 | Both store and mirror lose exactly the entries with that id, in order; a mirror in step stays in step. |
| WallpaperHistory.WallpaperHistoryHook.ClearHistory | src/hooks/useWallpaperHistory.ts:42-45 | Both are emptied, the total is 0 and the mirror is in step. |
| WallpaperHistory.WallpaperHistoryHook.ToggleFavorite | src/hooks/useWallpaperHistory.ts:47-54 | Both toggle the flag of the entries with that id only; a mirror in step stays in step. |
| WallpaperHistory.WallpaperHistoryHook.GetFavorites | src/hooks/useWallpaperHistory.ts:56-58 | `getFavorites()` returns exactly the entries with a truthy flag. |
| WallpaperHistory.WallpaperHistoryHook.GetByMood | src/hooks/useWallpaperHistory.ts:60-62 | `getByMood(mood)` returns exactly the entries of that mood. |
| WallpaperHistory.WallpaperHistoryHook.FavoritesCount | src/hooks/useWallpaperHistory.ts:74 | The number of favourites never exceeds the total. |
| ApiKeys.HasKeyIn | src/hooks/useApiKeys.ts:42-43 | Checking a key fails exactly when its field is absent; otherwise it is true exactly when the key is not blank. |
| ApiKeys.HasKeyIsUsableKey | src/hooks/useApiKeys.ts:42-43 | A present key counts exactly when the quote hook's key check accepts it. |
| ApiKeys.DefaultsHaveNoKeys | src/hooks/useApiKeys.ts:8-11 | The initial record has both fields and neither counts as a key. |
| ApiKeys.WhitespaceIsNoKey | src/hooks/useApiKeys.ts:42-43 | A key of spaces does not count; one with text between spaces does. |
| ApiKeys.ApiKeysHook.constructor | src/hooks/useApiKeys.ts:8-11 | The first render holds the defaults, whatever is stored. |
| ApiKeys.ApiKeysHook.Mount | src/hooks/useApiKeys.ts:14-24 | A stored record that parses replaces the whole state, with no merge. An absent or unparsable entry leaves the state as it was. |
| ApiKeys.ApiKeysHook.SaveApiKeys | src/hooks/useApiKeys.ts:27-30 | The state and the "mood-wallpaper-api-keys" entry both become exactly the given record. |
| ApiKeys.ApiKeysHook.ClearApiKeys | src/hooks/useApiKeys.ts:33-36 | The defaults come back and the entry is removed. |
| ApiKeys.ApiKeysHook.HasUnsplashKey | src/hooks/useApiKeys.ts:42 | `hasUnsplashKey` is defined when the field exists, and true exactly when the key is not blank. |
| ApiKeys.ApiKeysHook.HasOpenaiKey | src/hooks/useApiKeys.ts:43 | `hasOpenaiKey` is defined when the field exists, and true exactly when the key is not blank. |
| ApiKeys.Loaded | src/hooks/useApiKeys.ts:14-24 | A fresh hook after mount holds the stored record, or the defaults when none parses. |
| ApiKeys.SaveAndClearSurviveReload | src/hooks/useApiKeys.ts:27-36 | A saved record is read back by the next mount; after a clear the next mount has the defaults and no key. |
| CustomQuoteInput.Validate | src/components/CustomQuoteInput.tsx:20-29 | A blank quote is refused as missing. A non-blank quote over 200 JavaScript characters is refused as too long. Otherwise it passes. Each case is an if-and-only-if. |
| CustomQuoteInput.AuthorArgument | src/components/CustomQuoteInput.tsx:31 | The author argument is the trimmed author, or undefined exactly when it is blank. |
| CustomQuoteInput.SavedArgumentsAreClean | src/components/CustomQuoteInput.tsx:31 | An accepted quote reaches `onSave` trimmed, non-empty and within 200 characters; a given author arrives trimmed and non-empty. |
| CustomQuoteInput.LongBlankQuoteIsEmpty | src/components/CustomQuoteInput.tsx:21-29 | A whitespace quote of any length reports a missing quote, not a long one. |
| CustomQuoteInput.LengthIsMeasuredUntrimmed | src/components/CustomQuoteInput.tsx:26 | 200 letters pass, but the same letters with a trailing space are refused as too long. |
| CustomQuoteInput.QuoteForm.constructor | src/components/CustomQuoteInput.tsx:16-18 | The fields start empty and no callback has been made. |
| CustomQuoteInput.QuoteForm.HandleSave | src/components/CustomQuoteInput.tsx:20-36 | A refused quote only sets the error. An accepted one calls `onSave` with the trimmed arguments, then `onClose`, and clears every field. |
| CustomQuoteInput.QuoteForm.HandleClose | src/components/CustomQuoteInput.tsx:38-43 | The fields are cleared and `onClose` is called once, with nothing saved. |
| CustomQuoteInput.QuoteForm.EditQuote | src/components/CustomQuoteInput.tsx:84-87 | Editing the quote sets the text and clears the error. |
| CustomQuoteInput.QuoteForm.EditAuthor | src/components/CustomQuoteInput.tsx:110 | Editing the author sets it and leaves the error. |
| ShareButton.ShareText | src/components/ShareButton.tsx:17-19 | The share text starts with 'Check out this <mood> wallpaper I created! "<text>" '. |
| ShareButton.ShareTextCredit | src/components/ShareButton.tsx:18 | The rest of the share text is "- <author>" when the author is non-empty, and nothing otherwise. |
| ShareButton.ShareParams | src/components/ShareButton.tsx:22-27 | The link parameters are mood, quote, then author only when it is non-empty, then image, with the wallpaper's values. |
| ShareButton.ShareParamNames | src/components/ShareButton.tsx:22-27 | The names come in the order mood, quote, [author], image, with no name twice. |
| ShareButton.ShareUrl | src/components/ShareButton.tsx:28 | The link is the page origin followed by "?" and the query. |
| ShareButton.QuerySplitsIntoPairs | src/components/ShareButton.tsx:28 | With an encoder that escapes "&", the query splits at "&" back into its serialized entries, in order. |
| ShareButton.CopyRouteOf | src/components/ShareButton.tsx:58-79 | The Clipboard API wins exactly when it resolves. Manual copying is needed exactly when it does not and the legacy copy does not return true. |
| ShareButton.ShareRouteOf | src/components/ShareButton.tsx:86-106 | Twitter and facebook are chosen by name; native share exactly for another platform when it is available; otherwise copy link. |
| ShareButton.ShareButtonState.constructor | src/components/ShareButton.tsx:12-15 | No menu, no copy mark, no error, no dialog, and nothing done to the page. |
| ShareButton.ShareButtonState.LegacyCopy | src/components/ShareButton.tsx:31-49 | The legacy copy succeeds exactly when the command returns true. The temporary text area is removed on both paths, and nothing else changes. |
| ShareButton.ShareButtonState.HandleCopyLink | src/components/ShareButton.tsx:51-80 | The copy mark is set exactly when a step succeeds, with the link on the clipboard and no error. Otherwise the manual-copy error and the dialog appear. |
| ShareButton.ShareButtonState.CopiedTimerFires | src/components/ShareButton.tsx:63 | The two-second timer removes the copy mark and nothing else. |
| ShareButton.ShareButtonState.HandleShare | src/components/ShareButton.tsx:82-108 | Twitter and facebook open their share URLs, and native share gets title, text and link. Otherwise the link is copied, with the copied flag, clipboard, error and dialog of `HandleCopyLink`. The menu closes on every route. |

## Left out

- Network I/O: every `fetch` is an input reply, and the JSON bodies of image replies are given as the decoded fields the code reads.
- The numeric and floating-point request parameters (`max_tokens`, `temperature`) and the body schemas: a request body records only its layout and mood.
- QuoteApi.Extract: the engine's own `TypeError` wording for a non-optional access on undefined is an input (`engineMessage`), not derived.
- Console logging and warnings are not modelled.
- UnsplashApi.Fetch: a reply body that does not parse as JSON is modelled as a rejected reply, because that is where its error surfaces.
- Concurrency: the join of image and quote resolution in the page, the stale-result race on reselecting a mood, and `handleCopyLink` not being awaited inside `handleShare` are not modelled; one call is modelled at a time.
- `Math.random`, `Date.now` and `toISOString` are parameters of the model (a real draw, a number of milliseconds, a suffix string and a timestamp string).
- ShareButton.HandleShare: `encodeURIComponent` and the `URLSearchParams` serializer are parameters, so the encoded text is not computed.
- ShareButton.ShareButtonState.CopiedTimerFires: the `setTimeout` scheduling is a separate step the caller takes, not a clock.
- Rendering, animation and the `maxLength` attributes of the dialog's fields are not modelled; only the handlers are.
- HistoryStorage.TitleShape: `slice(0, 30)` is taken on characters, not UTF-16 code units; the two differ only for quotes with characters outside the Basic Multilingual Plane.
- HistoryStorage.HistoryStore.GetWallpaperHistory: stored text that parses to a value other than an array (`null`, an object) is not representable; the code returns it as is, and the next save, remove, toggle or mirror filter then throws a `TypeError`. A slot holds either nothing, unparsable text or a list.
- ApiKeys.HasKeyIn: a stored field that holds a non-string JSON value is not representable; stored records map names to strings.
- The page's wiring of the settings hook (fields it reads that the hook does not return) is not modelled.
- WallpaperHistory.WallpaperHistoryHook.LoadHistory: the mount effect's `catch` is unreachable, because `getWallpaperHistory` catches every error itself, so only the normal path is modelled.
- The Ionic and Capacitor shell, image download and the clipboard self-test are not part of this model.

## Findings

| source | as written | input that shows it | evidently intended | confidence | as-written member | corrected member |
|---|---|---|---|---|---|---|
| src/hooks/useImageAPI.ts:116-127 | `data` is declared with `const` inside the `try` block and read after it, so the Pixabay adapter throws a `ReferenceError` after every successful reply | provider "pixabay", a usable key, an ok reply with one hit | the record of a randomly drawn hit | not executed | ImageApi.PixabayAsWritten | ImageApi.PixabayCorrected |
| src/hooks/useImageAPI.ts:171-182 | the same scoping of `data` in the Pexels adapter | provider "pexels", a usable key, an ok reply with one photo | the record of a randomly drawn photo | not executed | ImageApi.PexelsAsWritten | ImageApi.PexelsCorrected |

`ImageApi.PixabayDataScope` and `ImageApi.PexelsDataScope` exhibit the inputs.
The hook is modelled both ways. `ImageApi.AsWrittenNeverFromAdapter` shows that
with the adapters as written, a pixabay or pexels call always ends in a lower tier.
