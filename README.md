# English dictionary front-end: a Dafny model

This project models the logic of a small browser dictionary. It has three parts:

- **History store** (`History`, from `src/App.tsx`). An ordered list of saved words `{word, definition, timestamp}`. Saving is an upsert keyed on the lower-cased word:
  - a known word keeps its place and its first casing, and takes the new definition and time stamp;
  - a new word is put in front.
  - Removal filters out every entry with a given time stamp.
  - The list is mirrored into durable storage, but only when it is non-empty, and it is read back at start-up.
- **Definition panel** (`Definition`, from `src/components/WordDefinition.tsx`):
  - seven state cells, updated step by step by one run of the fetch effect;
  - the pure extraction from the decoded response: the first entry, its phonetic text, its first audio, its first part of speech, and all its senses flattened in order;
  - the save action;
  - the precedence of the render: loading, then error, then nothing, then the card.
- **Search box** (`Search`, from `src/components/DictionarySearch.tsx`). The typed text is trimmed and emitted only when non-empty. Only the Enter key searches.

`Text` holds the character-level stand-ins for `toLowerCase` and `trim`. `Wrappers` holds `Option`.

Each component whose fields the source updates is a class: `HistoryStore`, `WordDefinition` and `DictionarySearch`. Its methods are proved against pure functions (`Upsert`, `RemoveStamp`, `Mirror`, `Begin`, `Settle`, `Fetch`, `SaveRequestOf`, `AfterSave`, `SearchRequest`, `KeyRequest`). The lemmas about those functions carry the properties.

The clock, the network, and storage are parameters:
- the save time is `now`;
- the answer to a request is an `Outcome`: `NotOk`, `Threw(message)` or `Ok(entries)`;
- what storage holds is an `Option<Snapshot>`, where a snapshot is `Unparsable`, `NotArray` or `ItemArray(items)`;
- whether a storage write succeeds is `written`. When `localStorage.setItem` throws, the effect catches the exception and storage keeps its previous value.

Two behaviours of the code that one might expect otherwise:
- On re-save, the stored `word` keeps the casing of the first save (`src/App.tsx:62` spreads the old item and overwrites only `definition` and `timestamp`). It does not take the new casing.
- An error message is shown only when it is non-empty (`if (error)` tests truthiness). So a thrown `Error` with an empty message shows the card, not an error line.

## Model

| member | source | states |
|---|---|---|
| Text.Lower | src/App.tsx:57 | lower-casing keeps the length and lowers each character |
| Text.LowerIdempotent | src/App.tsx:57 | lowering twice equals lowering once |
| Text.TrimStart | src/components/DictionarySearch.tsx:11 | the result is a suffix of the input, everything dropped is white space, and it does not start with white space |
| Text.TrimEnd | src/components/DictionarySearch.tsx:11 | the result is a prefix of the input, everything dropped is white space, and it does not end with white space |
| Text.Trim | src/components/DictionarySearch.tsx:11 | the result is an infix with only white space around it; it is empty iff the input is all white space, otherwise it starts and ends with non-space |
| Text.TrimOfTrimmed | src/components/DictionarySearch.tsx:11 | a string with no white space at either end is its own trim |
| Text.TrimIdempotent | src/components/DictionarySearch.tsx:11 | trimming twice equals trimming once |
| History.RefreshMatches | src/App.tsx:60-64 | the update path keeps length and every word; matching entries get the new definition and `now`, the others are identical |
| History.Upsert | src/App.tsx:55-72 | afterwards the word is present with the new definition and time; length grows by one iff the word was absent; entries of other words survive |
| History.UpsertNewWord | src/App.tsx:68-71 | with no case-insensitive match, the result is the new item followed by the old list unchanged |
| History.UpsertKnownWord | src/App.tsx:58-66 | with a match, length and every index's word are unchanged, so the original casing is kept; matches get the new definition and `now`, the rest are untouched |
| History.UpsertKeepsUnique | src/App.tsx:55-72 | if no two entries share a lower-cased word before a save, none do after |
| History.UpsertUniqueRewritesOne | src/App.tsx:57-66 | under that invariant, re-saving a known word replaces exactly the one matching entry, in place |
| History.ResaveKeepsSlot | src/App.tsx:46-72 | save run@1000, jump@2000, run@3000 gives [jump@2000, run "to operate"@3000] |
| History.CaseInsensitiveResave | src/App.tsx:57-64 | saving "Cat" then "cat" leaves one entry, still spelled "Cat", with the second definition and time |
| History.RemoveStamp | src/App.tsx:77 | the result holds exactly the entries whose time stamp differs from `t`, so every colliding entry goes |
| History.RemoveConcat | src/App.tsx:77 | removal distributes over concatenation, so relative order is preserved |
| History.RemoveAbsent | src/App.tsx:77 | removing a time stamp that no entry carries is the identity |
| History.RemoveIdempotent | src/App.tsx:77 | removing the same time stamp twice equals removing it once |
| History.RemoveKeepsUnique | src/App.tsx:75-81 | removal preserves the no-duplicate-words invariant |
| History.Mirror | src/App.tsx:31-40 | a non-empty history is written whole; an empty one leaves storage as it was |
| History.Rehydrate | src/App.tsx:14-28 | start-up takes the stored array if there is one, and `[]` if storage is absent, unparsable or not an array |
| History.ReloadRoundTrip | src/App.tsx:17-34 | after a write of a non-empty history, reloading gives it back element for element |
| History.RemovingLastEntryIsUndoneByReload | src/App.tsx:32-34 | removing the only entry leaves the old snapshot in storage, so a reload restores the removed entry |
| History.MirrorEveryChange | src/App.tsx:30-40 | the corrected mirror always writes an array, whatever storage held before |
| History.ReloadRoundTripEveryChange | src/App.tsx:30-40 | with the corrected mirror, reloading gives back every history, including the empty one |
| History.HistoryStore.constructor | src/App.tsx:14-40 | the history is the rehydrated value, and the mirror effect runs once as on mount; a failed write leaves storage as it was |
| History.HistoryStore.Persist | src/App.tsx:31-40 | after a successful write, storage becomes `Mirror` of the old storage and the history; a write that throws leaves storage unchanged |
| History.HistoryStore.SaveToHistory | src/App.tsx:46-73 | the history becomes `Upsert` of the old one; storage holds it if the write succeeds and is unchanged if the write throws; uniqueness is preserved |
| History.HistoryStore.RemoveFromHistory | src/App.tsx:75-81 | the history becomes `RemoveStamp` of the old one; storage follows `Mirror` if the write succeeds and is unchanged if it throws; uniqueness is preserved; removing the last entries from a mirrored store leaves the old list in storage |
| Definition.FirstAudio | src/components/WordDefinition.tsx:60 | none iff no phonetics entry has an audio; otherwise the non-empty audio of the first entry that has one |
| Definition.LeadPartOfSpeech | src/components/WordDefinition.tsx:66 | present iff the first meaning has a non-empty part of speech, and then it is that value |
| Definition.Flatten | src/components/WordDefinition.tsx:70-77 | every sense of every meaning is in the result, and every sense in the result comes from some meaning |
| Definition.FlattenLength | src/components/WordDefinition.tsx:70-77 | the flattened length is the sum of the per-meaning sense counts |
| Definition.FlattenConcat | src/components/WordDefinition.tsx:70-77 | flattening distributes over concatenation, so meanings order and within-meaning order are kept |
| Definition.FlattenHead | src/components/WordDefinition.tsx:70-77 | the first flattened sense is the first sense of the first meaning that has one |
| Definition.Begin | src/components/WordDefinition.tsx:43-45 | starting a fetch sets loading, clears the error and the saved flag, and leaves senses, phonetic, audio and part of speech untouched |
| Definition.Settle | src/components/WordDefinition.tsx:47-84 | loading always ends; non-OK gives "Word not found"; a thrown non-Error gives "Failed to fetch definition"; an Error gives its message; failures leave the extracted fields; success sets senses and phonetic |
| Definition.SettleAudio | src/components/WordDefinition.tsx:60-63 | on success the audio URL is the first non-empty audio, and it keeps its previous value when there is none |
| Definition.SettlePartOfSpeech | src/components/WordDefinition.tsx:57-68 | part of speech is overwritten only by a non-empty first-meaning value; phonetic is always overwritten, with '' when absent |
| Definition.Fetch | src/components/WordDefinition.tsx:40-88 | an empty word changes no state; otherwise the run ends not loading and not saved |
| Definition.FetchEndsSettled | src/components/WordDefinition.tsx:43-84 | a run ends not loading, not saved, and with an error iff the outcome is not an OK response with an entry |
| Definition.SaveRequestOf | src/components/WordDefinition.tsx:90-95 | a save emits (word, first sense's definition) iff there is a sense |
| Definition.AfterSave | src/components/WordDefinition.tsx:90-95 | the saved flag is set iff there is a sense, and nothing else changes |
| Definition.Render | src/components/WordDefinition.tsx:104-153 | Loading iff loading; else Error iff the error is non-empty; else nothing iff the word is empty; else a card with the word, senses and saved flag; the part-of-speech label shows iff it is non-empty, the phonetic line iff the phonetic text is non-empty, and the audio button iff both phonetic text and audio URL are non-empty, each with the cell's value |
| Definition.NotFoundShowsMessage | src/components/WordDefinition.tsx:49-51 | a non-OK answer renders "Word not found" and no card, so no save |
| Definition.FoundShowsCard | src/components/WordDefinition.tsx:70-79 | an OK answer with an entry renders a card with the flattened senses, not yet saved |
| Definition.StaleAudioShownAsWritten | src/components/WordDefinition.tsx:60-68 | looking up "dog" (no audio, no part of speech) after "cat" (audio, noun) shows a play button for cat's audio and labels dog a noun |
| Definition.SettleFresh | src/components/WordDefinition.tsx:57-79 | the corrected success path has a non-empty audio URL iff the entry has an audio, a non-empty part of speech iff the first meaning has one, and otherwise agrees with `Settle` |
| Definition.FreshAudioMatchesEntry | src/components/WordDefinition.tsx:60-68 | with the corrected success path, the card has an audio button iff the entry has a phonetic text and an audio, and its part-of-speech label is exactly the first meaning's |
| Definition.WordDefinition.constructor | src/components/WordDefinition.tsx:31-37 | every state cell starts at its initial value |
| Definition.WordDefinition.ReceiveWord | src/App.tsx:91-96 | the panel takes the new word prop and its cells are not reset |
| Definition.WordDefinition.FetchDefinition | src/components/WordDefinition.tsx:40-88 | the state becomes `Fetch` of the old state, the word and the outcome |
| Definition.WordDefinition.BeginFetch | src/components/WordDefinition.tsx:43-45 | the state becomes `Begin` of the old state |
| Definition.WordDefinition.Complete | src/components/WordDefinition.tsx:47-84 | the state becomes `Settle` of the old state and the outcome |
| Definition.WordDefinition.HandleSave | src/components/WordDefinition.tsx:90-95 | returns `SaveRequestOf` and moves the state to `AfterSave` |
| Definition.WordDefinition.View | src/components/WordDefinition.tsx:104-153 | the panel shows the loading line iff it is loading, and in every case renders `Render` of its current cells and word |
| Search.SearchRequest | src/components/DictionarySearch.tsx:10-15 | emits iff the trimmed input is non-empty; whitespace-only input emits nothing; the emitted word is its own trim and has no white space at either end |
| Search.KeyRequest | src/components/DictionarySearch.tsx:17-21 | only "Enter" searches, with exactly `SearchRequest`; any other key emits nothing |
| Search.DictionarySearch.constructor | src/components/DictionarySearch.tsx:8 | the input starts empty |
| Search.DictionarySearch.Change | src/components/DictionarySearch.tsx:29 | the input takes the typed text |
| Search.DictionarySearch.HandleSearch | src/components/DictionarySearch.tsx:10-15 | emits the trimmed input iff it is non-empty, exactly `SearchRequest` of the input, and does not modify the input |
| Search.DictionarySearch.HandleKeyPress | src/components/DictionarySearch.tsx:17-21 | emits `KeyRequest` of the key and the input |

## Left out

- Network I/O and decoding. `fetch`, `response.json()`, `JSON.parse`, `JSON.stringify` and `localStorage` are foreign code. Their results are the parameters `Outcome` and `Option<Snapshot>`.
- Decoding failures beyond the `Snapshot` cases. A stored array is taken as it is (`Array.isArray` is the only check), so `ItemArray` holds `Item`s whatever the stored elements are.
- Response entries with a missing `phonetics` or `meanings`, or a meaning with a missing `definitions`. The declared type makes them required, and they are sequences in the model. In the code a missing `definitions` would throw inside `flatMap`, after phonetic, audio and part of speech were already set, leaving the error state with those cells updated; the model does not cover that partial update. Absent `phonetic`, `partOfSpeech`, `example` and `synonyms` are modelled as `Option`, and an absent `audio` as `''`.
- An empty response array makes `data[0]` undefined, and the engine throws a `TypeError`. Its message (`UndefinedEntryMessage`) is the V8 text and differs between engines.
- Text.Lower: lowers only ASCII `A`-`Z`. Full Unicode case mapping is not modelled.
- Text.IsSpace: is the ASCII white space and line terminators plus U+00A0 and U+FEFF. The other Unicode space separators and U+2028/U+2029 are not modelled.
- History.Upsert: uses one `now` for the whole save. The source calls `Date.now()` separately for a new item (`src/App.tsx:52`) and for each matching item (`src/App.tsx:62`), so those times may differ by milliseconds.
- Timestamps are unbounded integers. JavaScript number precision is not modelled.
- Asynchrony. The model does not cover React effect scheduling, or a stale response arriving after a later word's request. A fetch is modelled as `BeginFetch` and then `Complete`, with nothing in between.
- Audio playback (`src/components/WordDefinition.tsx:97-102`) is a fire-and-forget browser call.
- `console.log` / `console.error` output, JSX markup, and styling.
- The search history list (`src/components/SearchHistory.tsx`) is rendering and callback wiring only, with locale-dependent date formatting.
- The proxy endpoint (`functions/api/[[word]].ts`) and the build configuration (`rsbuild.config.ts`) are not part of this model.

## Findings

| source | as written | input that shows it | evidently intended | confidence | as-written member | corrected member |
|---|---|---|---|---|---|---|
| src/components/WordDefinition.tsx:60-68 | `audioUrl` and `partOfSpeech` are set only when the new entry has them; otherwise they keep the previous word's values | look up "cat" (audio `cat.mp3`, part of speech noun), then "dog" (phonetic text, no audio, no part of speech): dog's card plays `cat.mp3` and labels dog a noun | a word without audio offers no audio control, and a word without a part of speech shows none | medium, not executed | Definition.StaleAudioShownAsWritten | Definition.FreshAudioMatchesEntry |
| src/App.tsx:32-34 | the mirror writes only a non-empty history | save one word, remove it, reload: the removed entry is back | "Save history to localStorage whenever it changes" (`src/App.tsx:30`), the empty history included | medium, not executed | History.RemovingLastEntryIsUndoneByReload | History.ReloadRoundTripEveryChange |

The classes `WordDefinition` and `HistoryStore` model the code as written. The corrected members `SettleFresh` and `MirrorEveryChange` stand beside `Settle` and `Mirror`, with the intended property proved about each.
