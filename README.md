# PQRS retrieval core, modelled in Dafny

This project models the retrieval core of a PQRS assistant for a city's
infrastructure office. PQRS means *peticiones, quejas, reclamos y
sugerencias*: citizens' petitions, complaints, claims and suggestions. The
model covers four parts:

- **Splitting** (`chunker.dfy`, module `Chunker`). `SimpleTextSplitter` cuts
  a document into overlapping chunks.
  - Each window is cut after the last occurrence of the highest-priority
    separator found in it.
  - The next window starts `overlap` characters before the cut, or at the cut
    when that index would not be positive.
  - The loop is the imperative method `TextSplitter.SplitLong`, called by
    `TextSplitter.SplitText` for texts longer than the chunk size. Both are
    proved equal to the specification function `Split`.
  - Bounds, coverage and the cut rule are proved about `Split`. So is the
    exact condition for the loop to make progress.
  - The loop does not always end. `OneSpaceDocumentNeverSplits` shows that
    500 letters, one space and 3000 letters make the production splitter
    (size 1000, overlap 200) restart from index 301 forever. `SplitText`
    therefore requires `SplitTerminates`, which holds exactly when the
    Python loop returns.
- **Vector store** (`vector_store.dfy`, module `VectorStore`). The class
  `VectorStoreService` holds the collection as a field `entries`, one entry
  per stored chunk.
  - `AddDocument` adds one entry per chunk, with id `"{titulo}_{i}"` and
    merged metadata.
  - `SearchSimilar` builds the category filter, queries the collection and
    turns each distance into a similarity.
  - `Stats` reports the entry count and a status.
  - `ClearCollection` deletes every id.
  - The embedding model and the collection's nearest-neighbour query are
    function fields. What the query must promise (at most `n` hits, all
    stored, all passing the filter) is the predicate `HonoursQuery`. The
    search lemmas take it as a hypothesis.
- **Answering** (`llm_service.dfy`, module `LlmService`). This covers how the
  language model's classification label is mapped to a category and which
  category a request is answered under. It also covers the searches made,
  the confidence score, the recommendations, the reference list, the context
  string, the orchestration of `generate_pqrs_response` with its fallback,
  and `chat_response`.
  - Each model call is a parameter holding the text it returned, or `None`
    when it raised.
  - The search is a function parameter. `StoreSearcher` plugs in the vector
    store, which links answers to stored chunks.
- **Records** (`models.dfy`, module `Models`). The two enumerations, the
  request, response, document and chat records, and the field constraints
  enforced when each record is built.

`text.dfy` (module `Text`) states the Python string built-ins the core uses:
`str.strip`, `str.lower`, `str(int)` and `str.join`.

## Model

| member | source | states |
|---|---|---|
| Text.Strip | app/services/llm_service.py:45 | The result is an infix of the input with no blank at either end; only whitespace is cut off before and after it |
| Text.StripPadded | app/services/llm_service.py:45 | Stripping whitespace around a word that has no blank at its ends gives back exactly that word |
| Text.Lower | app/services/llm_service.py:45 | Lower-casing keeps the length and maps each character on its own |
| Text.NatToString | app/services/vector_store.py:99 | `str(i)` of a chunk index is a non-empty string of decimal digits, beginning with `0` exactly when the index is 0, and then being just `0`, so there is no leading zero |
| Text.NatToStringRoundTrip | app/services/vector_store.py:99 | Reading the digits back gives the number: `int(str(n)) == n` |
| Text.NatToStringInjective | app/services/vector_store.py:99 | Different chunk indices print differently |
| Text.Join | app/services/llm_service.py:82-85 | `"\n\n".join(parts)` starts with the first part and its length is the parts' total length plus one separator between each two; no parts give the empty text (the contents in order come from `JoinAppend`) |
| Text.JoinAppend | app/services/llm_service.py:82-85 | Joining one more part appends the separator and that part, so the joined text keeps the parts' order |
| Models.Tipos | app/models.py:6-10 | `TipoPQRS` lists four members with pairwise distinct values |
| Models.EveryTipoListed | app/models.py:6-10 | Every `TipoPQRS` is one of those four |
| Models.Categorias | app/models.py:12-20 | `CategoriaPQRS` lists eight members with pairwise distinct values |
| Models.EveryCategoriaListed | app/models.py:12-20 | Every `CategoriaPQRS` is one of those eight |
| Models.CategoriaValuesAreSnakeWords | app/models.py:12-20 | Every category value is a non-empty lower-case snake_case word |
| Models.CategoriaFromValue | app/models.py:12-20 | Looking a category up by value finds the member with that value, and finds one whenever some member has it |
| Models.NewPQRSRequest | app/models.py:22-30 | A request is built exactly when the title has 5 to 200 characters and the description at least 10; the category stays optional and is kept as given |
| Models.NewPQRSResponse | app/models.py:32-39 | A response is built exactly when `confianza` lies in [0, 1]; the given lists and category are kept |
| Models.NewPQRSResponseWithDefaults | app/models.py:35-39 | A response built without the two lists has both empty |
| Models.NewDocumento | app/models.py:41-46 | A document built without metadata has the empty metadata map |
| Models.NewChatMessage | app/models.py:48-50 | A chat message is built exactly when the message is non-empty; the context stays optional |
| Chunker.RFind | app/services/vector_store.py:37 | `rfind(sep, start, end)` returns the highest position of an occurrence lying wholly inside `[start, end)`, or -1 when there is none |
| Chunker.CutFrom | app/services/vector_store.py:35-40 | The separator scan cuts strictly after the window start and at most at the window end |
| Chunker.CutWhenNoSeparator | app/services/vector_store.py:35-40 | When no separator occurs in the window, the cut is the window end |
| Chunker.CutAfterFirstSeparator | app/services/vector_store.py:35-40 | The cut sits right after the last in-window occurrence of the first separator, in priority order, that occurs in the window at all |
| Chunker.Cut | app/services/vector_store.py:28-40 | Every non-final window is cut inside itself: `start < cut <= start + chunk_size` |
| Chunker.CutIsScan | app/services/vector_store.py:28-40 | The cut of a visited window is the separator scan of `[start, start + chunk_size)` |
| Chunker.CutterInside | app/services/vector_store.py:35-40 | The splitter's cut rule keeps every cut inside its window |
| Chunker.WindowBounds | app/services/vector_store.py:28-42 | Every chunk `[start, end)` lies inside the text, is non-empty and spans at most `chunk_size` characters |
| Chunker.NextStart | app/services/vector_store.py:43-46 | The next start is the cut or `cut - overlap`, lies between them, and is positive whenever the cut is |
| Chunker.StepFacts | app/services/vector_store.py:42-46 | After a non-final chunk the next start is positive and lies in `[end - overlap, end]`; it moves forward exactly when `end - overlap > start` or the reset applies |
| Chunker.FinalIsAbsorbing | app/services/vector_store.py:30-32 | Once a window reaches the end of the text, the loop stays there |
| Chunker.SameStartSameFuture | app/services/vector_store.py:27-46 | The loop state is the start alone: equal starts have equal futures |
| Chunker.CycleNeverEnds | app/services/vector_store.py:27-46 | A non-final start that comes back makes the loop run forever |
| Chunker.ProgressImpliesTermination | app/services/vector_store.py:27-46 | If every non-final iteration moves the start forward, the loop reaches its last window |
| Chunker.NoGapBefore | app/services/vector_store.py:42-46 | No window starts after the furthest end reached so far, so no character is skipped |
| Chunker.CoveredUpTo | app/services/vector_store.py:24-46 | Every position before the furthest chunk end lies in some chunk |
| Chunker.ChunkAt | app/services/vector_store.py:31-42 | Each chunk has between 1 and `chunk_size` characters |
| Chunker.LastIndex | app/services/vector_store.py:27-32 | When the loop returns, some window reaches the end of the text |
| Chunker.BeforeLastIsInner | app/services/vector_store.py:27-32 | Every window before the last one takes the loop body's cutting branch |
| Chunker.InnerChunk | app/services/vector_store.py:28-46 | A non-final window yields the chunk `text[start:cut]` with `0 <= start < cut <= start + chunk_size < len(text)`, and the next start is `NextStart(cut)` |
| Chunker.LastChunk | app/services/vector_store.py:30-32 | Appending `text[start:]` at the final window completes the split |
| Chunker.FinalChunk | app/services/vector_store.py:30-32 | The last chunk starts inside the text and runs to its end |
| Chunker.Split | app/services/vector_store.py:19-48 | The split always has at least one chunk, and a text no longer than `chunk_size` is its only chunk |
| Chunker.SplitEndsWithRest | app/services/vector_store.py:24-48 | The split of a long text is the cut chunks of the windows before the first final one, then the rest of the text |
| Chunker.SplitChunkSizes | app/services/vector_store.py:21-42 | A text no longer than `chunk_size` (the empty text included) comes back as `[text]`; otherwise every chunk has between 1 and `chunk_size` characters |
| Chunker.EveryCharacterCovered | app/services/vector_store.py:24-46 | Every character of the text lies in at least one chunk window up to the last one |
| Chunker.SplitChunkIsWindow | app/services/vector_store.py:27-46 | The i-th chunk returned is the slice of the i-th window: non-empty, inside the text and at most `chunk_size` long |
| Chunker.SplitCoversText | app/services/vector_store.py:24-48 | Every character of the text lies inside some returned chunk, at the place that chunk was cut from |
| Chunker.NoOverlapAlwaysTerminates | app/services/vector_store.py:43-46 | With overlap 0 every iteration moves forward, so the split always returns |
| Chunker.WindowCutAfterSpace | app/services/vector_store.py:35-40 | In a window whose only separator is a single space, the cut falls right after that space |
| Chunker.SingleSpaceCycle | app/services/vector_store.py:27-46 | A text whose only separator is a single space near the start of the first window restarts from the same window forever |
| Chunker.OneSpaceDocumentNeverSplits | app/services/vector_store.py:27-58 | With the production settings, 500 letters, one space and 3000 letters restart at 301 forever, so the split never returns |
| Chunker.TextSplitter.constructor | app/services/vector_store.py:14-17 | The splitter keeps the given size and overlap (defaults 1000 and 200) and the fixed separator list |
| Chunker.TextSplitter.FindCut | app/services/vector_store.py:35-40 | The separator loop with early exit computes the specified cut |
| Chunker.TextSplitter.NextChunk | app/services/vector_store.py:28-46 | One loop iteration returns the chunk `text[start:cut]` and the next start `cut - overlap`, or `cut` when that is not positive |
| Chunker.TextSplitter.SplitText | app/services/vector_store.py:19-48 | When the loop returns, the result is `Split`; a short text gives `[text]` |
| Chunker.TextSplitter.SplitLong | app/services/vector_store.py:27-48 | The `while` loop over a text longer than `chunk_size`, when it returns, produces `Split`: each pass appends its window's chunk and the final window appends the rest |
| VectorStore.ChunkId | app/services/vector_store.py:99 | The id of chunk `i` is the title, an underscore, then decimal digits that read back as `i` and have no leading zero (chunk 0 ends in `_0`), so that underscore is the id's last |
| VectorStore.ChunkIdsUnique | app/services/vector_store.py:99 | Equal chunk ids come from the same title and the same chunk index |
| VectorStore.ChunkMetadata | app/services/vector_store.py:100-106 | A chunk's metadata has the four built-in keys plus the document's own keys; every user key keeps its value and overrides a built-in one of the same name; each built-in key not overridden holds the title, category value, chunk index or creation date |
| VectorStore.ChunkEntries | app/services/vector_store.py:97-114 | A document gives one entry per chunk, in chunk order |
| VectorStore.ChunkEntriesWellFormed | app/services/vector_store.py:97-114 | The entries of one document have pairwise distinct ids and hold their chunk's text |
| VectorStore.Added | app/services/vector_store.py:92-121 | The number of chunks stored before returning: all of them with no fault, none when embedding fails, and the chunks before the failing `add` otherwise |
| VectorStore.WhereFilter | app/services/vector_store.py:129-138 | The filter is absent exactly when no category is given, and is otherwise `{"categoria": value}` |
| VectorStore.Formatted | app/services/vector_store.py:143-151 | One hit per returned document, in reply order, with similarity `1 - distance`; nothing when a metadata record or a distance is missing |
| VectorStore.Search | app/services/vector_store.py:123-155 | A failed embedding or a failed query gives no hits; what the hits are otherwise is stated by `Formatted`, `SearchHitsAreStoredAndFiltered` and `SearchOfEmptyCollection` |
| VectorStore.SearchHitsAreStoredAndFiltered | app/services/vector_store.py:123-155 | Under the collection's promise, a search returns at most `n` hits, all of them stored chunks, and a category search returns only chunks of that category |
| VectorStore.SearchOfEmptyCollection | app/services/vector_store.py:123-155 | Searching an empty collection returns nothing |
| VectorStore.Ids | app/services/vector_store.py:173 | Listing the collection gives one id per entry, in order |
| VectorStore.DeleteIds | app/services/vector_store.py:175 | Deleting ids keeps exactly the entries whose id is not listed |
| VectorStore.DeleteIdsDistributes | app/services/vector_store.py:175 | Deletion works entry by entry: deleting from two runs of entries gives the two results one after the other, so the kept entries stay in order |
| VectorStore.DeletingOtherIdsKeepsAll | app/services/vector_store.py:175 | Deleting ids that no entry carries leaves the collection exactly as it was |
| VectorStore.DeletingCoveredIdsEmpties | app/services/vector_store.py:173-175 | Deleting a list of ids that covers every entry leaves nothing |
| VectorStore.DeletingAllIdsEmpties | app/services/vector_store.py:173-175 | Deleting every listed id empties the collection |
| VectorStore.StatusOf | app/services/vector_store.py:161-164 | The status is `activo` exactly when the count is positive, and `vacío` otherwise |
| VectorStore.VectorStoreService.constructor | app/services/vector_store.py:51-59 | The service opens the persisted collection unchanged and builds the splitter with size 1000 and overlap 200 |
| VectorStore.VectorStoreService.AddDocument | app/services/vector_store.py:88-121 | The collection grows by the document's entries up to the failing `add`, with no roll-back; the result is true exactly when every chunk was added |
| VectorStore.VectorStoreService.SearchSimilar | app/services/vector_store.py:123-155 | The formatting loop returns the specified search: nothing on any failure, otherwise the formatted reply to the filtered query |
| VectorStore.VectorStoreService.Stats | app/services/vector_store.py:157-167 | The count is the number of entries with its status, or `{0, "error"}` when counting raises |
| VectorStore.VectorStoreService.ClearCollection | app/services/vector_store.py:169-180 | Success empties the collection; failure leaves it unchanged; the call succeeds unless listing raises or a needed delete raises, so a second clear succeeds whenever listing does |
| LlmService.ClassifyReply | app/services/llm_service.py:45-63 | The stripped, lower-cased label maps to the category with that value; any other label, or a failed call, maps to `OTROS` |
| LlmService.ClassifierRecognisesEveryLabel | app/services/llm_service.py:45-59 | Each of the eight category values, with any surrounding whitespace, is classified as its own category |
| LlmService.DetectCategory | app/services/llm_service.py:71 | A category given in the request is used unchanged; only without one does the classifier decide |
| LlmService.PqrsSearch | app/services/llm_service.py:74-79 | A PQRS searches for `"{titulo} {descripcion}"` with five results, filtered by the detected category |
| LlmService.ChatSearch | app/services/llm_service.py:213 | A chat message searches for itself with three results and no filter |
| LlmService.SumBounds | app/services/llm_service.py:202 | A sum of values between `lo` and `hi` lies between `len * lo` and `len * hi` |
| LlmService.MeanBetween | app/services/llm_service.py:202 | `sum(similitudes) / len(similitudes)` lies between the smallest and largest bounds of the similarities |
| LlmService.Similarities | app/services/llm_service.py:201 | One similarity per hit, in order |
| LlmService.Clamp | app/services/llm_service.py:205 | The clamped value lies in [0.3, 0.95]; it is 0.95 at or above 0.95, 0.3 at or below 0.3, and the value itself in between |
| LlmService.Cents | app/services/llm_service.py:207 | The nearest whole number of hundredths, with a tie going to the even one |
| LlmService.Round2 | app/services/llm_service.py:207 | Rounding to two decimals moves a value by at most 0.005 |
| LlmService.Round2StaysInRange | app/services/llm_service.py:207 | Rounding keeps a value of [0.3, 0.95] inside that interval |
| LlmService.Round2OfHundredths | app/services/llm_service.py:207 | Rounding leaves a whole number of hundredths unchanged |
| LlmService.Confidence | app/services/llm_service.py:195-207 | No hits give exactly 0.0; otherwise the value lies in [0.3, 0.95] within 0.005 of the clamped mean, and is exactly 0.95 when the mean is at least 0.95 and exactly 0.3 when it is at most 0.3; every value lies in [0, 1] |
| LlmService.BaseRecommendations | app/services/llm_service.py:171-175 | Three base recommendations |
| LlmService.CategoryRecommendations | app/services/llm_service.py:177-192 | Roads, public lighting and public spaces add two items of advice; every other category adds none |
| LlmService.Recommendations | app/services/llm_service.py:169-193 | The list starts with the three base items followed by the category's advice: five items for roads, lighting and public spaces, three otherwise |
| LlmService.ContextPart | app/services/llm_service.py:83 | A hit's block is `"Documento: {titulo}\nContenido: {documento}"`, and there is none when the title key is missing |
| LlmService.ScalarText | app/services/llm_service.py:83 | `str()` of a metadata value: a string is itself, an integer is its sign and decimal digits, without a leading zero, read back as its value, a boolean is `True` or `False` |
| LlmService.ContextParts | app/services/llm_service.py:82-85 | The blocks exist exactly when every hit has a title; then there is one block per hit, in retrieval order |
| LlmService.Context | app/services/llm_service.py:82-85 | The context exists exactly when every hit has a title, is empty without hits, and starts with the first hit's block |
| LlmService.ContextKeepsRetrievalOrder | app/services/llm_service.py:82-85 | One more hit puts its block after all earlier ones, separated by a blank line |
| LlmService.References | app/services/llm_service.py:102 | There is one reference per hit, in retrieval order, with repeats kept; there are none when a hit lacks a string title |
| LlmService.ReferencesMatchContext | app/services/llm_service.py:82-102 | When references exist, the context exists too and its i-th block names the i-th reference |
| LlmService.ReferencesOfStoredHits | app/services/llm_service.py:102 | The titles of hits that are stored chunks of one category are titles of stored chunks of that category |
| LlmService.FallbackResponse | app/services/llm_service.py:109-120 | The fallback has confidence 0.0, category `OTROS`, no references and exactly one recommendation, and is a valid response |
| LlmService.GeneratePqrsResponse | app/services/llm_service.py:65-120 | The answer is always valid. With titled hits and a model reply, it carries the stripped reply, the references, the confidence and recommendations for the detected category, and that category; otherwise it is the fallback |
| LlmService.ReferencesComeFromDetectedCategory | app/services/llm_service.py:71-102 | Answered from the vector store, a PQRS cites at most five chunks, each stored under the category it was answered in |
| LlmService.ChatResponse | app/services/llm_service.py:209-246 | The answer is the stripped model reply when the hits all have titles and the call succeeds, and the fixed apology otherwise |
| LlmService.ChatContextFromStoredChunks | app/services/llm_service.py:213-218 | Answered from the vector store, the chat context draws on at most three stored chunks of any category |

## Left out

- The collection library itself is not modelled. That covers the persistent
  client, creating the collection and nearest-neighbour ranking. The query is
  an uninterpreted function. Its promise (`HonoursQuery`) is assumed by the
  lemmas that need it, not proved.
- VectorStore.VectorStoreService.AddDocument: the collection is modelled as
  appending every added entry, even when its id is already stored. Adding a
  document whose title was added before therefore stores a second entry
  under the same id; `VectorStoreService.Stats` counts it twice and a search
  can return both. The collection library instead skips an id it already
  holds, or rejects the `add`; only the rejection is representable, as
  `AddFailsAt`.
- The embedding model is an uninterpreted function from text to a sequence
  of reals. A failed embedding call is a fault argument.
- The language model and all prompt text are left out. Each call is
  represented only by the text it returned, or by `None` when it raised or
  returned no text. The user's optional chat context only enters the prompt,
  so it does not affect any modelled result.
- Clock readings are parameters: the whole seconds in the request id and the
  elapsed time. So is the document's creation date, taken as its ISO-8601
  text.
- Floating point is not modelled. Similarities, the mean and the confidence
  are exact reals, and `round(x, 2)` is exact round-half-even on reals. The
  binary representation of a float can make Python round a tie differently.
- Metadata values are strings, integers or booleans. Float values and the
  library's rejection of other value types appear only as a failing `add`
  (`AddFailsAt`).
- Text.Lower: lowers ASCII letters only; Python's full Unicode case mapping
  is not modelled. This does not change any classification. The only
  non-ASCII characters whose lower case contains an ASCII letter are U+0130,
  which lowers to `i` followed by U+0307, and U+212A, which lowers to `k`.
  No category value contains `k`, and U+0307 is not ASCII. So
  `ClassifyReply` maps every reply to the category Python's `.lower()`
  would give.
- `VectorStoreService._initialize`, logging, configuration, the HTTP routes,
  the scripts and the browser code are left out. None of them computes
  anything the core's results depend on.
- The process-wide singletons and concurrent requests are left out.
  Concurrency is not modelled.
- Chunker.TextSplitter.SplitText: requires `SplitTerminates`, because the
  Python loop of `split_text` does not end on some inputs. Its behaviour on those inputs
  is proved to be an endless loop (`CycleNeverEnds`,
  `OneSpaceDocumentNeverSplits`) rather than modelled as a result.
  `VectorStoreService.AddDocument` inherits this precondition.
- Chunker.TextSplitter.SplitText: a chunk size below 1 or a negative overlap
  is outside `Settings.Valid`, so it is not modelled. The service only builds
  the splitter with 1000 and 200.
- VectorStore.VectorStoreService.ClearCollection: the code returns `False`
  when listing or deleting raises, and the model follows the code. The
  model assumes the library's `delete` is all-or-nothing: a failed delete
  leaves every entry in place. The code only catches the exception, so a
  delete that fails part-way through would leave a partly cleared
  collection, which the model does not capture.
- LlmService.GeneratePqrsResponse: assumes pydantic 2. Under pydantic 2, a
  hit whose title is not a string makes the response record's `List[str]`
  validation fail, and the model takes the fallback path, as the exception
  handler does. The configuration also runs under pydantic 1. There,
  `List[str]` would convert an integer or boolean title to a string and
  return a normal answer. The model does not capture that case.
