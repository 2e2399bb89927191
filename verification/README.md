# simplykb in Dafny

A model of the simplykb Go SDK and proofs of what it promises. simplykb keeps text documents, their chunks and
the chunks' embeddings in one Postgres database, and searches them by keyword and by vector. Four parts of it hold
properties that depend neither on SQL nor on the network; all four are modelled here.

**Writing a document** (`Tables`, `AtomicDocuments`, `WriteProtocol` and the other `Write*` modules). A writer reads
the document without a lock, decides whether the write is a no-op, a metadata refresh or a reindex, splits and embeds
without a lock, and then opens a transaction under a per-document advisory lock, where it reads again with `FOR
UPDATE`, compares, and commits or restarts, at most once. `WriteProtocol` is this as a step system for any number of
concurrent calls of any kind: one step is one SQL statement, one unlocked call out, or one local decision, and each
transaction's writes are private until it commits. Deletes run as they do in the code, without the advisory lock.
Nothing about atomicity is built in: `WriteInvariant` states what holds between steps, `WriteGuarantee` what one
call's step may do to the others, `WriteLocalSteps` to `WriteSafety` prove it step by step, and `WriteTheorems` and
`WriteProgress` draw the conclusions, `WriteOrigin` ties every call to the move that made it, in runs, and
`WriteWitness` shows runs that reach what they speak of. `WriteTransaction`
is the code of the transaction's statements, loop included, on an object that holds the rows written so far, proved
against the same atomic map.

**The default splitter** (`Text`, `Windows`, `Splitter`, `SplitTheorems`, `ShortText`, `NewText`). The closures of `Split` are
methods of one object over the variables they share; ghost fields record the stream of all runes ever appended and
the window of each emission. `Explains` describes a result by such a stream, its windows and the separators put in;
it leaves no choice (`SplitDetermined`), so it is a full specification, and every guarantee is derived from it.

**The query-embedding cache** (`Embedding`, `Recency`, `QueryCache`, `CachedSearch`, `SearchRuns`). `QueryCache` is
the mutable list and map, `Recency` the list of entries it stands for and the laws of runs, `CachedSearch` the code
of one search, `SearchRuns` any number of searches interleaving at their critical sections. What a search asks is its
text and whatever of the request's context the embedder looks at.

**Reciprocal-rank fusion** (`Fusion`, `FusionLaws`, `FusionRanks`, `SearchDetailed`), with the configuration and request
checks that bound it (`Configuration`, `Requests`, `Preparation`, `Printers`). `Runs` and `Sequences` hold what several
modules share: runs of a step relation, and small facts about sequences and maps.

## Assumptions

- READ COMMITTED: a statement sees the committed rows and its own transaction's writes. `FOR UPDATE`, `UPDATE` and
  `DELETE` of a row wait while another transaction holds it.
- `BIGSERIAL` ids are handed out once. `NOW()` is a stamp taken when a transaction begins; stamps are distinct but
  need not follow commit order, and no order between them is used.
- The advisory lock key is an arbitrary function of (collection, document id), so unrelated documents may collide.
- The splitter and the embedder may return anything that passes the checks of `prepareDocumentWrite`, and different
  things each time.
- The content hash is an arbitrary function of the content, and a text's size in bytes an arbitrary function of the
  text. Canonical metadata is an opaque value with equality that survives being stored.
- A Go string is the sequence of its runes. Embedding components are counts of a fixed unit.
- Each search branch is an arbitrary list of rows with distinct ids. Scores are exact reals.
- A pid names one call of the API. Any step of a write may instead fail, which rolls its transaction back.

## What turned out not to hold

- `Config.normalized` does not trim `DefaultCollection`, and a restart normalises the request again. With a default
  such as `" kb"` a restart moves an unnamed request to another collection (`UntrimmedDefaultMoves`). A call's key is
  stable exactly when the caller named a collection or the default is trimmed or blank (`NormalizeTwice`). The
  theorems about restarts and repetition are for calls with a stable key; the refinement and everything about
  committed rows are for all calls.
- The keyword and the vector branch are two statements. If a reindex commits between them, the merge can hold
  one chunk under two ids, two different hits tie completely, and either may be returned
  (`ReindexBetweenBranchesTies`). `OneAnswerExactly` says when the answer is determined, and `SearchIsDeterministic`
  that it always is when both branches see the same committed tables.
- The entries of a smaller cache are not always a prefix of those of a larger one, though the keys are: with two keys,
  one of which the embedder has given two embeddings, there is a run in which they are not. `EntriesNestExactly` has
  the exact condition.
- A chunk need not hold new non-white-space text: a run of white space within a paragraph can leave a chunk that
  repeats only overlap. `NewTextExactly` says how long a run that takes. The change log's narrower claim, about
  paragraph boundaries (CHANGELOG.md:29), does hold, with a separator or without (`BoundariesAreFollowed`).

## Model

| member | source | states |
|---|---|---|
| WriteTheorems.Refinement | store.go:187-259 | In every reachable state each step either leaves the tables and the history alone or appends one honest event, the write of the call's request or the removal the caller named, and moves the atomic map of documents from what the tables stood for to that event's result |
| WriteTheorems.RepresentationUnique | store.go:811-850 | The tables determine the map they stand for |
| WriteTheorems.ChangedMeansDifferent | store.go:542-579 | A commit lists a document as changed exactly when its row or chunk rows are different afterwards |
| WriteTheorems.SuccessIsOneCommit | store.go:187-240 | A call that returned statistics made exactly one commit, during the call, and the statistics are those of the document right after it |
| WriteTheorems.FailureChangedNothing | store.go:187-240 | A write still running, or returned with an error, has committed nothing |
| WriteTheorems.CommittedTablesWhole | store.go:748-795 | Every committed document has a positive chunk count equal to its number of chunk rows, each repeating its parent's columns; their texts and vectors are those of one single checked prepare of content with the stored hash; no uniqueness constraint is violated |
| WriteTheorems.StatsInEveryState | collection.go:12-28 | Both counts of CollectionStats: the documents of the collection in the atomic map, and the sum of their stored chunk counts |
| WriteTheorems.BodyIsAtomic | store.go:542-579 | From the locked read to the commit the committed document stays as it was read, so the statements in between act as one |
| WriteTheorems.NoLostUpdate | store.go:647-674 | When a reindex reaches its writes, row and chunk rows are those of its unlocked pre-read, and no commit has touched an existing document since |
| WriteTheorems.RebuildOnlyRebuilds | store.go:655-672 | The no-op and refresh branches inside the reindex commit are never reached |
| WriteOrigin.OriginOfCall | store.go:179-185 | In every run a call's flag is the one its caller passed, and its request the one its caller passed, normalised once per attempt; each restart was on the key of its attempt |
| WriteOrigin.EveryWriterWasMade | store.go:179-185 | Every writer in a run was made by a Call move of that run |
| WriteOrigin.MadeOnce | store.go:179-185 | By exactly one such move |
| WriteOrigin.PreparesAtMostTwice | store.go:797-802 | In every run one call splits and embeds at most twice, counted in Prepare moves |
| WriteOrigin.TwoForeignCommits | store.go:797-802 | ErrDocumentChangedConcurrently means two separate commits of other calls changed the document the caller named after the call was made, for every call whose key is stable (NormalizeTwice) |
| WriteOrigin.LoneWriterNeverRestarts | store.go:211-240 | A call with a stable key whose document nobody else changes after it was made never restarts and prepares at most once |
| WriteOrigin.RepeatIsNoop | store.go:560-573 | Upsert called with the same request after a successful write, with no interference until it commits, never calls splitter or embedder, changes no document and returns the same statistics |
| WriteTheorems.InsertOnlyClashesWithItself | store.go:757-785 | A prepared chunk violates a uniqueness constraint exactly when the splitter has used its ordinal before in the same list |
| WriteProgress.HolderNeverWaits | store.go:804-809 | A call holding its advisory lock always has an enabled next statement, whatever the other calls do; it must fail exactly when its next insert repeats an ordinal |
| WriteProgress.SomeCallMoves | store.go:804-809 | No deadlock: whenever a call is running, some running call has an enabled step, which is a failure only where that call has no other |
| WriteProgress.LockedReadDecides | store.go:542-579 | What each locked read leads to, in terms of the atomic map: a rebuild goes on exactly if it sees the row of its pre-read, any other call exactly if the documents now call for no reindex; whatever does not go on starts again, once |
| WriteProgress.DeletesWaitOnlyForBodies | store.go:242-259 | A delete can run wherever no write is between its locked read and its commit on a document it deletes |
| WriteProgress.NoopEffect | store.go:560-564 | A no-op commit changes no row and no timestamp |
| WriteProgress.RefreshEffect | store.go:690-716 | A refresh rewrites metadata and updated_at of one document and its chunks and keeps ids, creation times, hash, count, texts and vectors |
| WriteProgress.RebuildEffect | store.go:718-795 | A reindex keeps an existing document's id and creation time and gives it the request's metadata and hash and exactly the prepared chunks, under chunk ids never committed before and with its transaction's time |
| WriteWitness.SomeWriteSucceeds | store.go:187-240 | A run in which a write returns its statistics, for every request that passes validation |
| WriteWitness.SomeRepeatIsNoop | store.go:560-573 | From every state such a run ends in, a run that makes an Upsert of the same request and returns the same statistics, its commit changing nothing |
| WriteWitness.SomeWriteGivesUp | store.go:797-802 | A run in which a write gives up after exactly two foreign commits, for every such request |
| WriteWitness.SomeReady | store.go:914-922 | Such requests exist |
| WriteProgress.DeleteDocumentNow | store.go:242-259 | In any reachable state DeleteDocument leaves no row of the document the caller named and every other document's row and chunks alone |
| WriteProgress.DeleteCollectionNow | collection.go:30-57 | In any reachable state DeleteCollection leaves zero documents and chunks, orphans nothing and leaves every other collection's rows and counts alone |
| WriteSafety.StepKeepsInv | store.go:187-259 | Every step of every call keeps the global invariant and the invariant of every other call |
| WriteSafety.ReachableInv | store.go:187-259 | The invariant holds in every reachable state |
| WriteGuarantee.WriterStable | store.go:634-688 | A step of one call that respects the locks keeps everything every other call relies on |
| WriteBodySteps.EqualSnapshots | store.go:852-867 | documentSnapshotsEqual is equality of snapshots |
| WriteBodySteps.EqualSnapshotsClassifyEqually | store.go:526-540 | Equal snapshots classify equally |
| WriteBodySteps.DisagreementIsForeign | store.go:647-653 | A locked read that differs from the pre-read proves another call changed the document in between; distinct stamps and unreused ids exclude an unnoticed change |
| WriteBodySteps.RebuildSeesSame | store.go:647-653 | A locked read that agrees with the pre-read has the same row and the same chunk rows |
| WriteCommits.BranchIsDecision | store.go:559-577 | The branch taken under the lock is the one the documents call for at the commit |
| WriteCommits.MergedConsistent | schema.go:45-66 | Committing a write's rows keeps every uniqueness and foreign-key constraint and every count |
| WriteTransaction.Transaction.RefreshDocumentMetadata | store.go:690-716 | The two UPDATEs, committed, leave the document in the atomic map with the new metadata and the old hash, count, texts and vectors |
| WriteTransaction.Transaction.UpsertDocumentRow | store.go:718-746 | An existing row keeps its id, count and creation time; otherwise a new row takes an unused id |
| WriteTransaction.Transaction.InsertChunks | store.go:756-785 | The batch succeeds exactly when no two pieces share an ordinal, and then every piece is in, once, under a new id |
| WriteTransaction.Transaction.ReplaceDocumentChunks | store.go:748-795 | The old chunks are gone, the prepared ones are in, the count is their number; fails exactly on a repeated ordinal |
| WriteTransaction.Transaction.Rebuild | store.go:674-684 | Row and chunk writes together, committed, give the atomic map's reindex and keep every constraint |
| WriteStatements.FitsExactly | schema.go:64-65 | Both uniqueness constraints on chunks admit the next piece exactly when its ordinal is new |
| AtomicDocuments.QuietKeepsDocument | store.go:559-573 | A document is the same at both ends of a stretch of history that never lists it as changed |
| Tables.ConsistentHasNoClash | schema.go:64-65 | Both uniqueness constraints on kb_chunks follow from the chunks' agreement with their parents |
| Tables.StatsConserved | collection.go:12-28 | The chunk count of a collection is the sum of its documents' stored chunk counts |
| Tables.DeleteCollectionEffect | collection.go:47-50 | Deleting a collection empties it, cascades to its chunks and leaves the others as they were |
| Tables.DeleteKeepsConsistent | schema.go:51 | The delete cascade keeps every constraint and every surviving document's chunks |
| Printers.ChunkKeyInjective | store.go:1017-1019 | Chunk keys are equal exactly when document id and ordinal are, colons and long or negative ordinals included |
| Printers.SixColumnsShape | store.go:1017-1019 | The ordinal takes at least six columns, exactly six where it fits, the sign first, and reads back |
| Printers.ComponentRoundTrip | store.go:1023-1028 | A trimmed eight-decimal component reads back as the same value |
| Printers.LiteralRoundTrip | store.go:1021-1030 | A vector literal, brackets included, reads back as the same list of values |
| Printers.PrintComponent | store.go:1024-1027 | What is printed reads back as the component's value and holds no comma |
| Printers.VectorLiteral | store.go:1021-1030 | The loop produces the literal the round trip is about |
| Requests.DistinctTags | store.go:973-984 | The loop yields each trimmed non-empty tag once |
| Requests.NormalizeTags | store.go:969-988 | The result is the strictly ascending list of the trimmed non-empty tags |
| Requests.TagsCanonical | store.go:969-988 | Two tag lists normalise alike exactly when they hold the same trimmed non-empty tags |
| Requests.TagsIdempotent | store.go:969-988 | Normalising tags twice is normalising once |
| Requests.NormalizedFields | store.go:903-912 | What normalisation makes of each field: names and texts without the white space at their ends, an unnamed collection the default, Unix line ends in the content, the canonical tags |
| Requests.RejectedExactly | store.go:914-922 | A write is turned away exactly for a blank document id, blank content, or normalised content over the size limit |
| Requests.ResolveTwice | store.go:961-967 | Resolving a collection twice is resolving once exactly when the caller named one or the default is trimmed or blank |
| Requests.NormalizeTwice | store.go:903-912 | The same, exactly, for the whole request |
| Requests.UntrimmedDefaultMoves | config.go:34-36 | An untrimmed default collection moves an unnamed request when it is normalised again |
| StringOrder.LessIsLexicographic | store.go:986 | The order of strings is the lexicographic one: a proper prefix first, else the smaller rune at the first difference |
| StringOrder.SortStrings | store.go:986 | No later string is less than an earlier one, same multiset |
| StringOrder.SortedIsAscending | store.go:986 | Without duplicates the result is the strictly ascending list of the elements |
| Configuration.SettingsKept | config.go:34-60 | Every setting that is made is kept, every other gets its default, and normalising twice is normalising once |
| Configuration.OpensExactly | config.go:62-97 | New accepts exactly these configurations, in the settings as written |
| Configuration.OpenedLimits | config.go:62-97 | What the limits of an accepted configuration satisfy |
| Configuration.ChosenSplitterFits | config.go:52-58 | The splitter chosen by default never exceeds the configured chunk limit |
| Configuration.SearchSettingsKept | store.go:924-938 | A search keeps every setting it makes; without a mode it is hybrid, without a limit it takes the store's |
| Configuration.SearchAccepted | store.go:924-959 | A search is accepted exactly when its text is not blank, its mode known, its filter encodable, and its limits, in the settings as written, fit |
| Preparation.ValidateChunks | store.go:617-632 | Accepts exactly when every chunk is non-blank and short enough; otherwise names the first that is not |
| Preparation.PrepareDocumentWrite | store.go:581-615 | Succeeds exactly when all checks pass; with any embedder that works text by text each chunk then stands, in order, next to the vector of its own content; otherwise the error is that of the first check that failed |
| Preparation.PreparedIsAllowed | store.go:581-615 | Whatever a prepare returns, the write protocol's prepare step allows |
| Preparation.AllowedIsPreparable | store.go:581-615 | Whatever that step allows, some splitter and embedder return |
| Preparation.DefaultSplitterAlwaysPasses | store.go:617-632 | Under an accepted configuration without a custom splitter no text is ever refused for its chunks |
| Text.TrimShape | splitter.go:95-99 | Trimming removes a blank prefix and suffix and nothing else |
| Text.CoreIsTrim | splitter.go:98 | A text is what trimming gives exactly if it is the original without a blank prefix and a blank suffix and has no white space at its own ends |
| Text.LineEndings | splitter.go:96-97 | Each CRLF, and each CR without LF, becomes one LF, and other text stays; this determines the result |
| Text.NormalizeTextIdempotent | splitter.go:95-99 | Normalising text twice is normalising once |
| Text.NormalizeTextErased | splitter.go:95-99 | Normalising keeps every non-white-space rune in order, and is empty exactly on blank text |
| Splitter.SettingsAsWritten | splitter.go:31-41 | For the settings as written: windows of the size (the default if it is not positive) whose neighbours share exactly the overlap, none if it is negative, a quarter of the size if it reaches the size |
| Splitter.SplitParagraphs | splitter.go:101-111 | The trimmed non-empty parts between blank lines, in order |
| Splitter.PartsRejoin | splitter.go:102 | With blank lines put back between them the parts are the text, and no part holds a blank line |
| Splitter.ParagraphsHoldNoBlankLine | splitter.go:101-111 | No paragraph holds a blank line, and each is trimmed and not empty |
| Splitter.PartsConserve | splitter.go:101-111 | Splitting at blank lines loses only the separators |
| Splitter.KeptConserve | splitter.go:101-111 | Trimming and dropping parts loses only white space |
| Splitter.KeptAreParagraphs | splitter.go:101-111 | Every paragraph is trimmed and not empty |
| Splitter.SplitRun.EmitChunk | splitter.go:47-65 | Without new content nothing happens; otherwise the open window is closed, the chunks are those of the windows, and what is carried over is the tail of a non-blank window, full or not, or nothing after a blank one |
| Splitter.SplitRun.AppendRunes | splitter.go:67-82 | The stream grows by exactly the input, every full window is closed, none is reopened, and the loop ends |
| Splitter.SplitRun.AddParagraph | splitter.go:84-89 | The stream grows by the paragraph, with a separator before it exactly where the open window has room |
| Splitter.Split | splitter.go:25-93 | Fails exactly on blank text; otherwise the result is the trimmed non-blank windows of a stream that joins the paragraphs, with separators exactly where the open window has room, and the windows have the size and overlap of the settings as written |
| SplitTheorems.SplitDetermined | splitter.go:25-93 | That description determines the chunks, the stream, the windows and the separators |
| SplitTheorems.SlidingWindows | splitter.go:47-91 | Every window but the last has the effective size, ends strictly increase, consecutive windows overlap by exactly the effective overlap (zero after a blank one), and together they cover the stream |
| SplitTheorems.BoundariesAreFollowed | splitter.go:84-89 | The window in which a paragraph joins the stream takes in its separator whole, if it has one, and the paragraph's first rune, which is not white space |
| SplitTheorems.StreamConserves | splitter.go:84-89 | The stream has exactly the text's non-white-space runes, in order, and is no longer than the text |
| SplitTheorems.NothingLost | splitter.go:25-93 | With overlap zero the chunks, white space erased, spell the text, white space erased |
| SplitTheorems.NothingLostButRepeats | splitter.go:62-64 | With any overlap the windows without their carried prefixes spell the stream, and so the text, white space erased |
| SplitTheorems.SplitChunks | splitter.go:47-65 | At least one chunk; ordinals 0..n-1; each content non-empty, trimmed and at most the effective size |
| ShortText.ShortTextIsOneChunk | splitter.go:84-91 | A text whose paragraphs, a blank line between each two, fit into the effective size is one chunk with exactly that content |
| SplitTheorems.ChunkCountBound | splitter.go:67-91 | At most 1 + ceil(max(0, L - c) / (c - o)) chunks for a text of length L, with equality over the stream when no window is blank |
| NewText.NewTextExactly | splitter.go:47-65 | On every text whose paragraphs hold no run of n white-space runes each chunk's window adds a rune that is not white space, exactly when the effective overlap is zero or n is at most size - overlap |
| NewText.NoNewText | splitter.go:62-64 | A chunk without new text comes of a run of size - overlap white-space runes inside one paragraph |
| NewText.LongGapsFail | splitter.go:62-64 | For every size, overlap > 0 and n > size - overlap, a text without such runs that yields a chunk of overlap alone |
| Windows.NoOverlapConserves | splitter.go:47-65 | Chunks of windows without overlap hold the stream's non-space runes |
| Windows.WindowCount | splitter.go:67-82 | The number of windows is bounded by the strides to the end, exactly so when none is blank |
| QueryCache.QueryEmbeddingCache.constructor | query_cache.go:24-28 | An empty cache |
| QueryCache.NewQueryEmbeddingCache | query_cache.go:20-29 | No cache exactly for a capacity that is not positive |
| QueryCache.CloneVector | query_cache.go:81-83 | A fresh array with the same contents |
| QueryCache.QueryEmbeddingCache.Get | query_cache.go:31-46 | Hits exactly on cached keys, returns a fresh copy of the cached vector outside the cache, and makes the entry the most recent; list and map stay in bijection |
| QueryCache.QueryEmbeddingCache.Put | query_cache.go:48-79 | The new entry list is the specified one, evicting at most the least recent; list and map stay in bijection; the cache takes in only arrays it allocated |
| QueryCache.QueryEmbeddingCache.PushFront | query_cache.go:61-65 | The new entry is in front and in the map |
| QueryCache.QueryEmbeddingCache.RemoveBack | query_cache.go:71-77 | The last entry is gone from list and map |
| QueryCache.QueryEmbeddingCache.MoveToFront | query_cache.go:43 | One entry moves up, the others keep their order |
| Recency.RunHoldsRecent | query_cache.go:31-79 | After any run the keys are the first `capacity` of all touched keys, each with the vector last put for it |
| Recency.RecentOrder | query_cache.go:31-79 | The touched keys, each once, in decreasing order of last touch |
| Recency.OrderUnique | query_cache.go:31-79 | There is only one such order |
| Recency.StackInclusion | store.go:474-500 | On the same searches the keys of a smaller cache are a prefix of those of a larger one; a hit there is a hit here |
| Recency.EntriesNestExactly | store.go:474-500 | For every run of searches an embedder may answer and any two capacities the entries of the smaller cache are a prefix of those of the larger, exactly when the embedder gives each key one embedding or there is only one key |
| Recency.TwoKeysTwoEmbeddings | store.go:474-500 | Two keys, one of them with two embeddings, always give a run where they are not |
| CachedSearch.SearchQueryVector | store.go:474-524 | Disabled exactly without a cache; without a keyer, on a keyer's error or on a blank key the search is refused and the cache left alone; Bypassed exactly where the keyer declines; otherwise a hit or a miss with its cache effect; the returned array is fresh and outside the cache |
| CachedSearch.SearchWithPlan | store.go:479-500 | The part after the key: hits need no embedding, misses store what they return, failures store nothing |
| SearchRuns.SearchFollowsKey | store.go:502-524 | In every run a finished search was told an outcome when it asked for a key, and its status or error is the one that outcome allows |
| SearchRuns.StepKeepsInv | store.go:474-500 | Every step of every search keeps the cache equal to a run of its log and all vectors earned |
| SearchRuns.CacheInEveryState | query_cache.go:31-79 | However searches interleave, the cache holds the most recently touched keys with their last vectors, never one of the wrong dimension or one no query with that key embeds to |
| SearchRuns.FaithfulIsTransparent | store.go:474-500 | If equal keys imply equal embeddings, every search that succeeds returns what a direct embed returns |
| SearchRuns.TransparentExactly | store.go:474-500 | The cache is transparent in every run exactly then |
| Fusion.ReciprocalRank | rrf.go:3-11 | The multiplicative inverse of the rank plus the constant in force, and zero for a rank that does not exist |
| Fusion.AddKeywordHits | store.go:299-304 | The loop leaves one hit per keyword row |
| Fusion.AddVectorHits | store.go:321-334 | The loop adds to the rows already found and appends the others |
| Fusion.Collect | store.go:337-340 | Every merged hit once, in any order |
| Fusion.SortHits | store.go:342-350 | Some ranking: the same hits, none behind one it beats |
| SearchDetailed.Fuse | store.go:290-354 | Hybrid: the fused count is the size of the union of ids and the hits are the first `limit` of a ranking of the merged hits; keyword-only and vector-only: that branch's first `limit` hits in its order, and its length |
| SearchDetailed.SearchDetailed | store.go:270-357 | The same for the request as written: its own mode, limit and candidate limit, or the store's, or the defaults; rejected exactly when the checks fail |
| Fusion.BeforeIsOrder | store.go:342-350 | Higher scores first, then lexicographically smaller document ids, then smaller chunk numbers |
| FusionLaws.AnswersAreOrdered | store.go:342-350 | So are the hits of every answer |
| Fusion.BeforeTrichotomy | store.go:342-350 | The comparison orders any two hits that differ in score, document or chunk number, one way only |
| Fusion.BeforeTransitive | store.go:342-350 | The comparison is transitive |
| FusionLaws.OneAnswerExactly | store.go:337-354 | A search returns the same hits for every map order and unstable sort exactly when merged hits that tie but differ all stand behind at least `limit` others |
| FusionLaws.OneAnswer | store.go:337-354 | Without ties the returned hits are determined |
| FusionLaws.StrictlyRanked | store.go:342-353 | Without ties each hit strictly beats all behind it, the dropped ones included |
| FusionLaws.OneSnapshotNoTies | schema.go:64 | Rows of one collection read from one committed state never tie |
| FusionLaws.SearchIsDeterministic | store.go:290-354 | A search whose branches read one committed state has one answer |
| FusionLaws.ReindexBetweenBranchesTies | store.go:291-315 | A reindex that commits between the two statements leaves two different answers possible, at every limit but zero |
| FusionLaws.ReindexedIsOne | store.go:748-795 | The second table of that case is the first with the document rebuilt at a new stamp |
| FusionRanks.DominanceExactly | rrf.go:3-11 | With candidate lists of at most N rows every hit of both branches outscores every hit of one exactly when N is at most one more than the constant in force, whatever the setting |
| FusionRanks.DefaultsDominate | config.go:11-12 | The default limits satisfy that |
| FusionRanks.BothAheadOfOne | store.go:342-353 | Then hits of both branches stand ahead of hits of one in every ranking |
| FusionRanks.KeywordOnlyAnswer | store.go:291-305 | Keyword-only search returns exactly the branch's first `limit` hits in order |
| FusionRanks.VectorOnlyAnswer | store.go:307-335 | The same for vector-only search |

## Left out

- DeleteCollection and DeleteDocument are one step each, enabled when no row they delete is locked by another transaction; the row-by-row locking inside one DELETE, and deadlocks it could cause, are not modelled.
- Commits whose outcome the client does not learn, and crashes of the database.
- SQL text, connection pools, contexts, deadlines and timing diagnostics; BM25 and pgvector scoring, which yield arbitrary candidate lists here.
- Migrate, extension checks and the doctor diagnostics: one locked transaction over fixed versions.
- HashEmbedder: float32 rounding and a histogram.
- SHA-256, JSON encoding and decoding of metadata, and what a metadata filter matches.
- Rounding in scores: two scores that differ as reals may be equal as float64, which would only make more hits tie.
- NaN and infinite embedding components, which have no decimal form; int32 and int64 limits of ordinals, counts and ids.
- Invalid UTF-8 in text, which Go replaces rune by rune.
- The library's unlinking of list elements by pointer: QueryCache.QueryEmbeddingCache.MoveToFront finds the element in the sequence instead.
- WriteTransaction.Transaction.Rebuild: runs against one committed state of the document; that no other commit concerns it meanwhile is BodyIsAtomic.
- Title, content, source, tags and metadata of a search hit are one opaque text, which fusion copies but does not read.
