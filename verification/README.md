# be_indexer, verified

be_indexer answers the question "which documents' boolean rules does this query satisfy?".
A document is a disjunction of conjunctions, a conjunction puts include and exclude
expressions on fields, and a query assigns values to fields. The library answers with three
engines: a merge of posting lists grouped by conjunction size (K-groups), the same merge over
one container for all sizes (compact), and an algebra of bitmaps (roaring).

This project models the three engines in the form the code has: cursors that are moved and
sorted in place, a builder that prepares and then commits, a scanner with its state, a list of
segments that is split in place and a tree that grows where it is written to. It proves them
against one meaning of a document:

- a field holds when it has no include, or an include meets the query, and no exclude does;
- a conjunction holds when all its fields hold;
- a document matches when one of its conjunctions holds.

The main results, in the order of the proof:

1. Gallop and bisect refine a linear skip, a field cursor always shows the least entry of its
   group, and sorting cursors is an ordered permutation (`index_scanner.dfy`).
2. Each round of a merge decides the conjunctions it skips over, so a merge collects exactly the
   selected conjunctions, in order and once each, and stops early only when nothing is left
   (`merge.dfy`).
3. What the merge selects from a container is what holds (`matching.dfy`), for a container that
   was filled by the two-phase builder (`be_index.dfy`, `index_builder.dfy`).
4. All three engines return exactly the matching documents, so they agree (`retrieval.dfy`,
   `roaring.dfy`, `engines.dfy`).
5. Building again through the document cache gives the same index, list by list
   (`utf8.dfy`, `doc_cache.dfy`, `engines.dfy`).
6. The number holder finds exactly the entries whose expression stands for a queried number,
   whichever ranges are spelt out (`range_idx.dfy`, `range_holder.dfy`), and so does the holder
   on a segment tree when it is asked for a coordinate (`segment_tree.dfy`,
   `optimized_range_holder.dfy`).
7. The posting-list engines answer exactly about documents that mix values and numbers, with
   number holders behind the number fields of every container: what the holders give the merge is
   what posting lists would give it if every queried number were a token
   (`mixed_documents.dfy`, `mixed_index.dfy`, `mixed_retrieval.dfy`, `mixed_builder.dfy`,
   `mixed_engines.dfy`).

## What the results ask for

- Documents added together have distinct ids; otherwise conjunction ids collide.
- `Engines.AnswerKGroups` and `Engines.AnswerCompact` ask that every document can be compiled
  whole: 1 to 255 conjunctions, ids and sizes that fit their bits, EQ only (the default holder
  panics on anything else), and values that the tokenizer accepts. `Engines.Answer` asks for
  none of this: any policy, with or without a cache, up to the first document that is refused.
- `MixedEngines.AnswerMixed` asks that number fields and value fields are kept apart, and that the
  number expressions are 64-bit and neither `> MaxInt64` nor `< MinInt64`. Conjunctions that
  cannot be indexed are left out, as the skip policy says.
- With a cache, an (id, version) pair names one content, and that content can be encoded. Replay is
  promised only while no field is added: a new field restamps the schema and clears the cache.
- `Compile` and `CompileEntries` are called once, after the last commit.
- `Engines.AnswerRoaring` is about documents that were all accepted, with the fields configured
  first; `Engines.AnswerAfterRefusal` and `Roaring.AnswersSince` say what happens otherwise.
- Number expressions are 64-bit. Queried numbers lie below the largest one, and the domain is the
  default one, where a result says so.

## Findings

Places where the code does less than its expressions or its documentation say, each with the
lemma or contract that has the exact condition.

- `> n` never finds MaxInt64, `between MaxInt64 and MaxInt64` finds nothing, `< MinInt64` finds
  MinInt64, and `> MaxInt64` wraps around to everything (`RangeHolders.RangeDenotesAll`,
  `RangeHolders.RangeDenotes`).
- `> MaxInt64-1` and `between MaxInt64 and MaxInt64` give a range that ends before it starts;
  spelling it out panics (`RangeHolders.BuildFieldIndexingData`).
- With a custom `RangeMin`, a range that starts below it and reaches into the domain is dropped,
  not clipped (`RangeHolders.DomainIsNotClipped`), and so differs from the same range spelt out
  (`RangeHolders.ThresholdObservable`).
- The cache silently drops an expression with a value that is not valid UTF-8; replay gives back
  what was compiled exactly when there is none (`IndexBuilders.ReplayCompilesIffEncodable`,
  `IndexBuilders.LoneByteIsLost`).
- Replaying a cached document is not atomic: an entry that cannot be replayed leaves the
  conjunctions before it in the index (`IndexBuilders.IndexerBuilder.AddDocIndexingData`).
- The bitmap builder does not undo a refused document; the conjunctions before the refused one
  stay and are found, and one refused for a value stays in part. Every other document is still
  answered exactly (`Roaring.IvtBEIndexerBuilder.AddDocument`, `Engines.AnswerAfterRefusal`,
  `Engines.RefusedIsFound`).
- A field that is configured late in the bitmap engine hides every conjunction added before it
  (`Roaring.AnswersSince`).
- An absent value in an expression panics in the bitmap engine, where the posting-list engines
  take it as a value without tokens (`Roaring.DefaultBEContainer.EncodeExpr`).
- A bitmap index without any field finds nothing, even for documents that match every query
  (`Engines.AnswerRoaring`).
- The segment-tree holder answers a number between two coordinates as if it were the next
  coordinate. With the default threshold 1500 is not found between 1000 and 2000
  (`OptimizedRangeHolders.BetweenIsLost`); when an answer is right is said entry by entry
  (`OptimizedRangeHolders.NextIsExact`).

One disagreement between documents is settled by definition: `QUICK_START.md` calls `between`
closed on both sides, the code and the design note have it open on the right, and
`RangeHolders.Denotes` follows the code.

## Model

| member | source | states |
|---|---|---|
| IdTypes.ConjIDRoundTrip | id_types.go:34-61 | an id exists exactly for a document id of 43 bits and a sign, and a position and a size up to 255, and decodes to the three |
| IdTypes.ConjIDOrder | id_types.go:34-44 | conjunction ids are ordered by size, then index, then sign, then magnitude |
| IdTypes.SizeIsMonotone | id_types.go:46-48 | a later conjunction id never has a smaller size |
| IdTypes.EntryIDRoundTrip | id_types.go:70-91 | conjunction and polarity are what was encoded, and no entry reaches the null entry |
| IdTypes.EntryIDOrder | id_types.go:70-75 | exclude sorts just before include, and include plus one falls before the next conjunction |
| IdTypes.WellFormedIsEncoded | id_types.go:70-87 | an entry with the two polarity patterns is the encoding of its own parts |
| IdBits.PackConjIsAddition | id_types.go:34-44 | the shifts and ors of the packed id do not overlap: they add |
| IdBits.PackEntryIsAddition | id_types.go:70-75 | the same for the polarity bit of an entry |
| Documents.CalcConjSize | document.go:194-205 | the size is the number of fields with an include, in any order of the fields |
| IndexScanner.EntriesCursor.LinearSkipTo | index_scanner.go:84-94 | lands on the first position at or after the cursor with an entry of at least the id, or at the end |
| IndexScanner.EntriesCursor.SkipTo | index_scanner.go:96-133 | gallop and bisect land where the linear skip does, on every sorted list with duplicates |
| IndexScanner.FieldCursor.constructor | index_scanner.go:184-196 | the group shows its least entry, although the current cursor is a copy |
| IndexScanner.FieldCursor.SkipTo | index_scanner.go:206-216 | after a skip the group shows its least entry at or above the id |
| IndexScanner.Sort | index_scanner.go:144-163 | an ordered permutation of the cursors, which all stay where they are |
| Merge.TooFewAgree | be_indexer_kgroups.go:201-243 | fewer than `need` groups include an undecided conjunction below the one the `need`th cursor shows |
| Merge.AgreementDecides | be_indexer_kgroups.go:211-232 | when the first `need` cursors agree, the polarity of the least entry decides whether the conjunction is selected |
| Merge.RoundProgress | be_indexer_kgroups.go:201-243 | every round strictly raises the least undecided conjunction id, within the range of ids |
| Merge.RoundConsumes | be_indexer_kgroups.go:201-243 | every round reads at least one entry for good: the unread entries strictly decrease, which is what both merge loops end by |
| Merge.RoundCollects | be_indexer_kgroups.go:201-243 | a round collects exactly the selected conjunctions among those it passes |
| Merge.NothingLeft | be_indexer_compact.go:111-120 | once fewer than `need` groups have anything left, nothing more is selected |
| Merge.LeastNeeds | be_indexer_compact.go:111-120 | no conjunction ahead needs fewer fields than the least one, since size leads the id |
| Merge.FewerCursorsThanNeeded | be_indexer_kgroups.go:194-199 | fewer cursors than needed at the start select nothing |
| Merge.TrimEnded | be_indexer_compact.go:160-164 | cutting off ended cursors keeps the merge, and the last one left has not ended |
| Merge.RetrieveK | be_indexer_kgroups.go:193-244 | collects exactly the selected conjunctions of a container of one size, each once, in order |
| Merge.RetrieveCompact | be_indexer_compact.go:87-171 | collects exactly the selected conjunctions although the required count changes from round to round |
| BEIndexes.BEIndex.NewContainer | be_indexer_kgroups.go:119-125 | the container of a size exists afterwards; only empty ones were added |
| BEIndexes.BEIndex.CommitFieldIndexingData | entries_holder.go:188-203 | appends the entry once to the list of each distinct token of the field, and to no other list |
| BEIndexes.BEIndex.CommitConjIndexingData | index_builder.go:263-274 | lists and wildcards hold what was committed so far, no more and no less |
| BEIndexes.BEIndex.CompileIndexer | be_indexer_kgroups.go:127-137 | every list and the wildcards are sorted and keep their entries |
| Utf8.EncodedIsValid | entries_holder.go:97-109 | bytes that encode scalar values (RFC 3629) are valid |
| Utf8.ValidIsEncoded | entries_holder.go:97-109 | and valid bytes encode some |
| DocCache.ToCacheResult | index_builder.go:381-423 | the cache keeps, field by field and in order, the entries that could be encoded |
| DocCache.ReplayIffEncodable | entries_holder.go:97-109 | a field comes back from the cache as it was prepared exactly when all its token lists can be encoded |
| IndexBuilders.ListedCount | index_builder.go:200-226 | the next field id is the number of fields, so ids are distinct |
| IndexBuilders.IndexerBuilder.Reset | index_builder.go:103-116 | an empty index; fields and cache stay |
| IndexBuilders.IndexerBuilder.ConfigureField | index_builder.go:200-226 | a field is added once, under a new id, and the cache is cleared; a known field changes nothing |
| IndexBuilders.IndexerBuilder.CreateFieldData | index_builder.go:251-260 | finds the field or creates it |
| IndexBuilders.IndexerBuilder.IndexingConjunction | index_builder.go:356-378 | prepares every expression of a conjunction, is an error only for an unsupported value and panics only for another operator than EQ, commits nothing, and adds a field only if one is new |
| IndexBuilders.IndexerBuilder.PrepareDoc | index_builder.go:299-331 | prepares the well-formed conjunctions under their own positions, as the policy says |
| IndexBuilders.IndexerBuilder.CommitDoc | index_builder.go:333-343 | commits what was prepared, in order |
| IndexBuilders.IndexerBuilder.ToConjIndexingData | index_builder.go:152-189 | succeeds exactly for an entry with ids in range, known fields and data that decodes, and gives what it holds |
| IndexBuilders.IndexerBuilder.AddDocIndexingData | index_builder.go:138-149 | replays cached conjunctions up to the first that cannot be replayed, and leaves those in the index; an id out of range panics, anything else is an error |
| IndexBuilders.HonestReplays | index_builder.go:152-189 | an entry captured from an encodable conjunction can always be replayed |
| IndexBuilders.HonestReplayCompiles | index_builder.go:138-189 | and its replay is what compiling the conjunction gives |
| IndexBuilders.ReplayCompilesIffEncodable | index_builder.go:381-423 | captured and replayed, a conjunction comes back as compiled exactly when all its values can be encoded |
| IndexBuilders.LoneByteIsLost | index_builder.go:403-410 | an expression on the single byte 0x80 does not come back |
| IndexBuilders.IndexerBuilder.ReplayDoc | index_builder.go:280-287 | a cache hit cannot fail and adds what compiling the document adds |
| IndexBuilders.IndexerBuilder.BuildDocEntries | index_builder.go:276-353 | adds all well-formed conjunctions or nothing: after an error every list and the wildcards are as before; the outcome is the one the policy gives; it replays exactly a document cached under the stamp, and otherwise caches the document under the stamp from before |
| IndexBuilders.IndexerBuilder.Remember | index_builder.go:345-350 | stores one entry per good conjunction under (id, version) and the given stamp, leaves the other entries alone, and stores nothing for a document without one |
| IndexBuilders.HitsMore | index_builder.go:280-350 | over a run of documents, whatever could be replayed is, and whatever was added can be replayed from then on, unless a field is added |
| IndexBuilders.NextTimeHits | index_builder.go:280-287 | a document that was cached is replayed the next time under the same stamp |
| IndexBuilders.IndexerBuilder.AddDocument | index_builder.go:124-135 | adds documents in order up to the first refused; those before it are ones the policy lets in, with 1 to 255 conjunctions, and the index holds exactly their well-formed conjunctions; how it ends is settled by the refused document |
| IndexBuilders.IndexerBuilder.BuildIndex | index_builder.go:191-198 | hands over the fields and sorts every list without changing its entries |
| Matching.PreparedPosts | index_builder.go:356-378 | what one prepared conjunction adds to a (field, token) list: its entry, exactly when an expression of that polarity has the token |
| Matching.ListMeaning | entries_holder.go:188-217 | a (field, token) list holds an entry exactly when a committed expression of that polarity has the token |
| Matching.SamePostings | index_builder.go:263-274 | two compilations of the same conjunctions fill every list and the wildcards with the same entries in the same order |
| Matching.EnoughIffAllHit | be_indexer_kgroups.go:201-243 | no more groups include a conjunction than it needs, and as many as it needs exactly when all its include fields are hit |
| Matching.SelectedIffHolds | be_indexer_kgroups.go:193-244 | the merge selects a conjunction exactly when it holds for the query |
| Matching.NoSurplusGroups | be_indexer_kgroups.go:201-243 | no conjunction is included by more groups than its size, with or without excludes beside the includes |
| Matching.CollectedDocs | be_indexer_kgroups.go:218-224 | the documents collected from a container are those with a conjunction in it that holds |
| Retrieval.GetEntries | entries_holder.go:162-175 | one cursor for each non-empty list hit; an unsupported value is the only error |
| Retrieval.InitCursors | be_indexer_kgroups.go:146-190 | one group for each query field that hits something and one for the wildcards |
| Retrieval.QuerySize | boolean_expr.go:46-54 | counts the query fields that carry a value |
| Retrieval.NothingAbove | be_indexer_kgroups.go:262-275 | no conjunction larger than the query holds, so starting at the query size loses nothing |
| Retrieval.RetrieveKGroups | be_indexer_kgroups.go:262-284 | collects exactly the documents with a satisfied conjunction, on top of what the collector had, each conjunction once |
| Retrieval.RetrieveCompacted | be_indexer_compact.go:87-171 | the same for the compact engine |
| Roaring.ConjunctionIDRoundTrip | roaringidx/conjunction_types.go:19-36 | an id exists exactly for a position up to 255 and a document id of 55 bits and a sign, and decodes to both |
| Roaring.DefaultBEContainer.EncodeExpr | roaringidx/be_container.go:103-122 | adds the id to the include or exclude bitmap of each token and to no other; it succeeds exactly for EQ on a value with tokens, panics exactly for another operator or an absent value, and then changes nothing |
| Roaring.DefaultBEContainer.EncodeConj | roaringidx/ivt_indexer_builder.go:95-113 | the bitmaps stay those of the conjunctions so far; wildcards are those without an include on the field; after a refusal they lie between those with and without the conjunction |
| Roaring.DefaultBEContainer.Retrieve | roaringidx/be_container.go:75-97 | wildcards and included ids less the excluded ones |
| Roaring.ContainerMeans | roaringidx/be_container.go:75-97 | a container returns exactly the conjunctions whose field holds |
| Roaring.IvtBEIndexerBuilder.ConfigureField | roaringidx/ivt_indexer_builder.go:41-57 | adds an empty container for the field, at any time, whatever the other fields hold |
| Roaring.IvtBEIndexerBuilder.AddDocument | roaringidx/ivt_indexer_builder.go:69-118 | accepts exactly the documents with a conjunction, positions up to 255, a document id of 55 bits and a sign, configured fields, and EQ on values of known types only; a missing id or field is an error and otherwise some expression is the reason; after a refusal at any conjunction the ones before it are in every container, that one in part if it was refused for a value, and all others are as they should be |
| Roaring.AnswersSince | roaringidx/ivt_indexer_builder.go:41-113 | a conjunction is answered exactly when it holds and every field was configured before it was added |
| Roaring.ToldSinceConfigured | roaringidx/ivt_indexer_builder.go:41-57 | configuring a field, at any time, starts it with what is added from then on |
| Roaring.ToldSinceAfter | roaringidx/ivt_indexer_builder.go:69-118 | adding a document, or as much of it as is taken, extends what each field has been told since it was configured |
| Roaring.IvtScanner.Reset | roaringidx/ivt_scanner.go:68-74 | the scanner is as new |
| Roaring.IvtScanner.WithHint | roaringidx/ivt_scanner.go:44-62 | starts from every id the hinted documents can have |
| Roaring.IvtScanner.MergeFieldResult | roaringidx/ivt_scanner.go:83-100 | the first field starts the result, later ones intersect it, and an empty result ends the scan |
| Roaring.IvtScanner.Scan | roaringidx/ivt_scanner.go:102-121 | leaves exactly the satisfied conjunctions, among the hinted ones if any, in any order of the fields and despite the early stop; a value it cannot read is an error unless nothing was left before it was reached |
| Roaring.IvtScanner.Retrieve | roaringidx/ivt_scanner.go:143-158 | the documents of the conjunctions left, and none after an error |
| Roaring.RetrieveAfresh | roaringidx/ivt_scanner.go:68-74 | after a reset a used scanner answers like a new one |
| Roaring.RetrieveHinted | roaringidx/ivt_scanner.go:44-121 | a hinted retrieval is the unhinted one less the documents that were not hinted |
| Roaring.HintedIsFiltered | roaringidx/ivt_scanner.go:44-62 | the same for the raw conjunction ids |
| Engines.Build | index_builder.go:103-198 | any policy, with or without a cache, from any state of the builder: a compiled index of exactly the well-formed conjunctions of the documents before the first that the policy refuses |
| Engines.Answer | README.md:55-56 | either posting-list engine answers with exactly the documents that have a satisfied conjunction among those before the first that the policy refuses, and fails exactly for a value of an unsupported type on a field it knows, once there is something to ask |
| Engines.Rebuild | index_builder.go:276-353 | building the same documents again through the cache stops at the same document unless one panics, and gives the same lists and wildcards; with all fields known from the start every versioned document with a good conjunction is replayed the second time |
| Engines.MatchedIsMatching | be_indexer_kgroups.go:262-284 | documents with a satisfied conjunction are the documents that match |
| Engines.AnswerKGroups | be_indexer_kgroups.go:262-284 | documents in, query in, exactly the matching documents out, and an error for a value of an unsupported type on a field of theirs |
| Engines.AnswerCompact | be_indexer_compact.go:87-171 | the same for compact |
| Engines.AnswerRoaring | roaringidx/ivt_scanner.go:102-158 | the same for the bitmap engine, which finds nothing when it has no field; with a value it cannot read on a configured field it fails or finds nothing |
| Engines.AnswerHinted | roaringidx/ivt_scanner.go:44-158 | with hints the bitmap engine answers with the matching documents among the hinted ones |
| Engines.AnswerAfterRefusal | roaringidx/ivt_indexer_builder.go:69-118 | after a refused document all others are answered exactly; the refused one is found whenever a conjunction before the refused one holds, and only then if it was refused for an id or a field |
| Engines.EnginesAgree | README.md:55-56 | the three engines give the same answer |
| Engines.RefusedIsFound | roaringidx/ivt_indexer_builder.go:69-118 | a document refused at its second conjunction is found by its first |
| RangeIdxs.Explode | holder/rangeholder/term_ext_range_holder.go:331-354 | cuts a range at the bounds of a sub-range into a tiling, and refuses one that is not inside |
| RangeIdxs.RangeIdx.constructor | holder/rangeholder/term_ext_range_holder.go:367-377 | one empty segment over the domain |
| RangeIdxs.RangeIdx.IndexingRange | holder/rangeholder/term_ext_range_holder.go:442-503 | the list stays an ordered partition of the domain, and each segment holds, at each of its values, one entry for each indexed range that covers the value and no other |
| RangeIdxs.RangeIdx.Compile | holder/rangeholder/term_ext_range_holder.go:379-404 | the segments move over with their entries sorted; the list is left empty |
| RangeIdxs.RangeIdx.Retrieve | holder/rangeholder/term_ext_range_holder.go:417-436 | finds the segment that contains a value of the domain, and nothing outside it |
| RangeHolders.RangeDenotes | holder/rangeholder/term_ext_range_holder.go:188-206 | below the largest number a parsed range is right exactly for all expressions but two |
| RangeHolders.RangeDenotesAll | holder/rangeholder/term_ext_range_holder.go:188-206 | over all 64-bit numbers it is right exactly when the expression is no `>` and neither wrapping bound |
| RangeHolders.BackwardRanges | holder/rangeholder/term_ext_range_holder.go:298-303 | exactly two expressions parse to a range that ends before it starts |
| RangeHolders.BuildFieldIndexingData | holder/rangeholder/term_ext_range_holder.go:208-234 | what is prepared is the expression, spelt out exactly when the range is small, with the exact conditions for error and panic |
| RangeHolders.ThresholdUnobservable | holder/rangeholder/term_ext_range_holder.go:221-230 | spelling a range out does not change where it is found |
| RangeHolders.ThresholdObservable | holder/rangeholder/term_ext_range_holder.go:221-230 | unless it starts below the domain and reaches into it, and then it does |
| RangeHolders.DomainIsNotClipped | holder/rangeholder/term_ext_range_holder.go:438-503 | a domain finds a range in full exactly when the range does not start below it and reach into it |
| RangeHolders.RangeHolder.CommitFieldIndexingData | holder/rangeholder/term_ext_range_holder.go:236-253 | values and segments hold what was committed so far, once per distinct value |
| RangeHolders.RangeHolder.CompileEntries | holder/rangeholder/term_ext_range_holder.go:118-136 | both parts are sorted and keep their entries |
| RangeHolders.RangeHolder.GetEntries | holder/rangeholder/term_ext_range_holder.go:138-163 | finds exactly the entries of the commits that hold a queried number |
| RangeHolders.FoundIffAsked | holder/rangeholder/term_ext_range_holder.go:138-253 | a commit holds a queried number exactly when its expression stands for it |
| RangeHolders.AnswerNumbers | holder/rangeholder/term_ext_range_holder.go:138-253 | build, commit, compile and query find exactly the entries with an expression that stands for a queried number, whatever is spelt out |
| SegmentTrees.CoordinateCompressor.AddValue | holder/rangeholder/optimized_range_holder.go:34-42 | a value is collected once, and a panic follows after building |
| SegmentTrees.CoordinateCompressor.Build | holder/rangeholder/optimized_range_holder.go:45-68 | the same values, strictly increasing, each mapped to its position |
| SegmentTrees.CoordinateCompressor.FindIdx | holder/rangeholder/optimized_range_holder.go:77-83 | the first coordinate at or above a value |
| SegmentTrees.CoordinateCompressor.FindRange | holder/rangeholder/optimized_range_holder.go:86-93 | the positions of the coordinates in the range, and in any case of the first one at or above its start |
| SegmentTrees.SegmentTreeNode.Insert | holder/rangeholder/optimized_range_holder.go:358-382 | adds the entry at exactly the positions of the stretch, creating nodes as needed |
| SegmentTrees.SegmentTreeNode.CollectEntries | holder/rangeholder/optimized_range_holder.go:435-458 | collects exactly what was inserted over a position |
| OptimizedRangeHolders.OptimizedRangeHolder.BuildFieldIndexingData | holder/rangeholder/optimized_range_holder.go:236-275 | prepares the expression, spelt out exactly when the range is small, and the ends of a range become coordinates |
| OptimizedRangeHolders.OptimizedRangeHolder.CommitFieldIndexingData | holder/rangeholder/optimized_range_holder.go:278-309 | the pending stretches are meant for exactly the numbers the commits are meant for, and their ends are coordinates |
| OptimizedRangeHolders.OptimizedRangeHolder.CompileEntries | holder/rangeholder/optimized_range_holder.go:312-343 | at each coordinate the tree holds exactly the entries committed for it |
| OptimizedRangeHolders.OptimizedRangeHolder.GetEntries | holder/rangeholder/optimized_range_holder.go:385-432 | at most one cursor, over exactly the entries committed for the first coordinates at or above the queried numbers |
| OptimizedRangeHolders.NextIsExact | holder/rangeholder/optimized_range_holder.go:405-416 | what is returned for a number is right about an entry exactly when the number is a coordinate or lies above all, or at the next coordinate a range of the entry goes on, or ranges of it end there just when others of it start |
| OptimizedRangeHolders.BetweenIsLost | holder/rangeholder/optimized_range_holder.go:256-416 | build, commit, compile and query with the default threshold do not find 1500 between 1000 and 2000 |
| OptimizedRangeHolders.AnswerCoordinates | holder/rangeholder/optimized_range_holder.go:236-432 | build, commit, compile and query at coordinates find exactly the entries with an expression that stands for a queried number |
| MixedDocuments.LowerHolds | static/design/boolean_operator.md:5-20 | a conjunction of values and numbers holds exactly when it does with each number expression replaced by the queried numbers it stands for, as tokens |
| MixedIndexes.AskedIsPosted | holder/rangeholder/term_ext_range_holder.go:138-253 | the entries a number holder owes to a query are those that would be posted under the queried numbers |
| MixedIndexes.MixedIndex.MirroredContains | be_indexer_kgroups.go:46-78 | posting lists filled with the replaced conjunctions contain them, with the wildcards the index has |
| MixedRetrieval.OpenFields | be_indexer_kgroups.go:146-190 | one group for each query field, of values or of numbers, that hits something, and its entries are those of the posting lists above |
| MixedRetrieval.RetrieveMixed | be_indexer_kgroups.go:262-284 | either engine collects exactly the documents with a satisfied conjunction of values and numbers, each conjunction once, and fails exactly for a value that cannot be read in a container it visits |
| MixedBuilders.CalcMixedSize | document.go:194-205 | the size counts the fields with an include, of values and of numbers |
| MixedBuilders.PrepareMixed | index_builder.go:356-378 | prepares values and numbers of a conjunction, succeeds exactly when all can be indexed, names the reason for an error or a panic, and commits nothing |
| MixedBuilders.TellAll | index_builder.go:263-274 | after a commit each number holder has been told exactly the expressions of its field and container, in order |
| MixedBuilders.AddMixed | index_builder.go:299-343 | adds a conjunction whole to lists, wildcards and number holders, or nothing of it |
| MixedEngines.BuildMixed | index_builder.go:103-198 | lists and number holders hold exactly the conjunctions that can be indexed, sorted; there is an index whenever every document has 1 to 255 conjunctions and none can panic, and if there is one every conjunction left out had an error |
| MixedEngines.MatchedAreMatching | be_indexer_kgroups.go:262-284 | documents with a satisfied conjunction among those added are the documents that match |
| MixedEngines.AnswerMixed | be_indexer_compact.go:87-171 | documents of values and numbers in, query in, exactly the documents with a satisfied conjunction out, for either engine and every choice of small ranges; conjunctions with an error are skipped, and a value that cannot be read on a field of an indexed conjunction is an error |

## Left out

- The Aho-Corasick holder and container: the automaton is a library.
- Parsers, tokenizers, geohash, reflection and JSON: a value is the list of tokens its tokenizer makes of it, or unsupported.
- Hashed value ids of the bitmap engine: taken as free of collisions, so the tokens stand for them.
- Protobuf and roaring bitmap internals: a codec pair that refuses invalid UTF-8, and mathematical sets.
- Object pools, logging, dumps, statistics, and the key a cursor carries for dumps.
- The holder registry: a container is the posting map of its default holder and, in the mixed index, one range holder for each number field, created when the first conjunction is committed to it and not by one that fails. Prepared data names its container by number instead of by reference.
- IndexBuilders.IndexerBuilder.ConfigureField: does not model the container option of a field, because the mixed index is told which fields are number fields.
- MixedBuilders.AddMixed: does not model the error policy, under which a document with a bad conjunction adds nothing; conjunctions are added one by one, as under the skip policy.
- The document cache and the segment-tree holder behind the mixed index: number fields use the default range holder, built afresh.
- Cache replay for the range holders: their ranges have unexported fields, which JSON drops.
- The value of the schema stamp: it folds over a map in iteration order, so nothing is known about it; hits across builders are not claimed.
- The linked list of segments is a sequence that is spliced in place; node aliasing is not modelled.
- The size test for small ranges is a predicate on ranges, since it compares floating-point numbers; every predicate is allowed.
- The capture for the cache happens after the commits of a document instead of between them.
- Range preparation with absent data: `CommitFieldIndexingData` does nothing for it in both range holders.
- Examples, benchmarks and generated code.
