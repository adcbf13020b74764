# EduRAGPT front end: a verified model

EduRAGPT is a mock study assistant written as a Next.js/React front end. It comes in two versions, `eduragpt` (the later one) and `eduragpt-main`. Users upload study materials, chat with a mocked retrieval-augmented assistant, browse a knowledge graph of course concepts and build cheat sheets. Nothing behind it is real: retrieval is keyword or substring matching over an in-memory chunk array, the answers are canned, and uploads and generation are simulated with timers.

This project models the logic of both versions in Dafny and proves what that logic promises. One module per source file:

- `RagUtils`: `eduragpt/lib/rag-utils.ts`.
  - Paragraph chunking into the session-wide chunk store.
  - The word-based relevance filter and the random top-three cut.
  - The keyword dispatch of answers and cheat sheets.
- `MainRagUtils`: `eduragpt-main/lib/rag-utils.ts`.
  - The substring search over the constant chunk array.
  - The fixed answer and the topic-headed cheat sheet.
- `StudyMaterials`: `eduragpt/lib/store.ts`, the material list with add, add-many, remove-by-id and clear.
- `CheatSheetPage`: `eduragpt-main/app/cheatsheet/page.tsx`.
  - Topic toggling, select and deselect all, and the course change.
  - Generation, and the export text and file name.
- `FileUpload` and `MainFileUpload`: the two `components/file-upload.tsx`.
  - Drop validation, removal, and the progress ticks.
  - The two completion timers.
- `UploadPage` and `MainUploadPage`: the two `app/upload/page.tsx`.
  - `UploadPage` also covers the step and status thresholds and the materials added to the store.
- `VisualizePage` and `MainVisualizePage`: the two `app/visualize/page.tsx`.
  - The base graph, the node and edge filters, and the position map.
  - `VisualizePage` also covers node generation, with extensions stripped from material names.
  - `VisualizePage` also covers random edge generation and generation from a question.
- `ChatPage` and `MainChatPage`: the two `app/chat/page.tsx`.
  - The send handler, the one assistant answer that follows each question, and the visualization trigger.
  - The material search and the history tab.

Shared modules:

- `Wrappers`: `Option` and `Outcome`.
- `Seqs`: filter, removal at an index, reverse, subsequence and permutation.
- `Text`: ASCII lower-casing, substring search, trimming and word splitting over the ECMAScript white-space and line-terminator characters, splitting and joining, the UTF-16 `length`, decimal rendering of naturals.
- `Chunks`: chunk, source and response records.
- `Uploads`: the file record, drop validation and both progress ticks.
- `Graph`: nodes and edges with their filters, positions, label wrapping and zoom.
- `ChatMessages`: the message record and the user-message filter.

How the browser is modelled:

- React state becomes fields of a class. Each handler becomes a method that states the whole new state.
- Every `setTimeout` or `setInterval` callback becomes a method of its own. A phase field records which callback is pending and the values its closure captured.
- `Math.random()` becomes a nondeterministic choice (`:|`), and the contract quantifies over the choices.
- `Date.now()` and `new Date()` become parameters.
- `toLowerCase` is an ASCII map. `includes` on strings is substring search.
- Progress and zoom values are `real`s.

## Model

| member | source | states |
|---|---|---|
| RagUtils.ParagraphChunk | Mini-Project/eduragpt/lib/rag-utils.ts:135-141 | every paragraph chunk is on a page of at least 1 |
| RagUtils.NonBlankIndices | Mini-Project/eduragpt/lib/rag-utils.ts:131-134 | every index it lists is a paragraph index whose paragraph is not blank |
| RagUtils.ChunksAtIndices | Mini-Project/eduragpt/lib/rag-utils.ts:131-144 | chunking yields exactly one chunk per non-blank paragraph, in increasing paragraph order, each built from that paragraph and its split index |
| RagUtils.ChunkContents | Mini-Project/eduragpt/lib/rag-utils.ts:131-144 | the chunk contents are exactly the non-blank paragraphs of `content.split("\n\n")`, in order |
| RagUtils.ChunkIdsDistinctPagesOrdered | Mini-Project/eduragpt/lib/rag-utils.ts:135-141 | the new chunks have distinct ids, and their pages are at least 1 and non-decreasing |
| RagUtils.BuildChunks | Mini-Project/eduragpt/lib/rag-utils.ts:128-144 | the push loop builds exactly the chunk list of the split paragraphs |
| RagUtils.ChunkStore.constructor | Mini-Project/eduragpt/lib/rag-utils.ts:13-124 | the store starts as the built-in chunk array |
| RagUtils.ChunkStore.AddDocumentChunks | Mini-Project/eduragpt/lib/rag-utils.ts:127-151 | returns the chunks of the paragraphs and appends exactly them to the store, whose old contents stay an unchanged prefix |
| RagUtils.RelevantChunks | Mini-Project/eduragpt/lib/rag-utils.ts:161-165 | a chunk is kept iff it is in the store and some query word longer than three UTF-16 code units occurs in its lower-cased content |
| RagUtils.ShortWordsNeverMatch | Mini-Project/eduragpt/lib/rag-utils.ts:163-164 | a query whose words all have at most three UTF-16 code units finds no chunk relevant |
| RagUtils.SingleWordQuery | Mini-Project/eduragpt/lib/rag-utils.ts:163-164 | for a one-word query longer than three UTF-16 code units, relevance is case-insensitive substring search |
| Text.UnicodeSpacesAreBlank | Mini-Project/eduragpt/lib/rag-utils.ts:134 | the no-break space, the byte order mark and the ideographic space trim away like ASCII white space, while a letter does not |
| RagUtils.ChunkStore.SearchDocuments | Mini-Project/eduragpt/lib/rag-utils.ts:154-174 | with relevant chunks, leaves the store alone and returns the first three of a reordering of them; with none, reorders the store in place and returns its first three |
| RagUtils.SearchResultProperties | Mini-Project/eduragpt/lib/rag-utils.ts:166-173 | a search keeps the store's multiset of chunks and returns at most three chunks, never repeating one the store holds once; that is `min(3, #relevant)` relevant chunks, or `min(3, #store)` chunks when none is relevant |
| RagUtils.ResponseTextIff | Mini-Project/eduragpt/lib/rag-utils.ts:206-223 | the answer is chosen by the first case-insensitive keyword match, in both directions: machine learning, data structure, algorithm, neural network or deep learning; otherwise the fallback that quotes the query |
| RagUtils.FallbackQuotesQuery | Mini-Project/eduragpt/lib/rag-utils.ts:218-222 | the fallback answer contains the query verbatim |
| RagUtils.FallbackInjective | Mini-Project/eduragpt/lib/rag-utils.ts:218-222 | two queries without keywords that get the same fallback answer are equal |
| RagUtils.FixedSheetsDistinct | Mini-Project/eduragpt/lib/rag-utils.ts:271-330 | the three fixed cheat sheets differ from one another, and the first matching keyword picks the sheet |
| RagUtils.DefaultSheetHeading | Mini-Project/eduragpt/lib/rag-utils.ts:331-347 | a topic without keywords gets a sheet holding the heading line `# topic`, and distinct topics of that kind get distinct sheets |
| RagUtils.ChunkStore.GenerateRAGResponse | Mini-Project/eduragpt/lib/rag-utils.ts:177-232 | the text is the keyword-dispatched answer, and the sources map one-to-one, in order, the chunks of one search outcome |
| RagUtils.ChunkStore.GenerateCheatSheet | Mini-Project/eduragpt/lib/rag-utils.ts:243-356 | the text is the keyword-dispatched sheet, and the sources map the chunks of one search outcome |
| Chunks.SourcesOf | Mini-Project/eduragpt/lib/rag-utils.ts:228-231 | one source per chunk, in order, with the chunk's `metadata.source` and `metadata.page` |
| MainRagUtils.Search | Mini-Project/eduragpt-main/lib/rag-utils.ts:42-44 | at most three chunks, a prefix of the order-preserving list of chunks whose lower-cased content contains the lower-cased query |
| MainRagUtils.SearchIsFirstMatches | Mini-Project/eduragpt-main/lib/rag-utils.ts:42-44 | the result is a subsequence of the store: all the matches when there are at most three, otherwise the first three |
| MainRagUtils.EmptyQueryTakesFirst | Mini-Project/eduragpt-main/lib/rag-utils.ts:42-44 | the empty query returns the first `min(3, #store)` chunks |
| MainRagUtils.SearchIgnoresQueryCase | Mini-Project/eduragpt-main/lib/rag-utils.ts:42 | lower-casing the query does not change the result |
| MainRagUtils.SearchDocuments | Mini-Project/eduragpt-main/lib/rag-utils.ts:35-45 | searches the constant chunk array, which nothing modifies |
| MainRagUtils.GenerateRAGResponse | Mini-Project/eduragpt-main/lib/rag-utils.ts:48-85 | every query gets the same fixed text, and at most three sources that map the retrieved chunks one-to-one, in order |
| MainRagUtils.GenerateCheatSheet | Mini-Project/eduragpt-main/lib/rag-utils.ts:96-145 | the text is the topic-headed sheet, and at most three sources map the retrieved chunks |
| MainRagUtils.CheatSheetShape | Mini-Project/eduragpt-main/lib/rag-utils.ts:122-136 | the sheet is a fixed prefix, then the topic, then a fixed suffix that does not depend on the topic |
| MainRagUtils.CheatSheetHeading | Mini-Project/eduragpt-main/lib/rag-utils.ts:122-136 | the sheet holds the heading line `# topic`, and distinct topics get distinct sheets |
| StudyMaterials.WithoutId | Mini-Project/eduragpt/lib/store.ts:34-37 | keeps exactly the materials whose id differs |
| StudyMaterials.RemoveKeepsOthersInOrder | Mini-Project/eduragpt/lib/store.ts:34-37 | after removal no material has the id; every other material remains, in its original relative order |
| StudyMaterials.RemoveAbsentIsIdentity | Mini-Project/eduragpt/lib/store.ts:34-37 | removing an absent id changes nothing |
| StudyMaterials.RemoveIdempotent | Mini-Project/eduragpt/lib/store.ts:34-37 | removing twice is removing once |
| StudyMaterials.AddThenRemoveRestores | Mini-Project/eduragpt/lib/store.ts:26-37 | adding a material with a fresh id and then removing that id restores the list |
| StudyMaterials.RemoveAfterAppend | Mini-Project/eduragpt/lib/store.ts:30-37 | removal distributes over an appended batch |
| StudyMaterials.StudyMaterialsStore.constructor | Mini-Project/eduragpt/lib/store.ts:25 | the list starts empty |
| StudyMaterials.StudyMaterialsStore.AddMaterial | Mini-Project/eduragpt/lib/store.ts:26-29 | appends the material; the old list is an unchanged prefix and the length grows by one |
| StudyMaterials.StudyMaterialsStore.AddMaterials | Mini-Project/eduragpt/lib/store.ts:30-33 | appends the batch in order; an empty batch changes nothing |
| StudyMaterials.StudyMaterialsStore.RemoveMaterial | Mini-Project/eduragpt/lib/store.ts:34-37 | the new list is the old one without that id: no material has the id, and the rest keep their order |
| StudyMaterials.StudyMaterialsStore.ClearMaterials | Mini-Project/eduragpt/lib/store.ts:38 | the list becomes empty |
| CheatSheetPage.Toggle | Mini-Project/eduragpt-main/app/cheatsheet/page.tsx:107-109 | flips the topic's membership and leaves every other topic's membership alone |
| CheatSheetPage.ToggleKeepsNoDuplicates | Mini-Project/eduragpt-main/app/cheatsheet/page.tsx:107-109 | a duplicate-free selection stays duplicate-free |
| CheatSheetPage.ToggleTwiceRestores | Mini-Project/eduragpt-main/app/cheatsheet/page.tsx:107-109 | toggling an absent topic twice restores the selection |
| CheatSheetPage.ToggleOffKeepsOrder | Mini-Project/eduragpt-main/app/cheatsheet/page.tsx:108 | toggling a present topic off keeps the others in order |
| CheatSheetPage.GeneratedItem | Mini-Project/eduragpt-main/app/cheatsheet/page.tsx:142-148 | a topic without predefined content gets a "Key Concepts" item from "Generated from multiple sources", page 0 |
| CheatSheetPage.MockContentShape | Mini-Project/eduragpt-main/app/cheatsheet/page.tsx:54-105 | exactly "Supervised Learning" and "Neural Networks" have predefined content, three items each |
| CheatSheetPage.TopicItemsShape | Mini-Project/eduragpt-main/app/cheatsheet/page.tsx:137-150 | a topic with predefined content contributes its three items, and any other topic exactly the one generated item; only "Supervised Learning" and "Neural Networks" have predefined content |
| CheatSheetPage.CheatSheetContentAppend | Mini-Project/eduragpt-main/app/cheatsheet/page.tsx:135-150 | the content of a selection is the concatenation of the contents of its parts, in selection order |
| CheatSheetPage.CheatSheetContentLength | Mini-Project/eduragpt-main/app/cheatsheet/page.tsx:135-150 | the content has the predefined items of each topic that has them and one item for every other topic, so with non-empty predefined lists at least one per selected topic |
| CheatSheetPage.BuildCheatSheet | Mini-Project/eduragpt-main/app/cheatsheet/page.tsx:135-150 | the `forEach` push loop builds exactly that content |
| CheatSheetPage.ItemText | Mini-Project/eduragpt-main/app/cheatsheet/page.tsx:159 | an item's export text is never empty |
| CheatSheetPage.ExportTextAppend | Mini-Project/eduragpt-main/app/cheatsheet/page.tsx:158-160 | the export text of a concatenation is the concatenation of the export texts |
| CheatSheetPage.ExportTextEnds | Mini-Project/eduragpt-main/app/cheatsheet/page.tsx:159 | the export text ends with the last item's `(p. page)` and a blank line |
| CheatSheetPage.DownloadFileName | Mini-Project/eduragpt-main/app/cheatsheet/page.tsx:183 | the file name is the course followed by `-cheatsheet.txt` |
| CheatSheetPage.PageNote | Mini-Project/eduragpt-main/app/cheatsheet/page.tsx:298 | the on-screen page note is empty iff the page is 0, and otherwise shows the page number |
| CheatSheetPage.CheatSheetPage.constructor | Mini-Project/eduragpt-main/app/cheatsheet/page.tsx:22-25 | the page starts on `machine-learning` with no topics, no sheet, not generating and no captured selection |
| CheatSheetPage.CheatSheetPage.HandleTopicToggle | Mini-Project/eduragpt-main/app/cheatsheet/page.tsx:107-109 | the selection becomes its toggle and stays duplicate-free; nothing else changes |
| CheatSheetPage.CheatSheetPage.HandleSelectAll | Mini-Project/eduragpt-main/app/cheatsheet/page.tsx:111-115 | a known course selects its topic list, an unknown course changes nothing |
| CheatSheetPage.CheatSheetPage.HandleDeselectAll | Mini-Project/eduragpt-main/app/cheatsheet/page.tsx:117-119 | the selection becomes empty; nothing else changes |
| CheatSheetPage.CheatSheetPage.ChangeCourse | Mini-Project/eduragpt-main/app/cheatsheet/page.tsx:207-210 | sets the course and empties the selection |
| CheatSheetPage.CheatSheetPage.HandleGenerateCheatSheet | Mini-Project/eduragpt-main/app/cheatsheet/page.tsx:121-133 | starts iff the selection is non-empty: an empty one changes nothing; otherwise the page is generating with the current selection captured |
| CheatSheetPage.CheatSheetPage.FinishGeneration | Mini-Project/eduragpt-main/app/cheatsheet/page.tsx:134-154 | only while generating: the sheet becomes the content of the selection captured when generation started, generation ends and nothing stays captured |
| CheatSheetPage.CheatSheetPage.HandleCopyToClipboard | Mini-Project/eduragpt-main/app/cheatsheet/page.tsx:157-160 | copies the export text of the current sheet |
| CheatSheetPage.CheatSheetPage.HandleDownload | Mini-Project/eduragpt-main/app/cheatsheet/page.tsx:174-183 | downloads the same export text under the course's file name |
| Uploads.Oversized | Mini-Project/eduragpt-main/components/file-upload.tsx:39 | no file is listed iff every dropped file is within the size limit |
| Uploads.CheckDrop | Mini-Project/eduragpt-main/components/file-upload.tsx:30-49 | rejects for count iff the total exceeds `maxFiles`; otherwise rejects for size iff some dropped file exceeds `maxSize`; otherwise accepts |
| Uploads.DropKeepsLimits | Mini-Project/eduragpt-main/components/file-upload.tsx:30-49 | a drop keeps a selection within count and size limits within them |
| Uploads.RemoveKeepsLimits | Mini-Project/eduragpt-main/components/file-upload.tsx:67-69 | a removal keeps the selection within the limits |
| Uploads.LinearTickBounds | Mini-Project/eduragpt-main/components/file-upload.tsx:85-91 | from a multiple of 5 in [0, 100], a tick adds 5 below 100 and holds 100, staying a multiple of 5 in range |
| Uploads.AcceleratedTickBounds | Mini-Project/eduragpt/components/file-upload.tsx:84-92 | below 100 a tick never passes 99.5 and strictly increases below 99.5; it holds 99.5 and returns 100 from 100 or more |
| Uploads.UploadMessagePlural | Mini-Project/eduragpt-main/components/file-upload.tsx:106 | the message says "files" unless exactly one file was uploaded |
| FileUpload.FileUploadComponent.constructor | Mini-Project/eduragpt/components/file-upload.tsx:16-24 | starts empty, idle, at progress 0, with the given limits |
| FileUpload.FileUploadComponent.OnDrop | Mini-Project/eduragpt/components/file-upload.tsx:27-50 | the outcome is the count-then-size check; only an accepted drop appends the files, in order |
| FileUpload.FileUploadComponent.RemoveFile | Mini-Project/eduragpt/components/file-upload.tsx:66-68 | removes exactly index `i`; keeps the rest in order; out of range it changes nothing |
| FileUpload.FileUploadComponent.HandleUpload | Mini-Project/eduragpt/components/file-upload.tsx:70-93 | with no files nothing changes; otherwise uploading starts, the interval is armed and the files are captured |
| FileUpload.FileUploadComponent.Tick | Mini-Project/eduragpt/components/file-upload.tsx:83-93 | progress takes one accelerated tick and stays within [0, 99.5] |
| FileUpload.FileUploadComponent.UploadTimeout | Mini-Project/eduragpt/components/file-upload.tsx:96-98 | stops the interval and sets progress to 100 |
| FileUpload.FileUploadComponent.CompletionTimeout | Mini-Project/eduragpt/components/file-upload.tsx:100-111 | hands the captured files to the callback, clears uploading, empties the files and resets progress to 0 |
| MainFileUpload.FileUploadComponent.constructor | Mini-Project/eduragpt-main/components/file-upload.tsx:17-25 | starts empty, idle, at progress 0, with the given limits |
| MainFileUpload.FileUploadComponent.OnDrop | Mini-Project/eduragpt-main/components/file-upload.tsx:28-51 | the outcome is the count-then-size check; only an accepted drop appends the files, in order |
| MainFileUpload.FileUploadComponent.RemoveFile | Mini-Project/eduragpt-main/components/file-upload.tsx:67-69 | removes exactly index `i`; keeps the rest in order; out of range it changes nothing |
| MainFileUpload.FileUploadComponent.HandleUpload | Mini-Project/eduragpt-main/components/file-upload.tsx:71-92 | with no files nothing changes; otherwise uploading starts with the files captured |
| MainFileUpload.FileUploadComponent.Tick | Mini-Project/eduragpt-main/components/file-upload.tsx:84-92 | progress takes one linear tick and stays a multiple of 5 in [0, 100] |
| MainFileUpload.FileUploadComponent.UploadTimeout | Mini-Project/eduragpt-main/components/file-upload.tsx:95-97 | stops the interval and sets progress to 100 |
| MainFileUpload.FileUploadComponent.CompletionTimeout | Mini-Project/eduragpt-main/components/file-upload.tsx:99-109 | hands the captured files to the callback with the pluralised message, then resets to empty, idle, progress 0 |
| UploadPage.CurrentStep | Mini-Project/eduragpt/app/upload/page.tsx:111 | the step is in 1..4, and is 1 when not uploading |
| UploadPage.CurrentStepMonotone | Mini-Project/eduragpt/app/upload/page.tsx:111 | the step never decreases as progress grows |
| UploadPage.LastStepNeedsFullProgress | Mini-Project/eduragpt/app/upload/page.tsx:111 | the last step is reached iff progress is 100 |
| UploadPage.StatusFollowsStep | Mini-Project/eduragpt/app/upload/page.tsx:281-299 | the status label and detail use the same thresholds as the step, and the four labels are distinct |
| UploadPage.MaterialsOf | Mini-Project/eduragpt/app/upload/page.tsx:75-83 | one material per file, in order, with its name, type and size, pages in 5..34, content `This is the content of` plus the name, and the upload date |
| UploadPage.ContentNamesFile | Mini-Project/eduragpt/app/upload/page.tsx:82 | each material's content names its file |
| UploadPage.UploadPageState.constructor | Mini-Project/eduragpt/app/upload/page.tsx:18-21 | the page starts with no files, not uploading, at progress 0, not complete |
| UploadPage.UploadPageState.HandleFileChange | Mini-Project/eduragpt/app/upload/page.tsx:33-38 | a selection appends its files in order; no selection changes nothing |
| UploadPage.UploadPageState.RemoveFile | Mini-Project/eduragpt/app/upload/page.tsx:40-42 | removes exactly index `i` |
| UploadPage.UploadPageState.HandleUpload | Mini-Project/eduragpt/app/upload/page.tsx:44-67 | with no files nothing changes; otherwise uploading starts with the files captured |
| UploadPage.UploadPageState.Tick | Mini-Project/eduragpt/app/upload/page.tsx:57-67 | progress takes one accelerated tick and stays below 100 |
| UploadPage.UploadPageState.ProcessingTimeout | Mini-Project/eduragpt/app/upload/page.tsx:70-85 | sets progress to 100 and adds to the store exactly one material per captured file, in order, with random tags and page counts |
| UploadPage.UploadPageState.CompleteTimeout | Mini-Project/eduragpt/app/upload/page.tsx:87-88 | marks the upload complete while `uploading` stays set |
| MainUploadPage.UploadPageState.constructor | Mini-Project/eduragpt-main/app/upload/page.tsx:13-15 | the page starts with no files, idle, at progress 0 |
| MainUploadPage.UploadPageState.HandleFileChange | Mini-Project/eduragpt-main/app/upload/page.tsx:18-23 | a selection appends its files in order; no selection changes nothing |
| MainUploadPage.UploadPageState.RemoveFile | Mini-Project/eduragpt-main/app/upload/page.tsx:25-27 | removes exactly index `i` |
| MainUploadPage.UploadPageState.HandleUpload | Mini-Project/eduragpt-main/app/upload/page.tsx:29-50 | with no files nothing changes; otherwise uploading starts |
| MainUploadPage.UploadPageState.Tick | Mini-Project/eduragpt-main/app/upload/page.tsx:42-50 | progress takes one linear tick and stays a multiple of 5 in [0, 100] |
| MainUploadPage.UploadPageState.UploadTimeout | Mini-Project/eduragpt-main/app/upload/page.tsx:53-55 | stops the interval and sets progress to 100 |
| MainUploadPage.UploadPageState.CompletionTimeout | Mini-Project/eduragpt-main/app/upload/page.tsx:57-60 | clears uploading, empties the files and resets progress to 0 |
| Graph.FilterNodes | Mini-Project/eduragpt/app/visualize/page.tsx:136-140 | a node is kept iff its lower-cased label contains the lower-cased search and the course is `all` or its group |
| Graph.NodeIds | Mini-Project/eduragpt/app/visualize/page.tsx:143 | the ids of the nodes, position by position |
| Graph.FilterEdges | Mini-Project/eduragpt/app/visualize/page.tsx:146-148 | an edge is kept iff both its endpoints are among the given ids |
| Graph.FiltersKeepOrder | Mini-Project/eduragpt/app/visualize/page.tsx:136-148 | both filters return order-preserving subsequences |
| Graph.EmptySearchShowsAll | Mini-Project/eduragpt/app/visualize/page.tsx:136-140 | the empty search over all courses keeps every node, in order |
| Graph.ShownEdgesJoinShownNodes | Mini-Project/eduragpt/app/visualize/page.tsx:136-148 | an edge is drawn iff it is an edge and both its endpoints are ids of shown nodes |
| Graph.FilterKeepsIdsDistinct | Mini-Project/eduragpt/app/visualize/page.tsx:136-140 | filtering keeps node ids distinct |
| Graph.EmptySearchDrawsAllEdges | Mini-Project/eduragpt/app/visualize/page.tsx:136-148 | when every edge joins known nodes, the empty search over all courses draws every edge |
| Graph.PositionsKeys | Mini-Project/eduragpt/app/visualize/page.tsx:160-168 | the keys of the position map are exactly the node ids |
| Graph.PositionsOfLast | Mini-Project/eduragpt/app/visualize/page.tsx:160-168 | a node that no later node shares its id with holds the position of its own index |
| Graph.PositionsSize | Mini-Project/eduragpt/app/visualize/page.tsx:160-168 | with distinct ids there is one key per node |
| Graph.AssignPositions | Mini-Project/eduragpt/app/visualize/page.tsx:160-168 | the `forEach` loop builds exactly the position map of the nodes |
| Graph.PlanFrame | Mini-Project/eduragpt/app/visualize/page.tsx:136-168 | the frame shows the filtered nodes and edges, and its position keys are exactly the ids of the shown nodes; with distinct ids, shown node `i` is at position `i` |
| Graph.WrapLabel | Mini-Project/eduragpt/app/visualize/page.tsx:341-349 | two lines iff the label has more than one word and more than ten UTF-16 code units; otherwise the one line is the label |
| Graph.WrapRejoins | Mini-Project/eduragpt/app/visualize/page.tsx:341-349 | the two lines joined by one space give back the label; the first line is the first `ceil(n/2)` words and the second the rest, both non-empty runs |
| Graph.WrapCountsCodeUnits | Mini-Project/eduragpt/app/visualize/page.tsx:342 | a two-word label of seven characters, four of them emoji, has eleven UTF-16 code units and is wrapped |
| Graph.ZoomStaysInRange | Mini-Project/eduragpt/app/visualize/page.tsx:355-361 | zooming stays in [0.5, 2], steps by 0.1 away from the bounds, and is stuck only at the bound it moves toward |
| VisualizePage.BaseIdsListed | Mini-Project/eduragpt/app/visualize/page.tsx:51-66 | the base node ids are "1" to "14" in order |
| VisualizePage.BaseIdsDistinct | Mini-Project/eduragpt/app/visualize/page.tsx:51-66 | the base ids are distinct and start with a digit |
| VisualizePage.BaseGraphWellFormed | Mini-Project/eduragpt/app/visualize/page.tsx:51-95 | fourteen base nodes and fourteen base edges, every edge joins base nodes, and no base node is in the materials group |
| VisualizePage.MatchedExtension | Mini-Project/eduragpt/app/visualize/page.tsx:71 | a matched extension is a suffix of the lower-cased name |
| VisualizePage.StripExtension | Mini-Project/eduragpt/app/visualize/page.tsx:71 | the result is a prefix of the name |
| VisualizePage.StripExtensionShape | Mini-Project/eduragpt/app/visualize/page.tsx:71 | either no listed extension ends the name and it is unchanged, or exactly the suffix that lower-cases to the matched extension is cut |
| VisualizePage.MatchedExtensionOf | Mini-Project/eduragpt/app/visualize/page.tsx:71 | a lower-cased name ending in one of the listed extensions matches exactly that extension |
| VisualizePage.StripAppendedExtension | Mini-Project/eduragpt/app/visualize/page.tsx:71 | a name made of a base and an extension in any letter case loses exactly that extension |
| VisualizePage.MaterialNodes | Mini-Project/eduragpt/app/visualize/page.tsx:69-74 | one node per material, in order |
| VisualizePage.GeneratedNodesShape | Mini-Project/eduragpt/app/visualize/page.tsx:50-77 | the 14 base nodes, then per material `i` a node with id `m-i`, group materials, size 15 and the stripped name |
| VisualizePage.QuestionExtrasChoice | Mini-Project/eduragpt/app/visualize/page.tsx:390-402 | the three machine-learning extras iff the question mentions machine learning; the data-structure extras iff it mentions only data structure; no extras otherwise |
| VisualizePage.NodeIdsDistinct | Mini-Project/eduragpt/app/visualize/page.tsx:387-402 | the generated node ids, extras included, are distinct |
| VisualizePage.EdgesFrom | Mini-Project/eduragpt/app/visualize/page.tsx:106-114 | one edge per target, in order, from the material with width 1 and the material colour |
| VisualizePage.MaterialEdgesShape | Mini-Project/eduragpt/app/visualize/page.tsx:98-115 | between two and three edges per material, each from a material to a concept |
| VisualizePage.ConnectMaterial | Mini-Project/eduragpt/app/visualize/page.tsx:103-114 | two or three edges from the material, each to a concept |
| VisualizePage.GenerateEdges | Mini-Project/eduragpt/app/visualize/page.tsx:79-118 | fails iff there are materials but no concepts; otherwise the base edges followed by 2 or 3 random concept edges per material |
| VisualizePage.GeneratedMaterialIds | Mini-Project/eduragpt/app/visualize/page.tsx:99 | the material ids of a generated graph are those of the material nodes |
| VisualizePage.GeneratedConceptIds | Mini-Project/eduragpt/app/visualize/page.tsx:104 | the concept ids of a generated graph are the base ids followed by the extras' ids |
| VisualizePage.ConceptsExist | Mini-Project/eduragpt/app/visualize/page.tsx:104 | a graph starting with the base nodes has concepts, so edge generation never fails on it |
| VisualizePage.GeneratedEdgesKnown | Mini-Project/eduragpt/app/visualize/page.tsx:79-118 | every generated edge joins two nodes of the graph |
| VisualizePage.ConnectGraph | Mini-Project/eduragpt/app/visualize/page.tsx:79-118 | on a graph that starts with the base nodes edge generation does not fail, and every edge joins two of its nodes |
| VisualizePage.VisualizePageState.constructor | Mini-Project/eduragpt/app/visualize/page.tsx:35-121 | starts with the generated nodes and one random choice of generated edges, empty search, all courses, zoom 1 |
| VisualizePage.VisualizePageState.SetSearchTerm | Mini-Project/eduragpt/app/visualize/page.tsx:465 | sets the search; nothing else changes |
| VisualizePage.VisualizePageState.SetCourse | Mini-Project/eduragpt/app/visualize/page.tsx:470 | sets the course; nothing else changes |
| VisualizePage.VisualizePageState.HandleZoomIn | Mini-Project/eduragpt/app/visualize/page.tsx:355-357 | the zoom takes one clamped step up |
| VisualizePage.VisualizePageState.HandleZoomOut | Mini-Project/eduragpt/app/visualize/page.tsx:359-361 | the zoom takes one clamped step down |
| VisualizePage.VisualizePageState.HandleGenerateFromQuestion | Mini-Project/eduragpt/app/visualize/page.tsx:372-382 | a blank question changes nothing; otherwise generation starts for that question |
| VisualizePage.VisualizePageState.FinishGeneration | Mini-Project/eduragpt/app/visualize/page.tsx:385-407 | the nodes become the generated nodes plus the question's extras, the edges one random generation over them, and generation ends |
| VisualizePage.VisualizePageState.Frame | Mini-Project/eduragpt/app/visualize/page.tsx:136-168 | the filtered nodes and edges, with exactly one position per shown node |
| MainVisualizePage.BaseIdsListed | Mini-Project/eduragpt-main/app/visualize/page.tsx:30-45 | the node ids are "1" to "14" in order |
| MainVisualizePage.BaseIdsDistinct | Mini-Project/eduragpt-main/app/visualize/page.tsx:30-45 | the fourteen ids are distinct |
| MainVisualizePage.BaseEndpointsKnown | Mini-Project/eduragpt-main/app/visualize/page.tsx:30-62 | every edge joins two nodes of the graph |
| MainVisualizePage.BaseGraphWellFormed | Mini-Project/eduragpt-main/app/visualize/page.tsx:30-62 | 14 nodes with distinct ids and 14 edges between them |
| MainVisualizePage.BaseGraphAllDrawn | Mini-Project/eduragpt-main/app/visualize/page.tsx:30-62 | the empty search over all courses draws the whole constant graph |
| MainVisualizePage.VisualizePageState.constructor | Mini-Project/eduragpt-main/app/visualize/page.tsx:25-27 | starts on the constant graph with empty search, all courses, zoom 1 |
| MainVisualizePage.VisualizePageState.SetSearchTerm | Mini-Project/eduragpt-main/app/visualize/page.tsx:226 | sets the search; nothing else changes |
| MainVisualizePage.VisualizePageState.SetCourse | Mini-Project/eduragpt-main/app/visualize/page.tsx:231 | sets the course; nothing else changes |
| MainVisualizePage.VisualizePageState.HandleZoomIn | Mini-Project/eduragpt-main/app/visualize/page.tsx:189-191 | the zoom takes one clamped step up and stays in range |
| MainVisualizePage.VisualizePageState.HandleZoomOut | Mini-Project/eduragpt-main/app/visualize/page.tsx:193-195 | the zoom takes one clamped step down and stays in range |
| MainVisualizePage.VisualizePageState.Frame | Mini-Project/eduragpt-main/app/visualize/page.tsx:81-109 | the filtered nodes and edges, with exactly one position per shown node, node `i` at position `i` |
| ChatMessages.UserMessages | Mini-Project/eduragpt/app/chat/page.tsx:387 | keeps exactly the user messages |
| ChatMessages.UserMessagesAppend | Mini-Project/eduragpt/app/chat/page.tsx:387 | appending a message extends the user messages by it exactly when it is a user message |
| ChatMessages.UserMessagesInOrder | Mini-Project/eduragpt-main/app/chat/page.tsx:209-211 | the user messages keep the log's order |
| ChatPage.ReplyMessage | Mini-Project/eduragpt/app/chat/page.tsx:82-116 | an assistant message: on success the answer with its sources, on failure the apology with none |
| ChatPage.TriggerIgnoresCase | Mini-Project/eduragpt/app/chat/page.tsx:93-97 | the visualization trigger does not depend on letter case |
| ChatPage.FilteredMaterials | Mini-Project/eduragpt/app/chat/page.tsx:132-134 | keeps exactly the materials whose lower-cased name contains the lower-cased search |
| ChatPage.FilteredMaterialsProperties | Mini-Project/eduragpt/app/chat/page.tsx:132-134 | an empty search keeps every material in order, and any search keeps a subsequence |
| ChatPage.History | Mini-Project/eduragpt/app/chat/page.tsx:384-388 | the history lists exactly the user messages, one entry each |
| ChatPage.HistoryAfterAppend | Mini-Project/eduragpt/app/chat/page.tsx:384-388 | a new question goes to the top of the history (newest first); an answer leaves it unchanged |
| ChatPage.ChatPageState.constructor | Mini-Project/eduragpt/app/chat/page.tsx:34-44 | the log is the welcome message, the input and search are empty, not loading |
| ChatPage.ChatPageState.SetInput | Mini-Project/eduragpt/app/chat/page.tsx:273 | sets the input; nothing else changes |
| ChatPage.ChatPageState.AskAboutMaterial | Mini-Project/eduragpt/app/chat/page.tsx:339-340 | the input becomes `Tell me about` and the material name |
| ChatPage.ChatPageState.SetSearchTerm | Mini-Project/eduragpt/app/chat/page.tsx:312 | sets the material search; nothing else changes |
| ChatPage.ChatPageState.HandleSendMessage | Mini-Project/eduragpt/app/chat/page.tsx:63-76 | blank input changes nothing; otherwise appends one user message holding the untrimmed input, clears the input, starts loading and keeps the submitted text for the answer |
| ChatPage.ChatPageState.HandleKeyDown | Mini-Project/eduragpt/app/chat/page.tsx:125-130 | Enter without Shift sends exactly as the button does; any other key changes nothing |
| ChatPage.ChatPageState.FinishResponse | Mini-Project/eduragpt/app/chat/page.tsx:80-118 | appends exactly one assistant message (the answer or the apology), ends loading, and toasts iff the answer came and the submitted text has a trigger word |
| ChatPage.ChatPageState.Respond | Mini-Project/eduragpt/app/chat/page.tsx:78-118 | the one new message, with id `later + 1`, is the keyword-dispatched answer to the submitted text with the sources of the chunks one search of the store returned (at most three); the store keeps its chunks as a multiset |
| MainChatPage.GenerateMockResponse | Mini-Project/eduragpt-main/app/chat/page.tsx:82-92 | the answer is always one of the four canned responses |
| MainChatPage.ReplyMessage | Mini-Project/eduragpt-main/app/chat/page.tsx:68-76 | an assistant message with the text and the two fixed sources |
| MainChatPage.History | Mini-Project/eduragpt-main/app/chat/page.tsx:209-211 | exactly the user messages, in chronological order |
| MainChatPage.HistoryAfterAppend | Mini-Project/eduragpt-main/app/chat/page.tsx:209-211 | a new question goes to the bottom of the history; an answer leaves it unchanged |
| MainChatPage.ChatPageState.constructor | Mini-Project/eduragpt-main/app/chat/page.tsx:26-34 | the log is the single welcome message with id `1`, empty input, not loading |
| MainChatPage.ChatPageState.SetInput | Mini-Project/eduragpt-main/app/chat/page.tsx:169 | sets the input; nothing else changes |
| MainChatPage.ChatPageState.HandleSendMessage | Mini-Project/eduragpt-main/app/chat/page.tsx:52-64 | blank input changes nothing; otherwise appends one user message with the input, clears it and starts loading |
| MainChatPage.ChatPageState.ResponseTimeout | Mini-Project/eduragpt-main/app/chat/page.tsx:67-79 | appends exactly one assistant message, a canned answer with the two fixed sources, and ends loading |

## Left out

- Force-directed simulation, circular coordinates and canvas drawing: these are floating-point geometry and painting. `place` stands for the coordinates, and only the position map's keys and the index each node is placed at are modelled. The `viewMode` switch only selects the coordinates, so it is not modelled.
- The optional edge `label` field is never set or read, so it is not modelled.
- Message timestamps, the upload date and the `Date.now()` ids are clock reads. Each callback gets one reading as a parameter, and that reading stands for every read the callback makes. The source reads the clock again for each material at `eduragpt/app/upload/page.tsx` lines 76 and 81, and for each generated item at `eduragpt-main/app/cheatsheet/page.tsx` line 143. Those reads can differ, but the model gives all of them the same value.
- Toasts, router navigation, focus, scrolling, the clipboard, `Blob` downloads and `window.print` are browser side effects. Only the values handed to them are modelled: the toast condition, the copied text, the file name.
- The zustand `persist` layer writes to localStorage, so it is not modelled.
- The react-dropzone `accept` map and the drag state belong to the library, so they are not modelled.
- The display-only lists are not modelled: the `uploadSteps` cards of the upload page and the static file list of the older chat page.
- `Math.round` of the displayed progress is presentation only.
- JS double rounding: progress and zoom are exact `real`s.
- Case mapping: `toLowerCase` is an ASCII map, so Unicode case mapping is not modelled.
- Lone surrogates: strings are sequences of Unicode scalar values, so a JavaScript string holding an unpaired surrogate cannot be represented. Every other string is represented. For those, `includes`, `split(" ")` and the extension pattern give the same answers over code units as over scalar values, and `length` is modelled as the UTF-16 count.
- The `try`/`catch` in both `rag-utils.ts` generators: nothing in the `try` can throw, so the error answers are unreachable and not modelled. The chat page's own `catch` is modelled, through the `Outcome` passed to `FinishResponse`.
- The unused prompt strings and the commented-out model calls in both `rag-utils.ts` have no effect, so they are not modelled.
- The redirect to `/chat` two seconds after upload completion, at `eduragpt/app/upload/page.tsx` line 98, is navigation.
- `eduragpt/components/file-upload.tsx` ends at line 138. Its markup after that line, including the upload button, is not part of this model.
- FileUpload.FileUploadComponent.HandleUpload: requires `!uploading`. The upload button is cut off in the older file, so this assumes it is disabled while uploading, as the same button is at `eduragpt-main/components/file-upload.tsx` line 165.
- MainFileUpload.FileUploadComponent.HandleUpload: requires `!uploading`, because the upload button is disabled while uploading (line 165). The timer methods likewise require the phase that armed them.
- UploadPage.UploadPageState.HandleUpload: requires `!uploading`, because the button is disabled while uploading (line 307).
- MainUploadPage.UploadPageState.HandleUpload: requires `!uploading`, because the button is disabled while uploading (line 134).
- VisualizePage.VisualizePageState.HandleGenerateFromQuestion: requires `!isGenerating`, because the button is disabled while generating (line 553).
- ChatPage.ChatPageState.HandleSendMessage: requires `!isLoading`. The input and the send button are disabled while loading (lines 275 and 280). HandleKeyDown requires the same, because it fires on that disabled input.
- MainChatPage.ChatPageState.HandleSendMessage: requires `!isLoading`, because the input and the button are disabled while loading (lines 170 and 173).
- CheatSheetPage.CheatSheetPage.HandleGenerateCheatSheet: requires `!generating`, because the button is disabled while generating (line 258). FinishGeneration requires `generating`, the state that armed its timer.
- UploadPage.UploadPageState.ProcessingTimeout: the random suffix of each material id is an arbitrary string tag, not a base-36 string of nine characters.
- VisualizePage.VisualizePageState.FinishGeneration: the question is the one captured when generation started, as the source's closure captures it. Later edits to the question box are not modelled.
- Interleavings of timers with other handlers: the model allows more action sequences than the UI does. The remove buttons are disabled while uploading at `eduragpt-main/components/file-upload.tsx` line 146, `eduragpt-main/app/upload/page.tsx` line 114 and `eduragpt/app/upload/page.tsx` line 266. The file input of `eduragpt/app/upload/page.tsx` is disabled too (line 226). The older `eduragpt/components/file-upload.tsx` ends before its file list, so its remove button cannot be checked. `RemoveFile` and `HandleFileChange` still require only `Valid()`, so the model also covers a removal or a selection during an upload. Neither changes the files the timers captured.
