# Graph RAG metadata service — a Dafny model of its record-processing core

The system ingests documents into a knowledge graph and answers questions over it.

**Ingestion.** A document is parsed to text and split into chunks. A language model extracts entities and relationships from every chunk. The extractions are consolidated per document: one record per canonical entity name and one per (source, type, target) triple. The consolidated records are merged into a Neo4j graph. The chunks go to a vector store (Weaviate, or an older FAISS index) together with the entities they mention. A SQLite table records every file's status and counters.

**Query.** The question's entities are linked to graph entities through vector search, under a distance threshold. The query intent is classified, and a subgraph is retrieved accordingly: neighbourhood or shortest paths. That subgraph is rendered as text context for the answering model. A cross-encoder can re-rank retrieved chunks.

The model keeps the deterministic logic between those collaborators. The language model, embedding model, cross-encoder, databases, vector search and clock are function-valued parameters or plain inputs. Each source file of the core has its own module:

| module | source file |
|---|---|
| `Common`, `Strings`, `Utf8` | Python dictionaries, strings and `bytes.decode` (RFC 3629, sections 3–4; ISO/IEC 8859-1) |
| `Models` | `app/models/common_models.py`, `app/models/ingestion_models.py` |
| `Config` | `app/core/config.py` |
| `FileParser` | `app/utils/file_parser.py` |
| `RouterIngestion` | `app/apis/router_ingestion.py` |
| `FileTable` | `app/database/sqlite_connector.py` (a class over a filename-keyed map) |
| `IngestionService` | `app/services/ingestion_service.py` |
| `Neo4jConnector` | `app/graph_db/neo4j_connector.py` |
| `QueryService` | `app/services/query_service.py` |
| `Reranker` | `app/retrieval/reranker.py` (a class sorting an array in place) |
| `FaissIndex` | `app/vector_store/faiss_connector.py` (a class with index and metadata fields) |
| `WeaviateStore` | `app/vector_store/weaviate_connector.py` |

Python values stored in property dictionaries are `Value` (`None`, integers, strings, lists of strings), with Python truthiness (`Common.Truthy`). Scores and distances are `real`. Loops in the source are methods with loop invariants. Each method is proved against a specification function, whose properties are lemmas.

## Model

| member | source | states |
|---|---|---|
| Common.Get | app/services/query_service.py:74 | `d.get(key)` is the stored value, or None for a missing key |
| Common.GetOr | app/vector_store/weaviate_connector.py:100 | `d.get(key, default)` is the stored value, or the default for a missing key |
| Common.Dedup | app/services/ingestion_service.py:117 | `list(set(xs))` holds exactly the elements of `xs`, each once |
| Common.ValuesInOrder | app/graph_db/neo4j_connector.py:310 | a dictionary's `values()` list has one value per key, in insertion order |
| Common.ValuesInOrderAppend | app/graph_db/neo4j_connector.py:255-256 | inserting a new key appends its value to `values()` |
| Common.DistinctCardinality | app/services/ingestion_service.py:78-82 | a duplicate-free key order has as many entries as the dictionary |
| Strings.Split | app/apis/router_ingestion.py:67 | `s.split(c)` always yields at least one piece |
| Strings.SplitNoSeparator | app/apis/router_ingestion.py:67 | a string without the separator splits into itself |
| Strings.SplitAfterPiece | app/apis/router_ingestion.py:67 | a piece followed by the separator splits off as the first piece |
| Strings.SplitAtSeparator | app/apis/router_ingestion.py:67 | a string containing the separator splits into at least two pieces |
| Strings.SplitLastPiece | app/apis/router_ingestion.py:67 | `s.split(c)[-1]` is the text after the last `c` |
| Strings.SplitLastOfCons | app/apis/router_ingestion.py:67 | the last piece of a split is the tail's last piece unless the first character joins a single tail piece |
| Strings.LastIndexOfAfter | app/apis/router_ingestion.py:67 | in `a + c + b` with no `c` in `b`, the last `c` sits right after `a` |
| Strings.LowerConcat | app/apis/router_ingestion.py:67 | lowercasing a concatenation lowercases each part |
| Strings.LastIndexOfTail | app/apis/router_ingestion.py:67 | the last occurrence in `s` is one past the last occurrence in `s[1:]` |
| Strings.LastIndexOf | app/apis/router_ingestion.py:67 | the index found holds `c`, and no later index does |
| Strings.JoinStartsWith | app/services/query_service.py:101 | a `join` starts with its first piece |
| Strings.SplitJoin | app/utils/file_parser.py:82 | splitting a `"\n".join` of newline-free pieces gives the pieces back |
| Strings.JoinLength | app/utils/file_parser.py:110 | a join is as long as its pieces plus one separator between each pair |
| Strings.LowerChar | app/utils/file_parser.py:172 | `lower()` maps exactly the ASCII capitals to small letters |
| Strings.Lower | app/utils/file_parser.py:172 | `lower()` keeps the length and lowers each character |
| Strings.Take | app/services/query_service.py:81 | `s[:n]` is the prefix of length `min(n, len(s))` |
| Strings.ContainsAt | app/apis/router_ingestion.py:89-91 | `sub in s` holds whenever some window of `s` equals `sub` |
| Strings.CountAppend | app/database/sqlite_connector.py:132 | occurrences in a concatenation add up |
| Strings.CountAbsent | app/database/sqlite_connector.py:132 | a character not in `s` occurs zero times |
| Strings.CountOneAtEnd | app/database/sqlite_connector.py:123 | `"col = ?"` with a `?`-free column has exactly one placeholder |
| Strings.CountJoin | app/database/sqlite_connector.py:132 | occurrences in a join are those of the pieces plus those of the separators |
| Utf8.DecodeFirst | app/utils/file_parser.py:32 | one well-formed UTF-8 sequence decodes to one character of 1 to 4 bytes (RFC 3629, section 4) |
| Utf8.EncodeChar | app/utils/file_parser.py:32 | a character encodes to 1 to 4 bytes (RFC 3629, section 3) |
| Utf8.Latin1 | app/utils/file_parser.py:40 | `decode('latin-1')` gives one character per byte, with that byte's code |
| Utf8.TwoByteLayout | app/utils/file_parser.py:32 | two-byte encodings have a valid lead byte and tail, and decode back to the code point |
| Utf8.ThreeByteLayout | app/utils/file_parser.py:32 | the same for three-byte encodings, including the E0 lower bound |
| Utf8.FourByteLayout | app/utils/file_parser.py:32 | the same for four-byte encodings, up to U+10FFFF |
| Utf8.DecodeFirstEncodeChar2 | app/utils/file_parser.py:32 | a two-byte encoding decodes back to its character |
| Utf8.DecodeFirstEncodeChar3 | app/utils/file_parser.py:32 | a three-byte encoding decodes back to its character |
| Utf8.DecodeFirstEncodeChar4 | app/utils/file_parser.py:32 | a four-byte encoding decodes back to its character |
| Utf8.DecodeFirstEncodeChar | app/utils/file_parser.py:32 | any character's encoding decodes back to it, consuming exactly its bytes |
| Utf8.DecodeEncode | app/utils/file_parser.py:32 | every string survives a UTF-8 encode/decode round trip |
| Utf8.TwoByteDecodeLayout | app/utils/file_parser.py:32 | the two-byte decoding formula can be inverted |
| Utf8.ThreeByteDecodeLayout | app/utils/file_parser.py:32 | the three-byte decoding formula can be inverted |
| Utf8.FourByteDecodeLayout | app/utils/file_parser.py:32 | the four-byte decoding formula can be inverted |
| Utf8.EncodeCharDecodeFirst | app/utils/file_parser.py:32 | a decoded character re-encodes to exactly the bytes it came from |
| Utf8.EncodeDecode | app/utils/file_parser.py:32 | well-formed UTF-8 has one decoding: re-encoding gives back the bytes |
| Models.NewNode | app/models/common_models.py:4-11 | a node built without properties has an empty property map |
| Models.NewEdge | app/models/common_models.py:21-28 | an edge built without properties has an empty property map |
| Models.EmptySubgraph | app/models/common_models.py:36-44 | `Subgraph()` has no nodes and no edges and `is_empty()` holds |
| Models.NewEntity | app/models/ingestion_models.py:4-12 | the three fields are required and `contexts` defaults to empty |
| Models.NewRelationship | app/models/ingestion_models.py:16-24 | the three fields are required and `contexts` defaults to empty |
| Models.EmptyExtraction | app/models/ingestion_models.py:28-33 | an extraction defaults to no entities and no relationships |
| Models.NewStatus | app/models/ingestion_models.py:35-43 | a status defaults to no message and zero counters |
| Models.StatusWithMessage | app/models/ingestion_models.py:35-43 | a status with a message keeps both counters at zero |
| Config.ToInt | app/core/config.py:149-151 | `int(x)` keeps integers, truncates floats toward zero and parses strings |
| Config.ToReal | app/core/config.py:148 | `float(x)` widens integers, keeps floats and parses strings |
| Config.ToRealExtendsToInt | app/core/config.py:148-151 | `float(x)` succeeds with the same value wherever `int(x)` does on an integer or a string |
| Config.TrimStart | app/core/config.py:149-151 | `lstrip` removes exactly the leading whitespace |
| Config.TrimEnd | app/core/config.py:149-151 | `rstrip` removes exactly the trailing whitespace |
| Config.NatToStringDigits | app/core/config.py:149-151 | the digits `str(n)` writes read back as `n` |
| Config.ParseIntToString | app/core/config.py:149-151 | `int(str(i)) == i` for every integer |
| Config.ParseRealExtendsParseInt | app/core/config.py:148-151 | `float(s)` equals `int(s)` wherever `int(s)` succeeds |
| Config.IntLiteralRejectsPoint | app/core/config.py:149-151 | a stripped literal holding a point is no integer |
| Config.ParseIntRejectsPoint | app/core/config.py:149-151 | `int` raises on any string holding a decimal point |
| Config.TrimStartKeeps | app/core/config.py:149-151 | a non-space character keeps its place after `lstrip` |
| Config.TrimEndKeeps | app/core/config.py:149-151 | a non-space character keeps its place after `rstrip` |
| Config.StripKeeps | app/core/config.py:149-151 | a non-space character survives `strip` |
| Config.DigitsBelowPow10 | app/core/config.py:148 | k digits are worth less than 10^k |
| Config.PointValue | app/core/config.py:148 | "w.f" lies between w and w + 1 |
| Config.DecimalMagnitudePoint | app/core/config.py:148 | digits, a point and digits read as whole part plus fraction |
| Config.ParseRealPoint | app/core/config.py:148 | `float("w.f")` is the decimal value, between w and w + 1 |
| Config.TrimStartPadded | app/core/config.py:148-151 | leading whitespace is dropped |
| Config.TrimEndPadded | app/core/config.py:148-151 | trailing whitespace is dropped |
| Config.PaddedNumber | app/core/config.py:148-151 | both conversions ignore whitespace around the number |
| Config.StripIntToString | app/core/config.py:149-151 | `str(i)` has nothing to strip |
| Config.IntLiteralOfIntToString | app/core/config.py:149-151 | `str(i)` is an integer literal worth `i` |
| Config.EmbeddingDimension | app/core/config.py:156-169 | 1536 for 3-small and ada-002, 3072 for 3-large; else the configured value, default 1536 |
| Config.KnownModelIgnoresConfiguredDimension | app/core/config.py:156-161 | for a known model a configured `embedding_dimension` has no effect |
| Config.LoadSettings | app/core/config.py:107-165 | a present numeric entry that `float`/`int` rejects makes loading fail, one that converts is used as converted; the embedding dimension likewise; names and paths are kept as read |
| Config.NonNumericHopDepthFails | app/core/config.py:149 | a non-numeric `entity_info_hop_depth` string makes loading fail |
| Config.PresentHopDepthUsed | app/core/config.py:149 | a hop depth given as `i` or as `str(i)` is loaded as `i` |
| Config.DefaultSettings | app/core/config.py:135-151 | absent keys give threshold 0.7, hop depth 1, path length 3, complex depth 2 |
| Config.DummyNumericEntries | app/core/config.py:122-125 | the dummy content's threshold and depths |
| Config.DummyEmbeddingEntries | app/core/config.py:118 | the dummy content names the small embedding model, of dimension 1536 |
| Config.DummyModelEntries | app/core/config.py:114-117 | the dummy content's language-model names |
| Config.DummyPathEntries | app/core/config.py:111-121 | the dummy content's name, prefix and file paths |
| Config.MissingFileSettings | app/core/config.py:108-129 | a missing configuration file yields the dummy content's settings |
| Config.LoadPrompts | app/core/config.py:14-31 | a present section is used as read, a missing one is an empty table; a missing file gives exactly the dummy prompts |
| Config.GetSystemMessage | app/core/config.py:33-34 | the stored message, or the supplied default for an absent key |
| Config.GetUserPrompt | app/core/config.py:36-37 | the stored prompt, or the supplied default for an absent key |
| Config.LoadSchema | app/core/config.py:43-62 | present keys are used as read; missing keys give empty type lists and true dynamic-type flags; a missing file gives the dummy schema |
| FileParser.SplitExtension | app/utils/file_parser.py:172 | `splitext`: the suffix from the last dot of the last component, none for a leading-dot name |
| FileParser.LeadingDotHasNoExtension | app/utils/file_parser.py:172 | a name like ".md" has no extension |
| FileParser.SimpleNameExtension | app/utils/file_parser.py:172 | "stem.ext" has the extension ".ext" |
| FileParser.ParseTxt | app/utils/file_parser.py:17-48 | the UTF-8 text of well-formed bytes, else one Latin-1 character per byte; never fails |
| FileParser.ParseTxtOfUtf8 | app/utils/file_parser.py:30-35 | text written as UTF-8 reads back unchanged |
| FileParser.DecodeLength | app/utils/file_parser.py:32 | a UTF-8 decoding has at most as many characters as bytes |
| FileParser.ParseTxtLength | app/utils/file_parser.py:30-44 | the parsed text is at most as long as the file |
| FileParser.PageTexts | app/utils/file_parser.py:78-81 | one text per page, "" for a page without text |
| FileParser.ParsePdf | app/utils/file_parser.py:78-82 | the page loop computes `PdfResult` |
| FileParser.PdfPagesRecoverable | app/utils/file_parser.py:78-82 | splitting the text on "\n" gives back the pages when none holds a newline |
| FileParser.ParseDocx | app/utils/file_parser.py:89-113 | paragraph texts joined with "\n"; a reader error becomes a parsing error |
| FileParser.DocxParagraphsRecoverable | app/utils/file_parser.py:109-110 | the paragraphs can be recovered from the text when none holds a newline |
| FileParser.ParseMarkdown | app/utils/file_parser.py:116-154 | the UTF-8-then-Latin-1 text, rendered and stripped; a library failure is a parsing error after UTF-8 and a decoding error after Latin-1 |
| FileParser.ParseMarkdownOfUtf8 | app/utils/file_parser.py:131-137 | UTF-8 Markdown is rendered as written; its failures are parsing errors |
| FileParser.ExtractTextFromFile | app/utils/file_parser.py:157-183 | .txt, .pdf, .docx and .md go to their parsers; any other extension is a ValueError naming it |
| FileParser.PdfResult | app/utils/file_parser.py:51-86 | page texts joined with "\n"; a `PdfReadError` gives "Invalid PDF file or PyPDF2 error: …", an encrypted file that will not decrypt gives the password message, any other exception gives "Error parsing PDF file: …"; every failure is a parsing error |
| FileParser.DispatchIgnoresCase | app/utils/file_parser.py:172 | names with the same lowercase parse the same way |
| FileParser.DotOnlyNameUnsupported | app/utils/file_parser.py:172-183 | ".md" and similar names are rejected as unsupported |
| RouterIngestion.RouterExtension | app/apis/router_ingestion.py:67 | "." plus the lowercased text after the last dot, or "" without a dot |
| RouterIngestion.RouterExtensionAfterLastDot | app/apis/router_ingestion.py:67 | the extension is taken from after the last dot |
| RouterIngestion.RouterExtensionOfSimpleName | app/apis/router_ingestion.py:67 | for "stem.ext" with no dot in ext the router's extension is "." and ext lowercased |
| RouterIngestion.LowerKeepsOther | app/apis/router_ingestion.py:67 | lowering keeps a non-letter out of the string |
| RouterIngestion.ExtensionRulesAgreeOnSimpleNames | app/apis/router_ingestion.py:67 | for "stem.ext" the router and the parser find the same extension |
| RouterIngestion.ExtensionRulesDisagreeOnDotNames | app/apis/router_ingestion.py:66-69 | for ".md" the router accepts what the parser then rejects |
| RouterIngestion.FailureStatusCode | app/apis/router_ingestion.py:88-92 | 422 exactly when the lowercased message names one of the three failures, else 500 |
| RouterIngestion.NoTextFoundIs422 | app/apis/router_ingestion.py:91-92 | a "no text content found" message is classified 422 |
| RouterIngestion.UploadFileForIngestion | app/apis/router_ingestion.py:51-127 | 400 "Filename cannot be empty." for no name; 400 naming the extension and the supported list for an unsupported one; accepted iff the report is not Failed; a Failed message maps through the classifier; a Failed report without a message, or a raise while processing, gives 500 with "An unexpected error occurred while processing the file: …" |
| RouterIngestion.ProcessedFiles | app/apis/router_ingestion.py:152-177 | only named files with a supported extension are processed |
| RouterIngestion.ProcessedFilesAppend | app/apis/router_ingestion.py:152-177 | one more file is processed, in order, iff it qualifies |
| RouterIngestion.UploadMultipleFiles | app/apis/router_ingestion.py:139-192 | 400 for no files; otherwise one report per file in input order; processes exactly the qualifying files |
| RouterIngestion.BatchFile | app/apis/router_ingestion.py:153-190 | one file of the batch gets exactly its batch report and goes to processing iff it has a name and a supported extension |
| RouterIngestion.BatchSoFarStep | app/apis/router_ingestion.py:152-190 | one more file extends the reports by its report and the processed list by the file iff it qualifies |
| RouterIngestion.UnprocessedReports | app/apis/router_ingestion.py:156-170 | a nameless file is Failed as "Unknown_File"; an unsupported one is Skipped |
| FileTable.KwargClauses | app/database/sqlite_connector.py:121-124 | only the four updatable keyword arguments become clauses, in order |
| FileTable.KwargClausesStep | app/database/sqlite_connector.py:121-124 | one more keyword argument adds a clause iff its key is updatable |
| FileTable.ClauseHasOnePlaceholder | app/database/sqlite_connector.py:123 | each SET clause has exactly one placeholder |
| FileTable.WhereClauseText | app/database/sqlite_connector.py:132 | the WHERE clause has the shape of a clause |
| FileTable.NoPlaceholderIn | app/database/sqlite_connector.py:118-132 | the fixed query texts contain no placeholder |
| FileTable.BuildStatusUpdate | app/database/sqlite_connector.py:114-132 | status clause first and timestamp last, filename the last parameter, placeholders == parameters |
| FileTable.Clauses | app/database/sqlite_connector.py:123 | one clause per column |
| FileTable.Values | app/database/sqlite_connector.py:124 | one parameter per column |
| FileTable.FieldPlaceholders | app/database/sqlite_connector.py:118-127 | every SET clause carries one placeholder |
| FileTable.QueryFramePlaceholders | app/database/sqlite_connector.py:132 | the UPDATE frame adds exactly the WHERE placeholder |
| FileTable.PlaceholderCount | app/database/sqlite_connector.py:132 | the query has one placeholder per clause plus one |
| FileTable.CountAllOnes | app/database/sqlite_connector.py:132 | pieces with one placeholder each hold as many placeholders as pieces |
| FileTable.ApplyKwargs | app/database/sqlite_connector.py:121-124 | updatable keyword arguments set their columns; path and size never change |
| FileTable.UpdatedRow | app/database/sqlite_connector.py:114-132 | the updated row carries the new status and timestamp |
| FileTable.IgnoredKwargs | app/database/sqlite_connector.py:122 | keyword arguments that are not updatable columns never change the row |
| FileTable.NewRow | app/database/sqlite_connector.py:79-88 | a new row has zero counters and no error message |
| FileTable.InsertByTime | app/database/sqlite_connector.py:147 | inserting into a newest-first list keeps it newest-first |
| FileTable.FileTable.constructor | app/database/sqlite_connector.py:76-92 | a fresh table is empty |
| FileTable.FileTable.AddFileRecord | app/database/sqlite_connector.py:94-112 | inserts a new row; on an existing name replaces path, size, status and time and keeps the counters |
| FileTable.FileTable.UpdateFileStatus | app/database/sqlite_connector.py:114-138 | updates an existing row as UpdatedRow; an absent name or a failure leaves the table unchanged |
| FileTable.FileTable.GetFileRecord | app/database/sqlite_connector.py:140-143 | the row iff the filename is present, otherwise None |
| FileTable.FileTable.DeleteFileRecord | app/database/sqlite_connector.py:150-154 | the row is gone and every other row is untouched |
| FileTable.FileTable.ListAllFiles | app/database/sqlite_connector.py:145-148 | every row exactly once, newest first |
| FileTable.UpdatedRowColumns | app/database/sqlite_connector.py:118-132 | each column takes the last keyword argument naming it, otherwise keeps its value |
| FileTable.StatusOnlyUpdate | app/database/sqlite_connector.py:118-132 | with no updatable keyword argument only the status and timestamp change |
| IngestionService.CanonicalNames | app/services/ingestion_service.py:152-153 | the canonical names in occurrence order |
| IngestionService.NamesAreCanonicalNames | app/services/ingestion_service.py:152-153 | the set of names is the set of canonical names that occur |
| IngestionService.NamesStep | app/services/ingestion_service.py:152-159 | one more entity adds its name to the keys |
| IngestionService.MentionsStep | app/services/ingestion_service.py:157-162 | one more occurrence adds its mention to its name's mentions only |
| IngestionService.ContextsStep | app/services/ingestion_service.py:158-163 | one more occurrence adds its contexts to its name's contexts only |
| IngestionService.FirstTypeStable | app/services/ingestion_service.py:160-163 | later occurrences never change the recorded type |
| IngestionService.FirstTypeOfNewName | app/services/ingestion_service.py:153-156 | a new name takes the type of its first occurrence |
| IngestionService.FirstTypeIsEarliest | app/services/ingestion_service.py:153-163 | the recorded type is that of the earliest occurrence |
| IngestionService.EntityRecordStep | app/services/ingestion_service.py:160-163 | a known name's record grows by the new mention and contexts; other records are unchanged |
| IngestionService.NewEntityRecord | app/services/ingestion_service.py:153-159 | a first occurrence creates its record from itself alone |
| IngestionService.AddEntity | app/services/ingestion_service.py:152-163 | one more occurrence turns the consolidation of a prefix into the consolidation of the longer prefix |
| IngestionService.ConsolidateEntities | app/services/ingestion_service.py:149-164 | one record per distinct canonical name, with the first type and the unions of mentions and contexts |
| IngestionService.KeySequence | app/services/ingestion_service.py:170 | the (source, type, target) keys in occurrence order |
| IngestionService.RelKeysAreKeySequence | app/services/ingestion_service.py:170 | the set of keys is the set of keys that occur |
| IngestionService.RelKeysStep | app/services/ingestion_service.py:170-177 | one more relationship adds its key |
| IngestionService.RelContextsStep | app/services/ingestion_service.py:176-179 | one more occurrence adds its contexts to its key only |
| IngestionService.AddRelationship | app/services/ingestion_service.py:169-179 | one more occurrence turns the consolidation of a prefix into the consolidation of the longer prefix |
| IngestionService.ConsolidateRelationships | app/services/ingestion_service.py:166-180 | one record per distinct triple, holding the union of its contexts |
| IngestionService.SuccessCount | app/services/ingestion_service.py:85-107 | the count of successful merges never exceeds the attempts |
| IngestionService.MergeEntities | app/services/ingestion_service.py:85-93 | one merge per consolidated entity, in order; the count is the successful ones |
| IngestionService.KnownType | app/services/ingestion_service.py:98-99 | an endpoint that is not a consolidated entity has no type |
| IngestionService.RelationshipWrites | app/services/ingestion_service.py:96-106 | at most one write per consolidated relationship |
| IngestionService.RelationshipWritesSound | app/services/ingestion_service.py:98-106 | every write joins two typed consolidated entities |
| IngestionService.RelationshipWritesComplete | app/services/ingestion_service.py:98-106 | every relationship with both endpoints typed is written |
| IngestionService.MergeRelationships | app/services/ingestion_service.py:95-107 | unknown endpoints are skipped and not counted; the count is the successful merges |
| IngestionService.ParsedChunks | app/services/ingestion_service.py:57-67 | only chunks whose extraction validated, in chunk order |
| IngestionService.NoParsedChunks | app/services/ingestion_service.py:57-72 | nothing parsed iff no chunk's extraction validated |
| IngestionService.ExtractChunks | app/services/ingestion_service.py:56-67 | the loop keeps exactly the parsed chunks |
| IngestionService.BuildVectorBatch | app/services/ingestion_service.py:111-118 | one record per parsed chunk, in order, naming the file, with duplicate-free entity ids |
| IngestionService.ConsolidatedEntitiesUnique | app/services/ingestion_service.py:78 | a map holding exactly the consolidated records is the consolidated map |
| IngestionService.EntityMergesAsConsolidated | app/services/ingestion_service.py:85-93 | merging the consolidated records in insertion order makes `EntityWritesOf` |
| IngestionService.RelationshipRecordsAsConsolidated | app/services/ingestion_service.py:80-82 | the consolidated relationship records in insertion order are `RelationshipRecordsOf` |
| IngestionService.EntityWritesOfDistinct | app/services/ingestion_service.py:85-93 | exactly one write per distinct canonical name, carrying that name's consolidated record |
| IngestionService.RelationshipWritesFromRecords | app/services/ingestion_service.py:96-106 | every relationship write is the write of one writable record |
| IngestionService.RelationshipWritesOfSoundComplete | app/services/ingestion_service.py:95-107 | writes only between typed consolidated entities, with the triple's contexts; every relationship between typed entities is written |
| IngestionService.StoreExtractions | app/services/ingestion_service.py:74-120 | the writes are exactly those of the consolidated entities and relationships; one batch record per chunk with its entities' names; the counts are the successful merges |
| IngestionService.ProcessDocument | app/services/ingestion_service.py:17-147 | each early failure gives its status and writes nothing; a vector-store failure after the graph writes is an unexpected error; Completed iff the document is ingestible and the batch is stored |
| Neo4jConnector.FirstSchemaLabel | app/graph_db/neo4j_connector.py:111-112 | the first label that is a schema entity type |
| Neo4jConnector.PrimaryType | app/graph_db/neo4j_connector.py:108-114 | first schema label, else first label; without labels `type`, then `entity_type`, then "Unknown" |
| Neo4jConnector.ReadNode | app/graph_db/neo4j_connector.py:94-106 | only driver nodes and dictionaries are read |
| Neo4jConnector.ConvertNode | app/graph_db/neo4j_connector.py:92-122 | id is `canonical_name`, else the element id; neither gives None; label defaults to the id |
| Neo4jConnector.ConvertRelationship | app/graph_db/neo4j_connector.py:124-159 | a missing endpoint gives no edge; endpoints are the element ids; dictionaries default to "RELATED_TO" |
| Neo4jConnector.NodeCandidate | app/graph_db/neo4j_connector.py:236-243 | records that are not truthy node items are ignored |
| Neo4jConnector.RegisteredElementId | app/graph_db/neo4j_connector.py:245-253 | a node is registered under its own or its dictionary's element id |
| Neo4jConnector.Ids | app/graph_db/neo4j_connector.py:255 | the node ids in order |
| Neo4jConnector.DedupById | app/graph_db/neo4j_connector.py:255-256 | node ids are unique; every converted id is kept |
| Neo4jConnector.DedupByIdKeepsFirst | app/graph_db/neo4j_connector.py:255-256 | for a repeated id the first node is kept |
| Neo4jConnector.RelationshipCandidate | app/graph_db/neo4j_connector.py:259-293 | non-relationship or falsy items and missing endpoints are skipped |
| Neo4jConnector.EdgePass | app/graph_db/neo4j_connector.py:259-307 | each relationship element id yields at most one edge |
| Neo4jConnector.EdgesFromCandidates | app/graph_db/neo4j_connector.py:259-307 | every edge comes from a relationship record with its element id |
| Neo4jConnector.CandidatesCovered | app/graph_db/neo4j_connector.py:279-307 | every convertible relationship record contributes its element id |
| Neo4jConnector.DedupByIdAppend | app/graph_db/neo4j_connector.py:255-256 | a new id appends its node and a known id changes nothing |
| Neo4jConnector.ConvertedNodesStep | app/graph_db/neo4j_connector.py:236-256 | the node pass is a left fold over the records |
| Neo4jConnector.EdgePassStep | app/graph_db/neo4j_connector.py:259-307 | the edge pass is a left fold over the records |
| Neo4jConnector.NodeDictIds | app/graph_db/neo4j_connector.py:310 | the node list's ids are the map's insertion order |
| Neo4jConnector.NodePass | app/graph_db/neo4j_connector.py:235-256 | the first pass keeps the first node per id, and every registered node is in the map |
| Neo4jConnector.ReadNodeRecord | app/graph_db/neo4j_connector.py:237-251 | a record yields the node candidate exactly as the first pass defines it |
| Neo4jConnector.KeepFirst | app/graph_db/neo4j_connector.py:255-256 | a new id is appended, a known id leaves the node map unchanged, and the map stays the dedup-by-id of what was seen |
| Neo4jConnector.ProcessSubgraphResults | app/graph_db/neo4j_connector.py:227-310 | nodes are the first per id; backfill adds none; one edge per relationship element id |
| Neo4jConnector.ReadRelationship | app/graph_db/neo4j_connector.py:260-293 | a record yields the relationship candidate exactly as the second pass defines it |
| Neo4jConnector.Backfill | app/graph_db/neo4j_connector.py:295-304 | a registered endpoint whose id is missing is added; when every registered node is present nothing changes |
| Neo4jConnector.GetSubgraphForEntities | app/graph_db/neo4j_connector.py:161-192 | no names gives the empty subgraph without a query |
| Neo4jConnector.MergeEntityProps | app/graph_db/neo4j_connector.py:79-80 | the properties plus `canonical_name`, which the given properties override |
| QueryService.LinkOf | app/services/query_service.py:37-53 | a link iff the text is not blank and the top-1 match is within the threshold |
| QueryService.Links | app/services/query_service.py:33-55 | at most one link per query text |
| QueryService.LinksConcat | app/services/query_service.py:37-55 | links follow input order |
| QueryService.LinksSound | app/services/query_service.py:37-49 | every link is a non-blank text's top match within the threshold |
| QueryService.LinksComplete | app/services/query_service.py:37-49 | every qualifying top match is linked |
| QueryService.LinkQueryEntities | app/services/query_service.py:18-55 | the loop computes exactly the links |
| QueryService.LinkedNames | app/services/query_service.py:130 | the canonical names of the links, in order |
| QueryService.FirstThree | app/services/query_service.py:76 | at most three items, a prefix of the list |
| QueryService.ShownAliases | app/services/query_service.py:74-76 | at most three aliases; `aliases` is preferred over `original_mentions` |
| QueryService.ShownContext | app/services/query_service.py:81 | unchanged up to 150 characters, else 150 characters and "..." |
| QueryService.NodeParts | app/services/query_service.py:72-85 | name and type first, then up to three optional parts |
| QueryService.EdgeParts | app/services/query_service.py:91-98 | type first, then up to two optional parts |
| QueryService.NodeLine | app/services/query_service.py:86 | every node line starts with "- Node: [" |
| QueryService.EdgeLine | app/services/query_service.py:99 | every edge line starts with "- Relationship: (" |
| QueryService.NodeLines | app/services/query_service.py:71-86 | one line per node, in order |
| QueryService.EdgeLines | app/services/query_service.py:90-99 | one line per edge, in order |
| QueryService.FormatSubgraphForLlmContext | app/services/query_service.py:58-101 | the fixed sentence for an empty subgraph, otherwise text starting with the header |
| QueryService.BuildContextLines | app/services/query_service.py:66-99 | the header, then the entities section iff there are nodes, then the relationships section iff there are edges |
| QueryService.AppendNodeLines | app/services/query_service.py:71-86 | one node line per node, in order |
| QueryService.AppendEdgeLines | app/services/query_service.py:90-99 | one relationship line per edge, in order |
| QueryService.CountStartingWithConcat | app/services/query_service.py:66-101 | line counts add up over concatenation |
| QueryService.CountStartingWithAll | app/services/query_service.py:66-101 | lines that all carry the prefix are all counted |
| QueryService.CountStartingWithNone | app/services/query_service.py:66-101 | lines that never carry the prefix count zero |
| QueryService.NodeLinesCount | app/services/query_service.py:69-86 | node lines count once each as nodes and never as relationships |
| QueryService.EdgeLinesCount | app/services/query_service.py:88-99 | edge lines count once each as relationships and never as nodes |
| QueryService.HeadersAreNotEntries | app/services/query_service.py:67-89 | the headers are not node or relationship lines |
| QueryService.SectionCounts | app/services/query_service.py:69-99 | each section counts only its own entries |
| QueryService.OneLinePerNodeAndEdge | app/services/query_service.py:66-101 | exactly one node line per node and one relationship line per edge |
| QueryService.SectionHeadersPresentIffEntries | app/services/query_service.py:69-89 | a section header appears iff there are entries for it |
| QueryService.EntriesAreNotHeaders | app/services/query_service.py:86-99 | no node or relationship line equals a section header |
| QueryService.EffectiveIntent | app/services/query_service.py:143-162 | a parsed intent is used; otherwise the default intent over the linked names, or none |
| QueryService.RetrievalTargets | app/services/query_service.py:168-170 | the intent's targets, or the linked names when those are empty |
| QueryService.Route | app/services/query_service.py:174-207 | no targets, no retrieval; shortest paths iff discovery with two or more targets; the hop depth per intent |
| QueryService.RouteIgnoresCase | app/services/query_service.py:175 | intents differing only in letter case route the same way |
| QueryService.DefaultIntentRetrieval | app/services/query_service.py:155-181 | the fallback intent retrieves the linked names at the entity hop depth |
| QueryService.ProcessUserQuery | app/services/query_service.py:104-229 | fixed answers for failed extraction and for no intent with no links; the generation fallback keeps the context |
| QueryService.UnlinkedUnclassifiedIsRefused | app/services/query_service.py:152-162 | no linkable entity and no parsed intent leads to the refusal |
| Reranker.WithScore | app/retrieval/reranker.py:45 | the chunks with a given score, in order |
| Reranker.WithScoreMembers | app/retrieval/reranker.py:45 | the chunks with a given score are exactly those of the list with that score |
| Reranker.Insert | app/retrieval/reranker.py:45 | inserting keeps all chunks, as a multiset |
| Reranker.InsertSorted | app/retrieval/reranker.py:45 | inserting into a descending list keeps it descending |
| Reranker.InsertBounded | app/retrieval/reranker.py:45 | inserting keeps every score under a common bound |
| Reranker.SortByScore | app/retrieval/reranker.py:45 | a descending permutation of the input |
| Reranker.InsertWithScore | app/retrieval/reranker.py:45 | insertion keeps equal-score chunks in order |
| Reranker.SortByScoreStable | app/retrieval/reranker.py:45 | equal-score chunks keep their relative order |
| Reranker.SameFirst | app/retrieval/reranker.py:45 | two sorted, stable orderings of the same chunks start alike |
| Reranker.SameTails | app/retrieval/reranker.py:45 | removing that first chunk keeps them stable orderings of the same chunks |
| Reranker.SortedStableIsUnique | app/retrieval/reranker.py:45 | a sorted, stable ordering is unique |
| Reranker.SortedStableIsSortByScore | app/retrieval/reranker.py:45 | any descending, stable permutation is the reference sort |
| Reranker.Texts | app/retrieval/reranker.py:37 | one chunk text per chunk, in order |
| Reranker.Rescored | app/retrieval/reranker.py:40-42 | each chunk's score is the scorer's score at its position; nothing else changes |
| Reranker.ModelRepo | app/retrieval/reranker.py:18-19 | the MiniLM cross-encoder when the section names no `model_repo` |
| Reranker.ReRanker.constructor | app/retrieval/reranker.py:17-25 | the ranker uses the configured model repository |
| Reranker.ReRanker.RerankChunks | app/retrieval/reranker.py:28-48 | empty gives empty without scoring; otherwise in place, rescored, descending, a stable permutation |
| Reranker.RerankerRegistry.constructor | app/retrieval/reranker.py:51 | no instance exists initially |
| Reranker.RerankerRegistry.GetReranker | app/retrieval/reranker.py:53-61 | None when disabled; otherwise always the same instance |
| FaissIndex.EmbeddingOf | app/vector_store/faiss_connector.py:103-106 | a chunk's embedding, or empty when there is none |
| FaissIndex.AcceptedChunks | app/vector_store/faiss_connector.py:108-115 | only chunks with a non-empty embedding of the index dimension, in order |
| FaissIndex.AcceptedChunksComplete | app/vector_store/faiss_connector.py:108-115 | every chunk with a valid embedding is accepted |
| FaissIndex.EmbeddingsOf | app/vector_store/faiss_connector.py:108-115 | one embedding per accepted chunk, aligned by position |
| FaissIndex.HitsOf | app/vector_store/faiss_connector.py:162-170 | at most one hit per returned pair |
| FaissIndex.HitsOfSound | app/vector_store/faiss_connector.py:163-170 | every hit is stored metadata at a valid position, with its distance |
| FaissIndex.HitsOfComplete | app/vector_store/faiss_connector.py:163-170 | every valid position returned gives a hit |
| FaissIndex.FaissConnector.Initialize | app/vector_store/faiss_connector.py:27-32 | an empty index of the configured dimension and no metadata |
| FaissIndex.FaissConnector.constructor | app/vector_store/faiss_connector.py:16-69 | a stored index is kept only when its dimension and size match, otherwise empty |
| FaissIndex.FaissConnector.AddChunkEmbeddingsBatch | app/vector_store/faiss_connector.py:87-127 | index size == metadata length is kept; only accepted chunks are appended |
| FaissIndex.FaissConnector.SearchSimilarChunks | app/vector_store/faiss_connector.py:129-170 | [] on an empty index; results are stored metadata with scores; at most `min(top_k, ntotal)` |
| FaissIndex.FaissConnector.GetIndexSize | app/vector_store/faiss_connector.py:172-173 | 0 without an index, else its vector count, equal to the metadata length |
| WeaviateStore.SearchWhereFilter | app/vector_store/weaviate_connector.py:128-135 | no filter iff no filenames are given, otherwise ContainsAny on `source_document` |
| WeaviateStore.ChunkObject | app/vector_store/weaviate_connector.py:95-101 | exactly the three properties, `entity_ids` defaulting to [] |
| WeaviateStore.AddChunkBatch | app/vector_store/weaviate_connector.py:82-103 | one object per chunk, in order |
| WeaviateStore.RowOf | app/vector_store/weaviate_connector.py:150-157 | missing entity ids become [] and a missing score 0.0 |
| WeaviateStore.SearchSimilarChunks | app/vector_store/weaviate_connector.py:105-162 | the request carries the filter; rows are one-to-one and in order; an error gives [] |
| WeaviateStore.DeleteFilter | app/vector_store/weaviate_connector.py:169-173 | deletion filters on `source_document` equal to the filename |
| WeaviateStore.DeletedCount | app/vector_store/weaviate_connector.py:182-184 | the `successful` count, or 0 when absent |

## Left out

- Neo4j driver life cycle, constraint creation, Cypher execution and `find_shortest_paths` are database I/O. The subgraph query result is an input list of records. Shortest-path retrieval appears only as the routing decision `QueryService.Route`.
- `merge_entity` and `merge_relationship` are collaborators that answer true or false. Only the property map `merge_entity` builds is modelled.
- The FAISS library: `IndexFlatL2`, the ANN search, `save`, `read_index` and the metadata JSON files. The search is a function parameter returning (distance, position) pairs. A stored index is an input value.
- FaissIndex.FaissConnector.SearchSimilarChunks: the bound `min(top_k, ntotal)` is proved on condition that the search collaborator returns at most `k` pairs, which is FAISS's contract and cannot be seen here.
- FaissIndex.FaissConnector.constructor: a stored index is taken to hold vectors of its own dimension. An exception raised by `index.add` and the `get_faiss_connector` singleton are not modelled.
- FaissIndex.FaissConnector.AddChunkEmbeddingsBatch: requires every chunk to have `chunk_text`. The source raises KeyError otherwise, which is not modelled.
- The `search_similar_entities` method that the linking step calls is not defined by `FaissConnector`. It is the `search` parameter, with the top-1 result.
- The language-model calls and the embedding model are collaborators returning `Option` values. `app/llm_integration/openai_connector.py` is not part of this model. It defines `extract_entities_relationships_from_chunk` (line 46), which the ingestion service calls. It does not define `extract_entities_from_query`, `classify_query_intent` or `generate_response_from_subgraph`, the three names imported at `app/services/query_service.py:5-8`.
- IngestionService.ProcessDocument: the extraction call catches its own errors and answers None. So does each merge, which answers false. Both are modelled as never raising. A raise from formatting the extraction prompt, before its `try`, is not modelled. Nor is a raise from the SQLite status update, because the `sqlite_conn` updates are recorded as a list, not performed.
- `app/models/query_models.py` is not part of this model. `QueryIntent`, `QueryResponse` and `SourceChunk` are defined here with only the fields the core reads.
- QueryService.ShownAliases: numeric `aliases`, `contexts` or `original_mentions` values make Python raise TypeError. They are treated as empty lists here.
- Reranker.ReRanker.RerankChunks: `settings.RETRIEVAL_PIPELINE` does not exist in `app/core/config.py`, so the reranking section is a parameter. The cross-encoder is the `scorer` parameter. Python's Timsort is specified by its result: the stable descending sort `SortByScore`, which is the only sorted, stable permutation. Chunks are values in the array, so aliasing of chunk objects is not modelled. The method requires the scorer to give at least one score per chunk, which the cross-encoder promises. With fewer scores Python raises IndexError, and that case is not modelled.
- Reranker.RerankerRegistry.GetReranker: the `enabled` flag is read with Python truthiness over `Value` (no booleans), and the instance is created only when enabled.
- The Weaviate client, its schema creation and the connector singleton are left out. Weaviate errors are the `None` answer of the service parameter.
- The SQLite connection, `close_connection` and the `get_sqlite_connector` singleton are left out. `datetime.utcnow()` is the `now` parameter.
- FileTable.FileTable.AddFileRecord: always reports success. The IntegrityError branch needs a NULL in a NOT NULL column, which the model's typed arguments rule out.
- Third-party parsing: PyPDF2, python-docx, `markdown` with BeautifulSoup, and `SemanticChunker` with its embeddings. Each is a parameter giving its result or its error text; for PyPDF2 the error is either a `PdfReadError` or any other exception, which the parser words differently. A chunker `ValueError` and any other chunker exception are told apart.
- Strings.Lower: only ASCII letters are lowered. Every literal the model compares a lowered string with is ASCII.
- `app/apis/router_ingestion.py` passes the file bytes where `process_document_for_ingestion` expects a path. Both are modelled against the collaborator signature `UploadedFile -> ProcessOutcome`.
- `app/services/graph_service.py`, `app/services/file_management_service.py`, `app/caching/redis_connector.py`, `app/main.py`, `app/apis/router_graph.py`, `app/apis/router_query.py` and `streamlit_ui/` are HTTP wiring, file system work, caching and UI. They are not part of this model.
- Config.ToInt: a numeric string is parsed as ASCII digits with an optional sign and surrounding whitespace. Python's underscores between digits (`int("1_000")`) and non-ASCII decimal digits are not accepted here.
- Config.ToReal: a numeric string is parsed in decimal-point notation only. Exponents (`"1e-3"`), `inf`, `nan` and underscores are rejected here, although Python's `float` accepts them.
- Config file creation and YAML parsing are left out. A configuration file is a map from keys to numbers or strings. Floats and booleans in property dictionaries are not represented.
- Logging, `async`/`await` and concurrency are left out. Every operation is sequential.
