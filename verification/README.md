# A verified model of EncDB

EncDB answers boolean keyword queries over encrypted documents. An SGX enclave keeps, per client, a
keyword index and ten thousand document slots; the untrusted host stores their encrypted pieces. This
project models the enclave, the request path around it and the two codecs that must agree, and proves
that what a client sees is what a plain map from document number to index text and body would show.

- `bytes`, `bitpack`, `scalars`, `cursor`, `labels`: byte strings, bitmaps, little-endian scalars, read
  cursors, storage labels and ciphers. CMAC and AES-GCM are ideal: a tag or key is the key and the
  message it is made from, and decryption under another key leaves zeros. Message strings are kept, because
  their collisions are part of the problem.
- `context`: the global context manager and the host with its label-keyed stores. Random choices are
  arbitrary choices; a ghost tally records the random picks that found nothing, how many of them for lack of
  companions, and the keyword rounds that rewound a known word or dropped another document's bit.
- `index_model`, `keyword_index`, `keyword_updates`, `dummies`, `tokens`: the cached, versioned keyword
  index. The view of a keyword is its cached bitmap, else the stored one, else empty.
- `bundle`, `doc_model`, `doc_cache`, `doc_access`, `provision`: the document slots behind their cache.
- `query`, `query_code`, `select`, `update`: parser, postfix code, stack machine, SELECT and UPDATE.
- `cold_rounds`: foreseeing, before an update, which of its keyword rounds will find the cache empty.
- `database`, `archives`: refinement of the plain map by single requests, and of the archive: slots, live set
  and filed keywords apart, which describes every update, clean or not. The plain map is the archive in which
  the live documents are filed under exactly their own keywords (`Archives.Plain`).
- `session`: runs of requests against one database.
- `snapshot`, `persist`, `scheduler`, `clients`, `own_runs`: sealed snapshots, context switching and runs of
  many clients on one enclave, and what each client sees of such a run.
- `pool`, `request_core`: the enclave pool as interleaved steps, and the request path that uses it.
- `wire`, `responses`, `aggregate_text`: requests and responses in their C++ and Python forms, and the
  aggregate text.
- `query_laws`, `formats`, `answers`: the query language, stored and sent forms byte by byte, and what a client
  gets back for what it sent.

Code that changes state in place is a method over the same fields and in the same order, proved against
a specification function or predicate; the main results are lemmas and run methods over those.

## Where the code does less than one might expect

Each of these is kept as the code has it, and the exact condition is proved.

- A keyword round that starts with an empty keyword cache replaces the keyword's bitmap and resets its
  version, known keyword or not (`KeywordUpdates.StartBit`, `KeywordUpdates.ColdUpdateAgrees`). A fresh
  database, or one just persisted, has an empty cache, and below the bound every round takes its word out
  of the cache. So an update drops the bit of another document exactly if some word that another document
  has comes up after all cached keywords have had their rounds, unless the cache is full for good
  (`Database.LosesBit` on the plain map, `Archives.Drops` in general, both on the state before the call).
  The shortest case is two documents with one shared word, inserted right after INIT
  (`Clients.ForgetSharedWord`). Runs are stated from any cache: slots and live set are always right and no
  keyword ever lists a document that is not filed (`Archives.Covers`); a client is exact as long as its own
  calls drop nothing.
- INSERT over a live document leaves the bits of keywords it no longer has, and REPLACE of a document
  without index text overwrites the slot but returns before indexing. `Database.Clean` is the condition a
  caller can check beforehand, and `Archives.CleanStaysPlain` shows it is exact. What the enclave holds after
  other updates, and answers then, is its archive (`Archives.Updated`, `Archives.ArchiveReply`).
- Keywords that end in digits can share labels with others and overwrite their bitmaps
  (`Labels.LabelCollision`, `IndexModel.OverwriteExactly`). Keywords here may hold digits anywhere but at
  the end, and are not the bare placeholder prefix.
- Keys longer than 32 characters are counted in a snapshot but not written (`Snapshot.SnapshotRoundTrip`).
- Untagged updates whose document length modulo 256 is 1 or 2 are misread (`Wire.UntaggedLegacy`).
- A client whose first INIT fails inside the enclave stays registered, so a second INIT does not ask for a
  context (`RequestCore.Server.FailedInitIsNotRetried`).
- A snapshot restores the client id stored in it, so scheduling is stated with one owner per database.

## Model

| member | source | states |
|---|---|---|
| `Clients.ServeCalls` | EncDB/System_high/CryptoTestingApp/Server.cpp:245-364 | Any interleaving of INIT, RESUME, SELECT, UPDATE (clean or not) and SHUTDOWN calls from any number of clients, whatever the caches hold. Client by client: at the end its context (active, inactive or sealed) holds the slots and live set of its own archive and lists nothing that is not filed; if it started exact and none of its own calls dropped a bit, every reply it got and its whole index are its archive's, whatever happened to the others. A client that makes no call finds its database as it was; one that updates no shared word, or whose full cache no call of its own empties, drops nothing. Keyword versions are written once unless a known word is rewound and slot versions do not fall unless a counter wraps, also for clients opened on the way; no pick is barren while clients have companions. The run stops early only on a missed pick, on a caller without placeholders that had fewer, later arrivals included, than its new keywords, or on a context that outgrew its counters or snapshot buffer |
| `Clients.ServeOne` | EncDB/System_high/CryptoTestingApp/Server.cpp:336-364 | One request: scheduling always finds the client's context; every other client's database is as it was, whatever this call loses; the caller's slots and live set are its archive's, and if its index was exact the reply is the archive's and the index stays exact if and only if this call dropped no bit, which for the active client the state before the call tells |
| `Clients.InitOne` | EncDB/System_high/CryptoTestingApp/Server.cpp:256-317 | A new client gets a free database number and the empty archive; a known one is only scheduled, as by RESUME; every other client's database is as it was |
| `Clients.ShutOne` | EncDB/System_high/CryptoTestingApp/Server.cpp:153-177 | The client's context is scheduled and written out: its database and everybody else's is as it was, also if there is no room to write it, and if the client has more keywords than its cache holds it comes back from a restart with a full cache and companions |
| `Clients.ForgetSharedWord` | EncDB/System_high/CryptoEnclave/CryptoEnclave.cpp:1114-1122 | The failing input: two documents inserted right after INIT share a word, and that word then lists the second one only, so the plain map is not refined |
| `OwnRuns.ServeFromStart` | EncDB/System_high/CryptoTestingApp/Server.cpp:245-364 | From a fresh enclave, any interleaving gives each client what its own requests give alone: unless it is refused, its context covers the archive of its own requests; unless one of its own calls dropped a bit, its database is exactly that archive and every reply is the one its own requests would get alone, and as long as its updates are clean the one of its plain map. Nobody drops a bit whose own requests touch no word of another document; no pick is ever barren; a capacity stop means that the caller used more distinct keywords than 1000 and one for every twenty updates |
| `OwnRuns.OwnRun` | EncDB/System_high/CryptoTestingApp/Server.cpp:245-364 | However calls interleave, a client's archive and its count of keywords are those of its own requests run on their own |
| `Session.RunRequests` | EncDB/System_high/CryptoEnclave/CryptoEnclave.cpp:1300-1509 | Any sequence of requests, clean or not, from any context that covers the archive: once it is done slots and live set are the archive's and no keyword lists a document that is not filed under it; replies, index and final state are exact if no round dropped another document's bit, which is proved for runs of unshared updates and for caches that start full or with as many entries as the run has rounds; slot versions do not fall unless a counter wraps, and keyword versions are written once unless a known word is rewound; it ends early only on a missed pick, never a barren one while there are companions, or with no placeholder left when there were fewer, later arrivals included, than keywords of the run new to the index |
| `Session.PlainRun` | EncDB/System_high/CryptoEnclave/CryptoEnclave.cpp:1387-1509 | Along any run the archive says what the plain map says, before and after every request, if and only if every update is clean for the map it meets |
| `Session.PlainAnswered` | EncDB/System_high/CryptoEnclave/CryptoEnclave.cpp:1300-1509 | The replies of a clean run are those computed on the plain map alone |
| `Session.RunWordsFew` | EncDB/System_high/CryptoEnclave/CryptoEnclave.cpp:1100-1236 | The keywords that a run can be refused for are no more than its rounds |
| `Session.HandleRequest` | EncDB/System_high/CryptoEnclave/CryptoEnclave.cpp:1300-1509 | One request from any cache: slots and live set are the archive's afterwards; from an exact index the reply is the archive's, and the index stays exact if and only if the request will drop no bit, which the state before it tells; it fails only after a missed pick, or with no placeholder left and a keyword of the request still unknown |
| `Session.HandleUpdate` | EncDB/System_high/CryptoEnclave/CryptoEnclave.cpp:1387-1509 | Any update from any cache: a completed one leaves slots and live set of the updated archive; from an exact index it stays exact, and every plain map it refined stays refined, if and only if, seen before the call, the update is clean and no touched word that another document has comes up after all cached keywords have had their rounds, unless the cache is full for good; capacity fails only with no placeholder left and a keyword unknown; from an empty cache it always completes; op 0 empties the slot, the others store what was sent, and only op 2 can find nothing to replace |
| `Answers.StoreThenAsk` | EncDB/System_high/CryptoEnclave/CryptoEnclave.cpp:1300-1508 | From any state: after a completed INSERT or REPLACE of an index text and a document, a query text consisting of any word of that index text brings back the row of that number with that document, without trailing NULs, unless the reply is full of smaller numbers; and no row shows anything else under that number |
| `Answers.DeleteThenAsk` | EncDB/System_high/CryptoEnclave/CryptoEnclave.cpp:1300-1454 | From any state: after a completed DELETE a query for any word of the deleted index text does not show the document |
| `Answers.AskWord` | EncDB/System_high/CryptoEnclave/CryptoEnclave.cpp:1300-1338 | A query text of one word is answered with the first documents listed under that word, ascending, up to the limit, each with its body |
| `Session.RunColdUpdates` | EncDB/System_high/CryptoEnclave/CryptoEnclave.cpp:1387-1509 | From an empty keyword cache, as right after INIT, any sequence of updates completes; no bit is dropped if and only if no update touches a word that another document is filed under, and then the state is exactly the archive's |
| `Database.StoreRefines` | EncDB/System_high/CryptoEnclave/CryptoEnclave.cpp:1436-1508 | From any cache, INSERT and REPLACE leave index, slots and live set equal to the updated plain map exactly when, before the call, the request is clean and no touched word that another document carries will come up after all cached keywords have had their rounds, unless the cache is full for good (`Database.LosesBit`) |
| `Database.DeleteRefines` | EncDB/System_high/CryptoEnclave/CryptoEnclave.cpp:1414-1454 | From any cache, DELETE removes the document from the live set, its slot and every keyword's bitmap, and nothing else, exactly when no deleted word that another document carries will come up after all cached keywords have had their rounds, unless the cache is full for good |
| `Database.LossForeseen` | EncDB/System_high/CryptoEnclave/CryptoEnclave.cpp:1106-1235 | Seen on the plain map, the words whose rounds will drop a bit are those that the bitmaps foretell |
| `Database.EmptyLosesShared` | EncDB/System_high/CryptoEnclave/CryptoEnclave.cpp:1114-1122 | With an empty cache the condition is that no other document carries a touched word |
| `Archives.StoreArchived` | EncDB/System_high/CryptoEnclave/CryptoEnclave.cpp:1436-1508 | INSERT and REPLACE, clean or not, from any cache: slots, live set and filed keywords become the archive's, stale and missing keywords included, exactly when no word another document is filed under comes up with the cache run empty |
| `Archives.DeleteArchived` | EncDB/System_high/CryptoEnclave/CryptoEnclave.cpp:1414-1454 | The same for DELETE, which leaves filed what an INSERT over a live document left behind |
| `Archives.CleanStaysPlain` | EncDB/System_high/CryptoEnclave/CryptoEnclave.cpp:1387-1509 | An archive that says what the plain map says still does after an update if and only if the update is clean |
| `Archives.PlainRefines` | EncDB/System_high/CryptoEnclave/CryptoEnclave.cpp:1387-1509 | For such an archive, mirroring it is refining the plain map |
| `Archives.PlainDrops` | EncDB/System_high/CryptoEnclave/CryptoEnclave.cpp:1114-1122 | For such an archive, dropped bits are foreseen alike on archive and map |
| `Archives.ReplyArchived` | EncDB/System_high/CryptoEnclave/CryptoEnclave.cpp:1324-1385 | A compiled query is answered from the archive alone: which documents are filed, live or not, and what their slots hold |
| `Archives.PlainReply` | EncDB/System_high/CryptoEnclave/CryptoEnclave.cpp:1324-1385 | On a plain archive that is the plain map's answer |
| `Database.StoreHolds` | EncDB/System_high/CryptoEnclave/CryptoEnclave.cpp:1436-1508 | Whatever the cache did, a clean INSERT or REPLACE leaves exactly the plain map's documents live and readable, and no keyword lists a document that does not carry it |
| `Database.DeleteHolds` | EncDB/System_high/CryptoEnclave/CryptoEnclave.cpp:1414-1454 | The same for DELETE |
| `Database.UnsharedStoreKeeps` | EncDB/System_high/CryptoEnclave/CryptoEnclave.cpp:1114-1122 | From any cache no round of an INSERT or REPLACE drops another document's bit if no other document carries a touched word |
| `Database.UnsharedDeleteKeeps` | EncDB/System_high/CryptoEnclave/CryptoEnclave.cpp:1114-1122 | The same for DELETE |
| `Database.ColdStoreRefines` | EncDB/System_high/CryptoEnclave/CryptoEnclave.cpp:1114-1122 | From an empty keyword cache INSERT and REPLACE do what is meant exactly when the request is clean and no other document carries a touched word |
| `Database.ColdDeleteRefines` | EncDB/System_high/CryptoEnclave/CryptoEnclave.cpp:1114-1122 | From an empty keyword cache DELETE does what is meant exactly when no other document carries a deleted word |
| `Database.InvalidStoreRefines` | EncDB/System_high/CryptoEnclave/CryptoEnclave.cpp:1387-1509 | An update with a document number outside 1..10000 changes no keyword, slot or live bit |
| `Database.UncleanDiffers` | EncDB/System_high/CryptoEnclave/CryptoEnclave.cpp:1468-1498 | Each kind of request that is not clean leaves a state that differs from the plain map: stale keyword bits after INSERT over a live document, or an overwritten slot that is not indexed after REPLACE |
| `Database.MeaningRefined` | EncDB/System_high/CryptoEnclave/CryptoEnclave.cpp:1300-1324 | A boolean expression evaluates to exactly the live documents that satisfy it, NOT being relative to the live set |
| `Database.ReplyRefined` | EncDB/System_high/CryptoEnclave/CryptoEnclave.cpp:1324-1385 | The compiled query runs without underflow and answers with the first min(limit, n) matching documents in ascending order with their latest bodies, or with the aggregate over all matches |
| `Database.TextAnswered` | EncDB/System_high/CryptoTestingApp/QueryCodec.h:28-186 | The whole way from query text to reply: any expression of lexable words, written out, tokenized, parsed, compiled with each word, or its first 32 bytes, as a term, and run, is answered with what it means on the plain map |
| `Database.QueryRefines` | EncDB/System_high/CryptoEnclave/CryptoEnclave.cpp:1300-1385 | A SELECT leaves the database as it was although it loads, evicts and re-versions bitmaps and slots |
| `Database.FreshRefines` | EncDB/System_high/CryptoEnclave/CryptoEnclave.cpp:190-196 | A provisioned context with empty views is the empty database |
| `Labels.LabelCollision` | EncDB/System_high/CryptoEnclave/CryptoEnclave.cpp:61-72 | Two different words can share a storage label at some versions exactly when one is the other followed by digits without a leading zero |
| `IndexModel.OverwriteExactly` | EncDB/System_high/CryptoEnclave/CryptoEnclave.cpp:61-129 | Storing one word's bitmap can replace another word's stored bitmap at some positive versions exactly when one word is the other followed by digits without a leading zero |
| `IndexModel.SharedLabelExample` | EncDB/System_high/CryptoEnclave/CryptoEnclave.cpp:61-129 | For example, the bitmap of a at version 11 takes the place of the stored one of a1 at version 1 |
| `IndexModel.ApartKeeps` | EncDB/System_high/CryptoEnclave/CryptoEnclave.cpp:61-129 | An index with no two such words keeps every view on a write-out, whatever the words look like |
| `Labels.RealLabelUnique` | EncDB/System_high/CryptoEnclave/CryptoEnclave.cpp:61-72 | A keyword that does not end in a digit shares no label with another keyword or with a placeholder |
| `Labels.LabelKeyAgree` | EncDB/System_high/CryptoEnclave/CryptoEnclave.cpp:61-72 | Equal labels mean equal cipher keys, so a colliding entry still decrypts |
| `Labels.DummyLabelsCollide` | EncDB/System_high/CryptoEnclave/CryptoEnclave.cpp:165-187 | Placeholder labels do collide: dummy_1 at version 10 is dummy_11 at version 0 |
| `Labels.DecryptEncrypt` | EncDB/System_high/CryptoEnclave/CryptoEnclave.cpp:74-89 | A bitmap survives encryption and decryption under one key |
| `Labels.DocLabelInjective` | EncDB/System_high/CryptoEnclave/CryptoEnclave.cpp:693-699 | Different documents have different labels |
| `IndexModel.WriteOutKeeps` | EncDB/System_high/CryptoEnclave/CryptoEnclave.cpp:103-129 | Writing a cached bitmap under its next version keeps the invariant and every keyword's view, even where placeholder labels collide |
| `IndexModel.OtherLoads` | EncDB/System_high/CryptoEnclave/CryptoEnclave.cpp:61-101 | No stored keyword loads a different bitmap after another one was written: the labels differ or both bitmaps are empty |
| `IndexModel.DummyView` | EncDB/System_high/CryptoEnclave/CryptoEnclave.cpp:165-187 | Every placeholder-shaped word stands for the empty set |
| `IndexModel.WriteOutFresh` | EncDB/System_high/CryptoEnclave/CryptoEnclave.cpp:112-124 | No (real keyword, version) entry is overwritten by a write-out |
| `IndexModel.BatchKeeps` | EncDB/System_high/CryptoEnclave/CryptoEnclave.cpp:103-129 | A whole batch of write-outs keeps every view |
| `KeywordIndex.StoreBitmapBatch` | EncDB/System_high/CryptoEnclave/CryptoEnclave.cpp:103-129 | The batch store versions, encrypts and uncaches each word in turn and changes no view |
| `KeywordIndex.PickRandomUncachedWord` | EncDB/System_high/CryptoEnclave/CryptoEnclave.cpp:131-152 | A picked word is uncached; a miss means the cache is as large as the word list or 256 draws all hit cached words |
| `KeywordIndex.MissIsBadLuck` | EncDB/System_high/CryptoEnclave/CryptoEnclave.cpp:131-152 | With more distinct words than cache entries an uncached companion exists, so a miss can only be 256 unlucky draws |
| `KeywordIndex.CompanionsNotBarren` | EncDB/System_high/CryptoEnclave/CryptoEnclave.cpp:131-152 | With more distinct words than the cache holds, a missed pick is never one of a cache as large as the word list, so it is 256 unlucky draws |
| `KeywordIndex.EvictOverflow` | EncDB/System_high/CryptoEnclave/CryptoEnclave.cpp:1221-1234 | Evicting random other words brings the cache to its bound and changes no view |
| `KeywordIndex.Search` | EncDB/System_high/CryptoEnclave/CryptoEnclave.cpp:1240-1282 | Search returns the keyword's view and changes no view; with a full cache an existing word costs one load and one one-entry store whether it was cached or not |
| `KeywordUpdates.UpdateKeyword` | EncDB/System_high/CryptoEnclave/CryptoEnclave.cpp:1106-1235 | One keyword round sets the view of exactly that keyword at exactly one bit, or, from an empty cache, replaces it by a fresh bitmap, and the tally counts exactly that; the cache shrinks by at most one; a full cache makes one load and one one-entry store in every case |
| `KeywordUpdates.SwapBit` | EncDB/System_high/CryptoEnclave/CryptoEnclave.cpp:1182-1218 | The round for a full cache in its cached, stored and new-word forms |
| `KeywordUpdates.ReplaceDummy` | EncDB/System_high/CryptoEnclave/CryptoEnclave.cpp:1189-1217 | A new keyword takes the place of some placeholder, which always exists while dummy_count is positive |
| `KeywordUpdates.StartBit` | EncDB/System_high/CryptoEnclave/CryptoEnclave.cpp:1114-1122 | The empty-cache round resets the keyword to the fresh bitmap whatever it was before |
| `KeywordUpdates.UpdateKeywords` | EncDB/System_high/CryptoEnclave/CryptoEnclave.cpp:1100-1236 | From any cache: the document's own bit is right in every keyword once all rounds are done; no keyword gains another document, and none loses one exactly if, seen before the call, no listed word under which another document is filed comes up after all cached keywords have had their rounds, unless the cache is full for good; a cache that is full or has as many entries as rounds loses nothing, an empty one starts every listed keyword over; placeholders go to new keywords only and run out only if there were fewer than rounds; the document number is checked first |
| `ColdRounds.TrackStep` | EncDB/System_high/CryptoEnclave/CryptoEnclave.cpp:1106-1235 | One more round keeps the foretold cache: the cached keywords are those at the start without the listed ones, or the cache is full for good |
| `ColdRounds.ColdIsEmpty` | EncDB/System_high/CryptoEnclave/CryptoEnclave.cpp:1114-1122 | The cache is empty before a round exactly when that was foretold from the cached and known keywords before the call |
| `ColdRounds.TrackCold` | EncDB/System_high/CryptoEnclave/CryptoEnclave.cpp:1106-1235 | Foretelling composes: clearing the old words and then filing the new ones is one list of rounds |
| `KeywordUpdates.CourseDone` | EncDB/System_high/CryptoEnclave/CryptoEnclave.cpp:1106-1235 | One more round drops another document's bit exactly where that was foretold |
| `KeywordUpdates.FedHungry` | EncDB/System_high/CryptoEnclave/CryptoEnclave.cpp:1189-1217 | With no placeholder left and a keyword still unknown, the keywords new to the index outnumber the placeholders there were |
| `KeywordUpdates.DummyAvailable` | EncDB/System_high/CryptoEnclave/CryptoEnclave.cpp:1191-1196 | The placeholder-picking loop has a candidate whenever dummy_count is positive |
| `KeywordUpdates.ColdUpdateAgrees` | EncDB/System_high/CryptoEnclave/CryptoEnclave.cpp:1114-1121 | An update from an empty cache agrees with setting one bit exactly when no other document is filed under the keyword |
| `Dummies.AppendDummyKeywords` | EncDB/System_high/CryptoEnclave/CryptoEnclave.cpp:165-187 | New placeholders join the index with empty bitmaps, change no view and overwrite no real keyword's entry |
| `Dummies.ZeroEntryKeeps` | EncDB/System_high/CryptoEnclave/CryptoEnclave.cpp:165-187 | A zero bitmap stored under a placeholder label leaves every stored word's bitmap as it was, labels colliding or not |
| `Provision.ProvisionAllDocSlotTombstones` | EncDB/System_high/CryptoEnclave/CryptoEnclave.cpp:895-931 | Every slot is stored as an empty tombstone of version zero and nothing is live |
| `Provision.UpdateInit` | EncDB/System_high/CryptoEnclave/CryptoEnclave.cpp:190-196 | A new database has empty views and slots, as many distinct words as placeholders, and satisfies both invariants |
| `BitPack.UnpackPack` | EncDB/System_high/CryptoEnclave/EnclaveUtils.h:90-109 | Unpacking a packed bitmap gives it back |
| `BitPack.Uint8ArrayToBitset` | EncDB/System_high/CryptoEnclave/EnclaveUtils.h:90-99 | The bit loops read each byte most significant bit first |
| `BitPack.BitsetToUint8Array` | EncDB/System_high/CryptoEnclave/EnclaveUtils.h:101-109 | The bit loops write each byte most significant bit first |
| `Tokens.WordTokenize` | EncDB/System_high/CryptoEnclave/EnclaveUtils.cpp:219-240 | Splitting at commas up to the first NUL, dropping empty tokens |
| `Tokens.TokensAreWords` | EncDB/System_high/CryptoEnclave/EnclaveUtils.cpp:219-240 | Every token is nonempty and free of commas and NULs |
| `Tokens.TokensTrim` | EncDB/System_high/CryptoEnclave/EnclaveUtils.cpp:219-240 | Trailing NULs do not change the tokens |
| `Tokens.TokensOfPayload` | EncDB/System_high/CryptoEnclave/EnclaveUtils.cpp:219-240 | Joining words with commas and tokenizing gives the words back |
| `Tokens.CommaSeparates` | EncDB/System_high/CryptoEnclave/EnclaveUtils.cpp:219-240 | A comma ends a keyword and leaves nothing behind |
| `Tokens.NulEnds` | EncDB/System_high/CryptoEnclave/EnclaveUtils.cpp:219-240 | Nothing behind a NUL counts |
| `Tokens.RunIsWord` | EncDB/System_high/CryptoEnclave/EnclaveUtils.cpp:219-240 | Any other run of bytes is one keyword, kept byte for byte |
| `Bundle.PackDocBundleV2` | EncDB/System_high/CryptoEnclave/EnclaveUtils.cpp:77-132 | A bundle of index, body and version fills exactly 4096 bytes, whatever the padding is |
| `Bundle.PackDocBundleV1` | EncDB/System_high/CryptoEnclave/EnclaveUtils.cpp:45-65 | The older form, without a version |
| `Bundle.PackDocBundleLegacy` | EncDB/System_high/CryptoEnclave/EnclaveUtils.cpp:67-75 | The oldest form: magic byte and text, cut or padded to 4096 bytes |
| `Bundle.ParseDocBundleEx` | EncDB/System_high/CryptoEnclave/EnclaveUtils.cpp:142-213 | The parser reads legacy, first and second form and rejects truncated ones as the code does |
| `Bundle.ParsePackedV2` | EncDB/System_high/CryptoEnclave/EnclaveUtils.cpp:77-213 | Parsing a packed second-form bundle gives index, body and version back whatever follows them |
| `Bundle.ParsePackedV1` | EncDB/System_high/CryptoEnclave/EnclaveUtils.cpp:45-213 | The same for the first form, with version zero |
| `Bundle.ParsePackedLegacy` | EncDB/System_high/CryptoEnclave/EnclaveUtils.cpp:67-213 | A legacy bundle gives its text up to the first NUL as index |
| `DocModel.PersistKeeps` | EncDB/System_high/CryptoEnclave/CryptoEnclave.cpp:791-836 | Writing a slot back under its next version changes no slot's contents; its counter grows by one, and without a wrap no stored version falls |
| `DocModel.FetchKeeps` | EncDB/System_high/CryptoEnclave/CryptoEnclave.cpp:757-789 | Fetching a slot changes no contents and raises its counter to at least the stored version, by at most one if it lagged by at most one |
| `DocModel.FetchedPersistGrows` | EncDB/System_high/CryptoEnclave/CryptoEnclave.cpp:757-836 | A slot that was fetched is written back under a strictly larger version, although the counter may have lagged behind storage |
| `DocModel.BundleReads` | EncDB/System_high/CryptoEnclave/CryptoEnclave.cpp:719-755 | A stored bundle reads back as the slot and version it was made from, and no other slot is affected |
| `DocCache.FetchDocSlotFromServer` | EncDB/System_high/CryptoEnclave/CryptoEnclave.cpp:757-789 | A fetch succeeds exactly for document numbers in range and changes no contents |
| `DocCache.PersistCachedSlotToServer` | EncDB/System_high/CryptoEnclave/CryptoEnclave.cpp:791-836 | The written slot leaves the cache under the next version; all contents stay |
| `DocCache.PersistRandomCachedSlot` | EncDB/System_high/CryptoEnclave/CryptoEnclave.cpp:838-852 | Some cached slot is written out; the cache shrinks by exactly one unless it was empty |
| `DocCache.PickDecoyDocId` | EncDB/System_high/CryptoEnclave/CryptoEnclave.cpp:854-868 | The decoy is a valid slot other than the target |
| `DocCache.RunSlotUpdate` | EncDB/System_high/CryptoEnclave/CryptoEnclave.cpp:870-893 | Exactly the target slot's contents change, the old contents are returned, the cache does not grow, and an invalid number changes nothing |
| `DocCache.SpillDocCkIfNeeded` | EncDB/System_high/CryptoEnclave/CryptoEnclave.cpp:933-937 | The spill loop ends with the cache within its bound and keeps all contents; each counter grows by at most one, and without a wrap no stored version falls |
| `DocCache.FlushStep` | EncDB/System_high/CryptoEnclave/CryptoEnclave.cpp:791-852 | Whatever slots a spill or a flush has written so far, writing one more of them under its next version keeps all contents, lets no stored version fall unless its counter wraps, and leaves each counter at most one higher than at the start, even for slots cached without raising their counters |
| `DocAccess.AppendUniqueDocId` | EncDB/System_high/CryptoEnclave/CryptoEnclave.cpp:619-629 | The id is appended exactly when it is nonempty and not yet listed |
| `DocAccess.BuildDocAccessPlan` | EncDB/System_high/CryptoEnclave/CryptoEnclave.cpp:647-691 | The plan is duplicate-free, contains every requested id and is padded no further than the threshold |
| `DocAccess.MaterializeAccessIds` | EncDB/System_high/CryptoEnclave/CryptoEnclave.cpp:939-984 | Every planned slot is cached and no contents change |
| `DocAccess.RetrieveDocs` | EncDB/System_high/CryptoEnclave/CryptoEnclave.cpp:1061-1092 | The rows are the latest contents of the requested documents in order, the cache is back within its bound, and although slots are read without raising their counters no stored version falls when they are spilled |
| `Query.BoolExprParser.ParseExprAt` | EncDB/System_high/CryptoTestingApp/QueryCodec.h:33-39 | The recursive-descent method computes the parse function from its position and keyword list |
| `Query.BoolExprParser.ParseTermAt` | EncDB/System_high/CryptoTestingApp/QueryCodec.h:50-56 | The same for AND chains |
| `Query.BoolExprParser.ParseUnaryAt` | EncDB/System_high/CryptoTestingApp/QueryCodec.h:58-63 | The same for NOT |
| `Query.BoolExprParser.ParseFactorAt` | EncDB/System_high/CryptoTestingApp/QueryCodec.h:65-91 | The same for parentheses and words |
| `Query.ParseExpr` | web/gateway/sql_builder.py:74-106 | A successful parse consumes tokens, only extends the keyword list, keeps it duplicate-free, and numbers every term within it |
| `Query.ParsePrinted` | EncDB/System_high/CryptoTestingApp/QueryCodec.h:28-118 | Parsing a printed expression gives it back, numbered by first occurrence, and stops at the first token that cannot extend it; with and without the gateway's case folding |
| `Query.ParseIsCanonical` | EncDB/System_high/CryptoTestingApp/QueryCodec.h:28-118 | Whatever the tokens, printing a parse result and parsing again gives the same AST and keyword list |
| `Query.NamedNumber` | EncDB/System_high/CryptoTestingApp/QueryCodec.h:74-91 | First-occurrence numbering loses nothing |
| `QueryCode.TokenizeQuery` | EncDB/System_high/CryptoTestingApp/QueryCodec.h:128-152 | The tokenizer loop computes the token function |
| `QueryCode.LexRender` | EncDB/System_high/CryptoTestingApp/QueryCodec.h:128-152 | Any token list survives being written out and tokenized again |
| `QueryCode.EncodeBoolExpr` | EncDB/System_high/CryptoTestingApp/QueryCodec.h:163-186 | The encoder writes exactly the postfix code into the output buffer |
| `QueryCode.RunEncoded` | EncDB/System_high/CryptoTestingApp/QueryCodec.h:163-186 | Running postfix code pushes exactly the expression's meaning on any stack, without underflow, and continues with the code that follows |
| `QueryCode.MeaningIsSatisfaction` | EncDB/System_high/CryptoEnclave/CryptoEnclave.cpp:1300-1324 | AND, OR and NOT over bitmaps are satisfaction by each live document |
| `QueryCode.CompileSelect` | EncDB/System_high/CryptoTestingApp/QueryCodec.h:28-186 | The parser loop fails exactly where the parse function does; otherwise each term is its keyword byte for byte, or the first 32 bytes of it, in order, and the code is the postfix form of the parsed expression |
| `QueryCode.MakeTerm` | EncDB/System_high/CryptoTestingApp/QueryCodec.h:154-161 | A keyword of up to 32 bytes is its own term, a longer one is cut after 32 |
| `QueryLaws.BlankSeparates` | EncDB/System_high/CryptoTestingApp/QueryCodec.h:128-152 | Tab, line feed, vertical tab, form feed, carriage return and space end a token and leave nothing behind |
| `QueryLaws.ParenStandsAlone` | EncDB/System_high/CryptoTestingApp/QueryCodec.h:128-152 | A parenthesis is a token of its own wherever it stands |
| `QueryLaws.RunIsToken` | EncDB/System_high/CryptoTestingApp/QueryCodec.h:128-152 | Any other run of bytes is one token, kept byte for byte |
| `QueryLaws.OperatorTokens` | EncDB/System_high/CryptoTestingApp/QueryCodec.h:33-91 | The tokens read as operators are exactly the bytes of AND, OR, NOT and the parentheses, for the gateway in any case |
| `QueryLaws.AndJoins` | EncDB/System_high/CryptoTestingApp/QueryCodec.h:50-56 | a AND b is read as the conjunction of a and b |
| `QueryLaws.OrJoins` | EncDB/System_high/CryptoTestingApp/QueryCodec.h:33-39 | a OR b is read as the disjunction of a and b |
| `QueryLaws.NotNegates` | EncDB/System_high/CryptoTestingApp/QueryCodec.h:58-63 | NOT a is read as the negation of a |
| `QueryLaws.AndBeforeOr` | EncDB/System_high/CryptoTestingApp/QueryCodec.h:33-56 | In a OR b AND c the conjunction binds tighter |
| `QueryLaws.OrAfterAnd` | EncDB/System_high/CryptoTestingApp/QueryCodec.h:33-56 | In a AND b OR c, too |
| `QueryLaws.NotBeforeAnd` | EncDB/System_high/CryptoTestingApp/QueryCodec.h:50-63 | In NOT a AND b only a is negated |
| `QueryLaws.Brackets` | EncDB/System_high/CryptoTestingApp/QueryCodec.h:65-72 | Parentheses around any expression change nothing |
| `QueryLaws.BracketsHold` | EncDB/System_high/CryptoTestingApp/QueryCodec.h:65-72 | An expression in parentheses is one operand of what stands before or behind it |
| `QueryLaws.Incomplete` | EncDB/System_high/CryptoTestingApp/QueryCodec.h:65-79 | Nothing at all, an operator without its operand and an open parenthesis are refused |
| `QueryLaws.CodeBytes` | EncDB/System_high/CryptoTestingApp/QueryCodec.h:163-186 | The code bytes are 1 and the term number, 2 for AND, 3 for OR and 4 for NOT, behind their operands |
| `QueryLaws.MachineBytes` | EncDB/System_high/CryptoEnclave/CryptoEnclave.cpp:1300-1324 | The machine looks up, intersects, unites and complements within the live documents on exactly these bytes |
| `Select.EvalBoolExpr` | EncDB/System_high/CryptoEnclave/CryptoEnclave.cpp:1300-1324 | The stack machine with its side-effecting Search computes what it would on fixed bitmaps and changes no view; it fails only when a pick misses |
| `Select.HandleSelect` | EncDB/System_high/CryptoEnclave/CryptoEnclave.cpp:1300-1385 | Rows or aggregate for the matching documents; all views and contents kept, slot counters up by at most one and no stored version falls without a wrap; it fails only by a missed pick |
| `Select.IdsSound` | EncDB/System_high/CryptoEnclave/CryptoEnclave.cpp:1325-1332 | The scan lists exactly the set bits, ascending |
| `Select.AggregatesMean` | EncDB/System_high/CryptoEnclave/CryptoEnclave.cpp:1341-1368 | MAX and MIN are attained bounds, SUM is at most 50005000, AVG is the floor mean between MIN and MAX |
| `Select.AggregateMeans` | EncDB/System_high/CryptoEnclave/CryptoEnclave.cpp:1341-1368 | Slot by slot: MAX and MIN are the largest and smallest matching number, SUM adds all of them up, AVG is the floor of that over their count, and each is 0 without a match |
| `Update.HandleStore` | EncDB/System_high/CryptoEnclave/CryptoEnclave.cpp:1436-1508 | Exact effect of INSERT and REPLACE from any cache on index, slot, live set, update counter, placeholders and highest number, including the REPLACE that returns before indexing; the price in cached bitmaps and placeholders is at most one per round; slot counters grow by at most two and no stored version falls without a wrap; the slot then holds the document as body and, if sent apart, the index text, else the document again, both without trailing NULs, and a completed request leaves the document live and listed under each word of that text |
| `Update.HandleDelete` | EncDB/System_high/CryptoEnclave/CryptoEnclave.cpp:1414-1454 | Exact effect of DELETE from any cache on index, slot, live set, update counter and placeholders, at the same price; the slot is then empty, the document not live, and no word of its index text lists it |
| `Snapshot.SnapshotRoundTrip` | EncDB/System_high/CryptoEnclave/CryptoEnclave.cpp:280-421 | Reading back a snapshot, in any key order and cut after any optional field, restores the context if and only if every key has 1 to 32 characters |
| `Snapshot.SerializeContextMetadata` | EncDB/System_high/CryptoEnclave/CryptoEnclave.cpp:280-325 | The writer produces the snapshot bytes for some iteration order of the key map |
| `Snapshot.DeserializeContextMetadata` | EncDB/System_high/CryptoEnclave/CryptoEnclave.cpp:327-421 | The reader accepts exactly what the parse function accepts, and its word list is a permutation of the keys |
| `Snapshot.RestoredKeysStorable` | EncDB/System_high/CryptoEnclave/CryptoEnclave.cpp:299-305 | Whatever bytes are read, a restored key has a storable length |
| `Persist.PersistActiveContextToStorage` | EncDB/System_high/CryptoEnclave/CryptoEnclave.cpp:504-529 | Flushing and sealing keeps the logical database in memory, and the snapshot, sealed before the slots are flushed, reads back as the same database; no entry of a keyword is overwritten and no slot version falls, in memory as in the snapshot |
| `Persist.LoadActiveContextFromStorage` | EncDB/System_high/CryptoEnclave/CryptoEnclave.cpp:473-502 | Loading succeeds exactly if a snapshot is there, fits the buffer and parses; the loaded context is the same database with its keyword cache refilled to the bound and every keyword listed |
| `Persist.SnapshotSize` | EncDB/System_high/CryptoEnclave/CryptoEnclave.cpp:280-325 | A snapshot is at most 41314 bytes, the key length and 40 bytes per keyword |
| `Scheduler.ScheduleContext` | EncDB/System_high/CryptoEnclave/CryptoEnclave.cpp:576-607 | Scheduling a client succeeds exactly if it has a context or one is to be created, even if it is the eviction victim itself; the client is then active, at most four contexts are inactive, and every client's logical database is unchanged, with keyword versions written once and slot counters up by at most one |
| `Scheduler.CacheActiveContext` | EncDB/System_high/CryptoEnclave/CryptoEnclave.cpp:531-543 | Parking the active context changes no client's database |
| `Scheduler.EvictOneInactiveContextIfNeeded` | EncDB/System_high/CryptoEnclave/CryptoEnclave.cpp:545-574 | Evicting a random victim to storage leaves at most four inactive contexts and changes no client's database; a victim with more keywords than fit will come back with a full cache and companions |
| `Scheduler.WokenIsWarm` | EncDB/System_high/CryptoEnclave/CryptoEnclave.cpp:473-502 | A client scheduled from storage with more keywords than its cache holds runs with a full cache and has companions to draw |
| `Scheduler.FourInactive` | EncDB/System_high/CryptoEnclave/CryptoEnclave.cpp:545-574 | After scheduling at most four contexts are inactive, and the active client is not among them |
| `Clients.PersistContext` | EncDB/System_high/CryptoEnclave/CryptoEnclave.cpp:210-235 | After persisting a database its client would find the same logical database even if the enclave restarted, with a full cache and companions if it has more keywords than fit; other clients notice nothing |
| `Clients.InitClient` | EncDB/System_high/CryptoTestingApp/Server.cpp:249-317 | A new client gets an active context with an empty cache, a thousand listed placeholders and the empty database; no other client's database changes |
| `EnclavePool.PoolSafety` | EncDB/System_high/CryptoTestingApp/Server.cpp:59-111 | In every state of every interleaving no instance is held twice, no client runs twice, a client runs where it was first bound, the mutex has one owner, and the busy-instance failure has not happened |
| `EnclavePool.StepSafe` | EncDB/System_high/CryptoTestingApp/Server.cpp:59-111 | Each step of any thread keeps the pool invariant |
| `EnclavePool.PopSafe` | EncDB/System_high/CryptoTestingApp/Server.cpp:88-96 | The front of the queue is never busy |
| `EnclavePool.RunKeepsBindings` | EncDB/System_high/CryptoTestingApp/Server.cpp:61-105 | A client's binding never changes once made |
| `RequestCore.Server.HandleRequestCore` | EncDB/System_high/CryptoTestingApp/Server.cpp:245-364 | On every path the acquired instance is free again on return. SHUTDOWN schedules the client's own database without creating it, then seals its context and saves its stores; a first INIT takes the next number and registers it, creates the context, makes a key and fills the database; another INIT only schedules; RESUME opens and schedules the database it names; SELECT and UPDATE are scheduled and handed over. Each stops at the first refused call and succeeds exactly if none is refused |
| `RequestCore.Server.Acquire` | EncDB/System_high/CryptoTestingApp/Server.cpp:59-105 | Without other threads, a client gets its bound instance, else the queue's front, else the first idle one |
| `RequestCore.Server.FailedInitIsNotRetried` | EncDB/System_high/CryptoTestingApp/Server.cpp:276-302 | After a first INIT that failed in the enclave, a second one only schedules the client and succeeds exactly if that does, with no key and no placeholders made, and requests are then handed to the enclave |
| `RequestCore.Server.FirstInit` | EncDB/System_high/CryptoTestingApp/Server.cpp:280-283 | A first INIT never gives a client a database that another one has |
| `Wire.RequestRoundTrip` | EncDB/System_high/CryptoTestingApp/RPC.cpp:39-183 | For every request that fits the structures, the C++ reader recovers what the C++ or the Python writer sent and consumes exactly the message; only the SHUTDOWN byte is zeroed by Python |
| `Wire.UntaggedLegacy` | EncDB/System_high/CryptoTestingApp/RPC.cpp:171-182 | An untagged update is read correctly exactly when its document length modulo 256 is neither 1 nor 2 |
| `Wire.SerializeEncdbRequest` | EncDB/System_high/CryptoTestingApp/RPC.cpp:263-284 | Header and body with the patched length field |
| `Wire.PythonSerializeRequest` | web/gateway/encdb_rpc.py:177-223 | The gateway's writer sends the same bytes |
| `Wire.DeserializeEncdbRequest` | EncDB/System_high/CryptoTestingApp/RPC.cpp:286-296 | The reader computes the parse function, including the exceptions on over-long fields |
| `Responses.ResponseRoundTrip` | EncDB/System_high/CryptoTestingApp/RPC.cpp:185-259 | A response that fits the structures arrives at the C++ reader and at the gateway's Python reader as sent, exactly when the database number fits its one byte and, for the gateway, the success code is not negative |
| `Responses.SerializeEncdbResponse` | EncDB/System_high/CryptoTestingApp/RPC.cpp:298-317 | Header and body with the patched length field |
| `Responses.DeserializeEncdbResponse` | EncDB/System_high/CryptoTestingApp/RPC.cpp:319-331 | The reader computes the parse function, including the exception on too many rows |
| `Formats.DecimalDigits` | EncDB/System_high/CryptoEnclave/CryptoEnclave.cpp:61-72 | Numbers are written in decimal digits, most significant first |
| `Formats.LittleEndian` | EncDB/System_high/CryptoTestingApp/RPC.cpp:9-36 | Numbers of four bytes have the least significant byte first, when written as when read, signed and unsigned |
| `Formats.PackedBits` | EncDB/System_high/CryptoEnclave/EnclaveUtils.h:90-109 | Bit 0 of a packed bitmap is the highest bit of the first byte |
| `Formats.LabelBytes` | EncDB/System_high/CryptoEnclave/CryptoEnclave.cpp:61-89 | What labels and keys are made from: word, version and 0 or 1; a document label from its number and 0 |
| `Formats.RealWords` | EncDB/System_high/CryptoEnclave/CryptoEnclave.cpp:61-72 | The keywords the theorems are about: 1 to 32 bytes, no digit at the end, not the bare placeholder prefix |
| `Formats.BundleBytes` | EncDB/System_high/CryptoEnclave/EnclaveUtils.cpp:45-132 | First byte 1 or 2, version, and the two sections with their lengths |
| `Formats.BundleKinds` | EncDB/System_high/CryptoEnclave/EnclaveUtils.cpp:142-213 | What the first byte of a stored bundle makes of it, truncated ones included |
| `Formats.RequestHeader` | EncDB/System_high/CryptoTestingApp/RPC.cpp:263-284 | Client, type 0 to 4, length and body of a request |
| `Formats.RequestBounds` | EncDB/System_high/CryptoTestingApp/EncDBRequest.h:10-24 | The limits of the request structures, as numbers |
| `Formats.RequestBodies` | EncDB/System_high/CryptoTestingApp/RPC.cpp:41-88 | The fields of each request body in order, with the tags of split and single updates |
| `Formats.ResponseHeader` | EncDB/System_high/CryptoTestingApp/RPC.cpp:298-317 | Status, type 0 to 3, length and body of a response |
| `Formats.ResponseBodies` | EncDB/System_high/CryptoTestingApp/RPC.cpp:185-224 | The fields of each response body in order; a database number in one byte |
| `Formats.RowBytes` | EncDB/System_high/CryptoTestingApp/RPC.cpp:191-198 | The numbers of all rows come first, then the contents |
| `AggregateText.AggregateShown` | EncDB/System_high/CryptoTestingApp/Server.cpp:550-582 | For every match bitmap, the gateway shows types 1 to 4 as MAX, MIN, SUM and AVG, letter by letter, with the number of matching slots and the value that name stands for; the server's text and the gateway's pattern are spelled independently |
| `AggregateText.MetaRoundTrip` | web/gateway/response_util.py:11-91 | Decoding, sanitizing and matching the printed text gives operation, count and value back, for any numbers |
| `Context.Host.StoreBitmapEntries` | EncDB/System_high/CryptoTestingApp/Server.cpp:370-376 | Entries are stored in order under their labels, replacing what was there |
| `Context.Host.LoadDocEntries` | EncDB/System_high/CryptoTestingApp/Server.cpp:396-407 | Each label gives its stored entry, or nothing |

## Left out

- SGX calls, sealing, AES-GCM, CMAC and random bytes: ideal functions and arbitrary choices; a seal that fails is not modelled, and its size overhead is a constant.
- The choice of random engine and seed: a pick is any index; the 256-attempt limit is kept, its probability is not.
- Sockets, framing, files, `meta.dat`, signals and clocks: storage keeps what was written, and a wait may time out at any round.
- Crash recovery between snapshots, and resuming a database under another client id: the code does not keep the view there.
- Overflow of 32-bit keyword versions, placeholder counters and snapshot sizes: `Persist.Room` and the limit on dummy_size bound them, and `Clients.ServeCalls` stops when a context in memory has no room; document slot versions do wrap as in the code.
- Clients.ServeCalls: RESUME of a database by another client than its owner, and INIT of a client whose earlier INIT failed in the enclave, are not among its calls; a client whose call was refused is left out at the end.
- Session.HandleUpdate: is exact for updates that complete; a skipped keyword or exhausted placeholders end in `Update.UpdateStatus`, where the invariants still hold (`Update.Kept`) but the update is partial.
- SELECT type codes above 4, and stack code that no compiler produced (an empty stack is undefined behaviour in C++).
- Terms over 32 bytes and lengths that overrun fixed arrays: bounds of the request structures, and running out of input is one outcome of the reader.
- White space and case of characters outside ASCII in the Python tokenizer; the rest of the SQL front end.
- AggregateText.MetaRoundTrip: the lenient second attempt of parse_aggregate_meta, which is reached only if the pattern does not match.
- Responses.ResponseRoundTrip: the Python writer of responses, which no server uses, and a Python row block cut short, which is read but never written.
- EnclavePool.PoolSafety: unsynchronised access to `edb_id_map` and iterator validity while the mutex is released are C++ memory-model questions outside a step model.
- RequestCore.Server.Acquire: the wait for a busy bound instance, which `EnclavePool` covers.
- RequestCore.Server.HandleRequestCore: the enclave's results are given answers, and no other thread runs; `Clients.ServeCalls` and `EnclavePool` cover the two sides.
- Debug output, console printing, the benchmark, FastAPI routes, catalog, stemming and dataset scripts: no hard property.
