# mongoblock-proof fingerprint ledger, in Dafny

A model of the fingerprint ledger in `mongoHash.js` of mongoblock-proof. It covers three parts:

- **Fingerprint generation (`genHash`).** A query cursor over a MongoDB collection is optionally projected. Every document it delivers is passed through `JSON.stringify` and fed into one running SHA-256 state, in delivery order. When the cursor completes with a null error, the state is digested once, as hex. A cursor error rejects instead.
- **Ledger upsert (`saveHash`).** The `query_hashes` collection of the `mongoblock-proof` database has a unique compound index on (db, collection, query, projection), created by `init`. `saveHash` updates the document with that key with `$set: {hash, status: 'pending', dateTime}`, inserting it when there is none.
- **Drift check (`checkHash`).** It looks up the document for the scope, recomputes the fingerprint of the scope's query, and settles with `true` iff the stored `hash` equals the new digest, else `false`.

## Files and modules

- `wrappers.dfy`, module `Wrappers`: `Option` and `Result`.
- `documents.dfy`, module `Documents`: text, BSON field values, documents as field maps, driver errors.
- `fingerprint.dfy`, module `Fingerprinting`:
  - the cursor: a sequence of delivered documents plus an optional terminal error;
  - the `HashStream` class, standing for the `crypto` hash object, whose state is the text fed so far;
  - the projection guard;
  - the specification function `Fingerprint` and the method `GenHash` proved equal to it;
  - lemmas about the transcript, the text fed into the hash.
- `ledger.dfy`, module `Ledger`:
  - `Scope`, the unique key;
  - the pure upsert `Upserted` and verdict `Check`;
  - the `QueryHashes` class, with `SaveHash` and `CheckHash` methods;
  - lemmas relating saves to each other and to checks.

Because of the unique index there is at most one document per scope. The collection is therefore a `map<Scope, Fields>`, and the uniqueness invariant holds by construction (`UpsertSize` says a save adds a document only for a new key). `Fields` is the rest of the document as a field map, without the server-generated `_id`. So `$set` is a map union, and any other fields survive a save.

External calls become parameters:
- the data store's `find`, and the server's handling of a projection: whether it refuses it, and what it makes of each matching document (datatype `Database`);
- `JSON.stringify` and SHA-256 (datatype `Libraries`);
- the clock reading for `new Date()` (`now`, milliseconds since the epoch);
- the error the driver may report for the update, and whether the write took effect before it (`storageFailure`);
- the error the lookup in `checkHash` may reject with (`lookupFailure`).

An omitted projection option is JavaScript's `undefined`, modelled as `None`.

`saveHash` writes only `hash`, `status` and `dateTime`, with `$set`. It touches no receipt field. No index exists on `hash`. `'pending'` is the only status the code writes.

## Model

| member | source | states |
|---|---|---|
| `Fingerprinting.HashStream.constructor` | mongoHash.js:71-72 | a fresh SHA-256 state has been fed nothing and is not yet digested |
| `Fingerprinting.HashStream.Update` | mongoHash.js:81 | an update appends the text to what the state has been fed; only allowed before the digest |
| `Fingerprinting.HashStream.Digest` | mongoHash.js:85 | the hex digest is SHA-256 of everything fed, taken once, after which the state is spent |
| `Fingerprinting.ProjectAll` | mongoHash.js:76 | an accepted projection delivers, position by position, the projection under the query of each document the query matches |
| `Fingerprinting.GenHash` | mongoHash.js:69-93 | the loop feeds each delivered document's serialisation into one hash state, in delivery order, and finalises once; the result is SHA-256 of the concatenated serialisations when the cursor completes, and the cursor's error otherwise |
| `Fingerprinting.ProjectionAppliedIff` | mongoHash.js:74-77 | a projection is applied iff a string other than "undefined" was given; then either the server refuses it, and the cursor delivers nothing and ends with the server's error, or the cursor delivers each of the query's documents projected and ends as the query does; otherwise the cursor is the unprojected query |
| `Fingerprinting.RejectedProjectionFails` | mongoHash.js:74-88 | a projection the server refuses makes genHash reject with the server's error instead of producing a digest |
| `Fingerprinting.AbsentProjectionThrows` | mongoHash.js:75-76 | as written, an omitted projection passes the guard and JSON.parse(undefined) throws, while the corrected guard yields the unprojected cursor |
| `Fingerprinting.GuardAgreesOnGivenProjections` | mongoHash.js:75-77 | for every projection string actually given, the corrected guard produces exactly the cursor the written guard does |
| `Fingerprinting.TranscriptAppend` | mongoHash.js:79-82 | feeding two batches of documents one after the other feeds the hash exactly the concatenation of their transcripts |
| `Fingerprinting.TranscriptCons` | mongoHash.js:79-82 | the first document delivered is the first text the hash state receives, followed by the rest |
| `Fingerprinting.TranscriptBySerialisation` | mongoHash.js:81 | two document sequences whose serialisations agree position by position feed the hash the same text |
| `Fingerprinting.FingerprintDeterministic` | mongoHash.js:71-85 | two completed cursors that deliver equally serialising documents in the same order give the same digest |
| `Fingerprinting.FingerprintOutcome` | mongoHash.js:83-88 | no digest is produced iff the cursor ends with an error, and the result is then that error, whatever was delivered before it |
| `Ledger.Upserted` | mongoHash.js:113-118 | after an upsert the key set is the old one plus the scope; documents with every other key are unchanged; the scope's document has each `$set` field with its new value and, for every other field, exactly the fields and values it had before (none for an insert) |
| `Ledger.Check` | mongoHash.js:147-166 | the verdict exists iff the lookup does not reject, a document matches and the recomputation succeeds; it is true iff, in addition, the stored hash is a string equal to the recomputed digest |
| `Ledger.QueryHashes.constructor` | mongoHash.js:55-64 | the collection starts empty with its key unique |
| `Ledger.QueryHashes.SaveHash` | mongoHash.js:98-127 | on a driver error the error is passed on unchanged and no success is reported, and the collection is unchanged if the write had not taken effect before the error and upserted if it had; otherwise the result says whether an existing document was updated or one inserted, and the collection is the upsert of the `$set` document {hash, status 'pending', dateTime now} for the scope |
| `Ledger.QueryHashes.CheckHash` | mongoHash.js:132-168 | changes nothing (no modifies clause); the verdict is `Check` of the stored document against the recomputed fingerprint of the scope's query: None when the lookup rejects, no document matches or genHash rejects (the promise never settles) |
| `Ledger.SavedRecord` | mongoHash.js:101-116 | after a save the scope's document holds the given hash, status 'pending' and the given dateTime; a pre-existing document keeps every other field, and an inserted one has just these three besides its key and `_id` |
| `Ledger.SetSameFieldsTwice` | mongoHash.js:114-116 | a second `$set` of the same fields overrides the first one entirely |
| `Ledger.UpsertSize` | mongoHash.js:106-118 | a save grows the collection by one document exactly when no document had the key, so never creates a duplicate |
| `Ledger.SaveLastWins` | mongoHash.js:98-127 | saving twice for one scope leaves the same collection as saving only the second digest and time |
| `Ledger.SavesCommute` | mongoHash.js:106-118 | saves for different scopes do not interfere: their order does not matter |
| `Ledger.SaveThenCheck` | mongoHash.js:150-161 | right after a save of a digest, checking the scope with a recomputed digest reports true iff the two are equal, false on drift |
| `Ledger.DemoFlow` | mongoHash.js:35-50 | genHash, then saveHash of its digest, then checkHash: confirms on data that still has that digest, reports false on drifted data, and gives no verdict when the recomputation rejects |

## Left out

- getReceipt.js is not part of this model: Tierion authentication, the receipt poll on a timer and its log formatter are network I/O, timers and logging.
- SHA-256, `JSON.stringify`, `JSON.parse` of the query and projection strings, `find` and `cursor.project` are foreign library calls. They are function-valued parameters. Collision freedom is not claimed, and a malformed query or projection string that makes `JSON.parse` throw is not modelled.
- The MongoDB connection, `createIndex`, cursor mechanics and the driver's `update` are left out. The collection is a map and a cursor is a finite sequence plus an optional terminal error.
- `commandLineOptions`, `process.exit`, console logging and the top-level promise chain are glue. The chain appears only as the lemma `DemoFlow`.
- Promise and callback asynchrony: each function is a sequential method, and a promise that never settles is `None`.
- The empty `forEach` over the whole collection at the start of `checkHash` is dead code with no effect, so it is not modelled.
- `checkHash` starts one recomputation per matching document and settles with the first to finish, comparing against a global `oldHash`. With the unique index at most one document matches, so the model covers only that case.
- The `_id` the server gives an inserted ledger document is not modelled. Nothing in the code reads it.
- Which projections the server refuses, and what an accepted projection does to a document, are server behaviour. They are function-valued parameters of `Database`.
- Ledger.QueryHashes.SaveHash: the driver's write result is reduced to whether a document was matched or inserted. The counts of matched and modified documents are not modelled.
- Statuses other than `pending`, receipt attachment and timestamp tolerance are not in this code, so they are not modelled.

## Findings

| source | as written | input that shows it | evidently intended | confidence | as-written member | corrected member |
|---|---|---|---|---|---|---|
| mongoHash.js:75-76 | the guard compares the projection with the string "undefined", so an omitted projection (JavaScript's undefined) passes it and JSON.parse(undefined) throws a SyntaxError | running with `-u`, `-c` and `-q` but no `-p` (the usage line marks `-p` optional) | no projection when none is given | high; not executed | `Fingerprinting.AbsentProjectionThrows` | `Fingerprinting.ProjectionAppliedIff` |

`DeliveredAsWritten` is the guard as written. `Delivered` is the corrected guard and is the one `Fingerprint`, `GenHash` and `CheckHash` use. The two agree on every projection string that is actually given (`GuardAgreesOnGivenProjections`).
