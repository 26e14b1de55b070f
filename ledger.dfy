/**
 * The fingerprint ledger: the query_hashes collection of the mongoblock-proof
 * database (saveHash, checkHash and the unique index of init in mongoHash.js).
 *
 * The unique compound index on (db, collection, query, projection) means at most
 * one document per scope, so the collection is a map from Scope to the document's
 * remaining fields.
 */
module Ledger {
  import opened Wrappers
  import opened Documents
  import opened Fingerprinting

  /** The unique key of a ledger document; projection None is an omitted projection. */
  datatype Scope = Scope(db: Text, collection: Text, query: Text, projection: Option<Text>)

  /**
   * The fields of a ledger document other than its four key fields and the
   * server-generated `_id`, which nothing here reads.
   */
  type Fields = map<Text, Value>

  /** What a successful update reports: it matched an existing document, or inserted one. */
  datatype WriteResult = UpdatedExisting | Inserted

  /**
   * An error the driver reports for a write, and whether the server had applied the
   * write before it (a network error after the write, say): the caller cannot tell.
   */
  datatype StorageFault = StorageFault(error: DbError, applied: bool)

  const Pending: Text := "pending"

  /** The `$set` document saveHash writes for a digest computed at time now. */
  function HashData(hash: Text, now: int): Fields
  {
    map["hash" := Str(hash), "status" := Str(Pending), "dateTime" := Date(now)]
  }

  /**
   * The table after an update of the document with key scope by `{$set: update}` with
   * upsert: the matching document receives the fields of update and keeps its others;
   * without a match, a new document holding the key and update is inserted.
   */
  function Upserted(table: map<Scope, Fields>, scope: Scope, update: Fields): (t: map<Scope, Fields>)
    ensures t.Keys == table.Keys + {scope}
    ensures forall k :: k in table && k != scope ==> t[k] == table[k]
    ensures forall f :: f in update ==> f in t[scope] && t[scope][f] == update[f]
    ensures forall f :: f !in update ==>
      (f in t[scope] <==> scope in table && f in table[scope]) &&
      (f in t[scope] ==> t[scope][f] == table[scope][f])
  {
    var current := if scope in table then table[scope] else map[];
    table[scope := current + update]
  }

  /** doc.hash as checkHash compares it: a string, or None for undefined or another type. */
  function StoredHash(doc: Fields): Option<Text>
  {
    if "hash" in doc && doc["hash"].Str? then Some(doc["hash"].text) else None
  }

  /**
   * The value checkHash's promise settles with, given how the lookup of the scope's
   * document went and the recomputed fingerprint: None when it never settles (the
   * lookup rejects, no document matches, or the recomputation rejects).
   */
  function Check(table: map<Scope, Fields>, scope: Scope, lookupFailure: Option<DbError>,
                 recomputed: Result<Text, DbError>): (v: Option<bool>)
    ensures v.Some? <==> lookupFailure.None? && scope in table && recomputed.Success?
    ensures v == Some(true) <==>
      lookupFailure.None? && scope in table && recomputed.Success? && StoredHash(table[scope]) == Some(recomputed.value)
  {
    if lookupFailure.Some? || scope !in table then None
    else match recomputed
      case Failure(_) => None
      case Success(newHash) => Some(StoredHash(table[scope]) == Some(newHash))
  }

  /** The query_hashes collection. */
  class QueryHashes {
    var records: map<Scope, Fields>

    /** init: the collection with its unique compound index, before any save. */
    constructor ()
      ensures records == map[]
    {
      records := map[];
    }

    /**
     * saveHash: upsert `{$set: {hash, status: 'pending', dateTime}}` for the scope.
     * The clock reading `now` stands for new Date(); `storageFailure` is the err the
     * driver reports, if any, which is passed on whether or not the write took effect.
     */
    method SaveHash(dbName: Text, collection: Text, hash: Text, query: Text, projection: Option<Text>,
                    now: int, storageFailure: Option<StorageFault>)
      returns (r: Result<WriteResult, DbError>)
      modifies this
      ensures var scope := Scope(dbName, collection, query, projection);
        match storageFailure
        case Some(fault) =>
          && r == Failure(fault.error)
          && records == if fault.applied then Upserted(old(records), scope, HashData(hash, now)) else old(records)
        case None =>
          && r == Success(if scope in old(records) then UpdatedExisting else Inserted)
          && records == Upserted(old(records), scope, HashData(hash, now))
    {
      var scope := Scope(dbName, collection, query, projection);
      if storageFailure.Some? {
        r := Failure(storageFailure.value.error);
        if storageFailure.value.applied {
          records := Upserted(records, scope, HashData(hash, now));
        }
      } else {
        r := Success(if scope in records then UpdatedExisting else Inserted);
        records := Upserted(records, scope, HashData(hash, now));
      }
    }

    /**
     * checkHash: look up the document for the scope, recompute the fingerprint of
     * the scope's query, and report whether the two digests are equal. It changes
     * nothing in the collection. `lookupFailure` is the error toArray() may reject
     * with, for which no handler exists.
     */
    method CheckHash(db: Database, lib: Libraries, dbName: Text, collection: Text, query: Text, projection: Option<Text>,
                     lookupFailure: Option<DbError>)
      returns (verdict: Option<bool>)
      ensures verdict == Check(records, Scope(dbName, collection, query, projection), lookupFailure,
                               Fingerprint(db, lib, collection, query, projection))
    {
      var scope := Scope(dbName, collection, query, projection);
      verdict := None;
      if lookupFailure.None? && scope in records {
        var oldHash := StoredHash(records[scope]);
        var newHash := GenHash(db, lib, collection, query, projection);
        if newHash.Success? {
          verdict := Some(oldHash == Some(newHash.value));
        }
      }
    }
  }

  /** After a save, its record holds the new hash, status and time, and keeps every other field. */
  lemma SavedRecord(table: map<Scope, Fields>, scope: Scope, hash: Text, now: int)
    ensures var t := Upserted(table, scope, HashData(hash, now));
      && scope in t
      && StoredHash(t[scope]) == Some(hash)
      && t[scope]["status"] == Str(Pending)
      && t[scope]["dateTime"] == Date(now)
      && (scope in table ==> forall f :: f in table[scope] && f !in {"hash", "status", "dateTime"} ==> t[scope][f] == table[scope][f])
      && (scope !in table ==> t[scope].Keys == {"hash", "status", "dateTime"})
  {
  }

  /** A save adds a document only when none had the key: the key stays unique. */
  lemma UpsertSize(table: map<Scope, Fields>, scope: Scope, update: Fields)
    ensures |Upserted(table, scope, update)| == if scope in table then |table| else |table| + 1
  {
  }

  /** A second `$set` of the same fields overrides the first entirely. */
  lemma SetSameFieldsTwice(doc: Fields, first: Fields, second: Fields)
    requires first.Keys == second.Keys
    ensures (doc + first) + second == doc + second
  {
  }

  /** Saving twice for a scope leaves one record, that of the latest save. */
  lemma SaveLastWins(table: map<Scope, Fields>, scope: Scope, h1: Text, n1: int, h2: Text, n2: int)
    ensures Upserted(Upserted(table, scope, HashData(h1, n1)), scope, HashData(h2, n2))
         == Upserted(table, scope, HashData(h2, n2))
  {
    var current := if scope in table then table[scope] else map[];
    var once := table[scope := current + HashData(h1, n1)];
    assert Upserted(table, scope, HashData(h1, n1)) == once;
    SetSameFieldsTwice(current, HashData(h1, n1), HashData(h2, n2));
    assert once[scope := (current + HashData(h1, n1)) + HashData(h2, n2)] == table[scope := current + HashData(h2, n2)];
  }

  /** Saves for different scopes do not interfere: their order does not matter. */
  lemma SavesCommute(table: map<Scope, Fields>, s1: Scope, a: Fields, s2: Scope, b: Fields)
    requires s1 != s2
    ensures Upserted(Upserted(table, s1, a), s2, b) == Upserted(Upserted(table, s2, b), s1, a)
  {
  }

  /**
   * Save then check: right after saving a digest for a scope, checking the scope
   * reports true iff the recomputed digest equals the saved one, and false on drift.
   */
  lemma SaveThenCheck(table: map<Scope, Fields>, scope: Scope, hash: Text, now: int, recomputed: Text)
    ensures Check(Upserted(table, scope, HashData(hash, now)), scope, None, Success(recomputed)) == Some(recomputed == hash)
  {
  }

  /**
   * The demo flow of the source: genHash, saveHash with its digest, checkHash on
   * the same unchanged data confirms; on changed data whose digest differs it reports
   * false (both saving and looking up without a driver error).
   */
  lemma DemoFlow(table: map<Scope, Fields>, before: Database, after: Database, lib: Libraries,
                 dbName: Text, collection: Text, query: Text, projection: Option<Text>, now: int)
    requires Fingerprint(before, lib, collection, query, projection).Success?
    ensures var h := Fingerprint(before, lib, collection, query, projection).value;
      var t := Upserted(table, Scope(dbName, collection, query, projection), HashData(h, now));
      var v := Check(t, Scope(dbName, collection, query, projection), None, Fingerprint(after, lib, collection, query, projection));
      match Fingerprint(after, lib, collection, query, projection)
      case Failure(_) => v == None
      case Success(h') => v == Some(h' == h)
  {
  }
}
