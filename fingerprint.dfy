/**
 * Fingerprint generation (genHash in mongoHash.js): the documents a query cursor
 * delivers are serialised one by one into a single running SHA-256 state, which is
 * turned into a hex digest only when the cursor completes without an error.
 *
 * The data store, the cursor's projection, JSON.stringify and SHA-256 are not
 * modelled; they enter as function-valued parameters (Database, Libraries).
 */
module Fingerprinting {
  import opened Wrappers
  import opened Documents

  /**
   * A query cursor as genHash consumes it: the documents it delivers, in delivery
   * order, and how the iteration ends (None: the end callback receives a null err).
   */
  datatype Cursor = Cursor(docs: seq<Doc>, failure: Option<DbError>)

  /**
   * The queried database: `find(collection, query)` is the unprojected cursor of
   * db.collection(collection).find(JSON.parse(query)). With cursor.project(JSON.parse(p))
   * the projection goes into that same query: `rejects(query, p)` is the error the
   * server answers when it refuses the projection (for instance one mixing inclusion
   * and exclusion), and `project(query, p, d)` is what an accepted projection makes of
   * one matching document d (positional and $elemMatch projections depend on the query).
   */
  datatype Database = Database(
    find: (Text, Text) -> Cursor,
    rejects: (Text, Text) -> Option<DbError>,
    project: (Text, Text, Doc) -> Doc)

  /** The library calls genHash relies on: JSON.stringify and a SHA-256 hex digest of a text. */
  datatype Libraries = Libraries(stringify: Doc -> Text, sha256Hex: Text -> Text)

  /** The string the projection argument is compared with. */
  const Undefined: Text := "undefined"

  /**
   * The running hash object of crypto.createHash('sha256'). Its abstract state is
   * the text fed to it so far; SHA-256 is defined on that whole text, so feeding
   * pieces one at a time digests their concatenation.
   */
  class HashStream {
    const sha256Hex: Text -> Text
    var fed: Text
    var finalized: bool

    constructor (sha256Hex: Text -> Text)
      ensures this.sha256Hex == sha256Hex
      ensures fed == [] && !finalized
    {
      this.sha256Hex := sha256Hex;
      fed := [];
      finalized := false;
    }

    /** shasum.update(data); a hash object refuses updates once digested. */
    method Update(data: Text)
      requires !finalized
      modifies this
      ensures fed == old(fed) + data && !finalized
    {
      fed := fed + data;
    }

    /** shasum.digest('hex'): allowed once, after which the object is spent. */
    method Digest() returns (hex: Text)
      requires !finalized
      modifies this
      ensures finalized && fed == old(fed)
      ensures hex == sha256Hex(fed)
    {
      hex := sha256Hex(fed);
      finalized := true;
    }
  }

  /** Each document of docs with the projection p of the query applied, in the same order. */
  function ProjectAll(project: (Text, Text, Doc) -> Doc, query: Text, p: Text, docs: seq<Doc>): (r: seq<Doc>)
    ensures |r| == |docs|
    ensures forall i :: 0 <= i < |docs| ==> r[i] == project(query, p, docs[i])
  {
    if docs == [] then [] else [project(query, p, docs[0])] + ProjectAll(project, query, p, docs[1..])
  }

  /**
   * The cursor of the query with the projection p: nothing is delivered and the end
   * callback receives the server's error when it refuses p; otherwise the query's
   * documents, projected, and the query's own ending.
   */
  function ProjectedCursor(db: Database, collection: Text, query: Text, p: Text): Cursor
  {
    match db.rejects(query, p)
    case Some(e) => Cursor([], Some(e))
    case None =>
      var found := db.find(collection, query);
      Cursor(ProjectAll(db.project, query, p, found.docs), found.failure)
  }

  /**
   * Whether genHash projects its cursor. `None` is JavaScript's undefined, which is
   * what an omitted projection option is. Corrected form of the guard: see README.
   */
  predicate ProjectionApplies(projection: Option<Text>)
  {
    projection.Some? && projection.value != Undefined
  }

  /** The cursor genHash iterates over (the corrected guard). */
  function Delivered(db: Database, collection: Text, query: Text, projection: Option<Text>): Cursor
  {
    if ProjectionApplies(projection) then ProjectedCursor(db, collection, query, projection.value)
    else db.find(collection, query)
  }

  /**
   * The cursor as the guard is written: it compares with the string "undefined",
   * so an omitted projection passes it and JSON.parse(undefined) throws a
   * SyntaxError before any cursor exists. None stands for that exception.
   */
  function DeliveredAsWritten(db: Database, collection: Text, query: Text, projection: Option<Text>): Option<Cursor>
  {
    if projection != Some(Undefined) then
      if projection.None? then None
      else Some(ProjectedCursor(db, collection, query, projection.value))
    else
      Some(db.find(collection, query))
  }

  /** Everything fed into the hash state for docs: their serialisations, in order. */
  function Transcript(stringify: Doc -> Text, docs: seq<Doc>): Text
  {
    if docs == [] then [] else Transcript(stringify, docs[..|docs| - 1]) + stringify(docs[|docs| - 1])
  }

  /** The value genHash's promise settles with: the hex digest, or the cursor's error. */
  function Fingerprint(db: Database, lib: Libraries, collection: Text, query: Text, projection: Option<Text>): Result<Text, DbError>
  {
    var cursor := Delivered(db, collection, query, projection);
    if cursor.failure.None? then Success(lib.sha256Hex(Transcript(lib.stringify, cursor.docs)))
    else Failure(cursor.failure.value)
  }

  /**
   * genHash: one hash state, fed each delivered document's serialisation in
   * delivery order, finalised once when the cursor completes without error;
   * a cursor error rejects instead.
   */
  method GenHash(db: Database, lib: Libraries, collection: Text, query: Text, projection: Option<Text>)
    returns (r: Result<Text, DbError>)
    ensures r == Fingerprint(db, lib, collection, query, projection)
  {
    var shasum := new HashStream(lib.sha256Hex);
    var cursor := Delivered(db, collection, query, projection);
    var i := 0;
    while i < |cursor.docs|
      invariant 0 <= i <= |cursor.docs|
      invariant shasum.sha256Hex == lib.sha256Hex && !shasum.finalized
      invariant shasum.fed == Transcript(lib.stringify, cursor.docs[..i])
    {
      assert cursor.docs[..i + 1][..i] == cursor.docs[..i];
      shasum.Update(lib.stringify(cursor.docs[i]));
      i := i + 1;
    }
    assert cursor.docs[..i] == cursor.docs;
    if cursor.failure == None {
      var hex := shasum.Digest();
      r := Success(hex);
    } else {
      r := Failure(cursor.failure.value);
    }
  }

  /**
   * The projection is applied exactly when the argument is a string other than
   * "undefined": then the server either refuses it, and the cursor fails with its
   * error having delivered nothing, or delivers each document of the query projected,
   * ending as the query does; otherwise the cursor is the unprojected query.
   */
  lemma ProjectionAppliedIff(db: Database, collection: Text, query: Text, projection: Option<Text>)
    ensures var found, c := db.find(collection, query), Delivered(db, collection, query, projection);
      if !ProjectionApplies(projection) then c == found
      else match db.rejects(query, projection.value)
        case Some(e) => c.docs == [] && c.failure == Some(e)
        case None =>
          && c.failure == found.failure
          && |c.docs| == |found.docs|
          && forall i :: 0 <= i < |c.docs| ==> c.docs[i] == db.project(query, projection.value, found.docs[i])
  {
  }

  /** A projection the server refuses makes genHash reject with the server's error. */
  lemma RejectedProjectionFails(db: Database, lib: Libraries, collection: Text, query: Text, p: Text)
    requires p != Undefined && db.rejects(query, p).Some?
    ensures Fingerprint(db, lib, collection, query, Some(p)) == Failure(db.rejects(query, p).value)
  {
  }

  /** As written, an omitted projection (undefined) makes genHash throw. */
  lemma AbsentProjectionThrows(db: Database, collection: Text, query: Text)
    ensures DeliveredAsWritten(db, collection, query, None) == None
    ensures Delivered(db, collection, query, None) == db.find(collection, query)
  {
  }

  /** For every projection that is actually given, the corrected guard behaves as written. */
  lemma GuardAgreesOnGivenProjections(db: Database, collection: Text, query: Text, p: Text)
    ensures DeliveredAsWritten(db, collection, query, Some(p)) == Some(Delivered(db, collection, query, Some(p)))
  {
  }

  /** Feeding two batches one after the other is feeding their concatenation. */
  lemma {:induction false} TranscriptAppend(stringify: Doc -> Text, a: seq<Doc>, b: seq<Doc>)
    ensures Transcript(stringify, a + b) == Transcript(stringify, a) + Transcript(stringify, b)
  {
    if b == [] {
      assert a + b == a;
    } else {
      var b' := b[..|b| - 1];
      assert (a + b)[..|a + b| - 1] == a + b';
      TranscriptAppend(stringify, a, b');
    }
  }

  /** The first document delivered is the first text the hash state sees. */
  lemma TranscriptCons(stringify: Doc -> Text, d: Doc, rest: seq<Doc>)
    ensures Transcript(stringify, [d] + rest) == stringify(d) + Transcript(stringify, rest)
  {
    TranscriptAppend(stringify, [d], rest);
    assert Transcript(stringify, [d]) == Transcript(stringify, []) + stringify(d);
  }

  /** Only the serialised content of the documents, in order, reaches the hash state. */
  lemma {:induction false} TranscriptBySerialisation(stringify: Doc -> Text, xs: seq<Doc>, ys: seq<Doc>)
    requires |xs| == |ys|
    requires forall i :: 0 <= i < |xs| ==> stringify(xs[i]) == stringify(ys[i])
    ensures Transcript(stringify, xs) == Transcript(stringify, ys)
  {
    if xs != [] {
      TranscriptBySerialisation(stringify, xs[..|xs| - 1], ys[..|ys| - 1]);
    }
  }

  /**
   * Determinism: two queries whose cursors deliver documents that serialise the
   * same, in the same order, and that both complete, have the same digest.
   */
  lemma FingerprintDeterministic(db1: Database, db2: Database, lib: Libraries, collection: Text, query: Text, projection: Option<Text>)
    requires var c1, c2 := Delivered(db1, collection, query, projection), Delivered(db2, collection, query, projection);
      && c1.failure.None? && c2.failure.None? && |c1.docs| == |c2.docs|
      && forall i :: 0 <= i < |c1.docs| ==> lib.stringify(c1.docs[i]) == lib.stringify(c2.docs[i])
    ensures Fingerprint(db1, lib, collection, query, projection) == Fingerprint(db2, lib, collection, query, projection)
  {
    var c1, c2 := Delivered(db1, collection, query, projection), Delivered(db2, collection, query, projection);
    TranscriptBySerialisation(lib.stringify, c1.docs, c2.docs);
  }

  /**
   * A cursor that ends with an error produces no digest: the result is that error,
   * whatever documents were delivered before it; otherwise it is the digest of the
   * whole transcript.
   */
  lemma FingerprintOutcome(db: Database, lib: Libraries, collection: Text, query: Text, projection: Option<Text>)
    ensures var c, r := Delivered(db, collection, query, projection), Fingerprint(db, lib, collection, query, projection);
      && (r.Failure? <==> c.failure.Some?)
      && (c.failure.Some? ==> r == Failure(c.failure.value))
      && (c.failure.None? ==> r == Success(lib.sha256Hex(Transcript(lib.stringify, c.docs))))
  {
  }
}
