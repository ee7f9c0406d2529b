/**
 * The MongoDB persistence layer shared by both snapshots: `hash_document`
 * and `upsert_documents` (`Persist` of the older snapshot and the inherent
 * methods of `MongoDB`, which are the same code), and the unique indexes
 * `init` creates.
 *
 * A collection is a class whose documents are addressed by the value of its
 * id key. Serialisation (`bson::to_document`), the 64-bit `DefaultHasher`
 * digest, the clock and the database's verdict on each write are parameters.
 */
module Persist {
  import opened Wrappers
  import Numerals

  /** A top-level BSON value of a stored document. */
  datatype Bson = BStr(text: string) | BInt(number: int) | BBool(flag: bool) | BDate(millis: int) | BNull

  /** A BSON document: field name to value. */
  type Doc = map<string, Bson>

  /** One pending `find_one_and_update`: the filter's id and the `$set` document. */
  type Update = (Bson, Doc)

  /** The six `(collection, key)` unique indexes `init` creates, in order. */
  const UniqueIndexes: seq<(string, string)> := [
    ("anime", "media_id"), ("manga", "media_id"), ("anime", "hash"),
    ("manga", "hash"), ("users", "id"), ("alt_titles", "media_id")]

  /** `hash_document`: the digest as lower-case hexadecimal without padding. */
  function HashDocument<T>(record: T, digest: T -> Numerals.U64): (h: string)
    ensures 1 <= |h| <= 16
    ensures forall i :: 0 <= i < |h| ==> h[i] in Numerals.Alphabet
    ensures h[0] == '0' <==> digest(record) == 0
    ensures Numerals.Parse(h, 16) == digest(record)
  {
    Numerals.HexOfU64(digest(record));
    Numerals.Hex(digest(record))
  }

  /** The serialised record extended with `modified` and `hash`. */
  function Stamped(fields: Doc, now: int, hash: string): (d: Doc)
    ensures d.Keys == fields.Keys + {"modified", "hash"}
    ensures d["modified"] == BDate(now) && d["hash"] == BStr(hash)
    ensures forall k :: k in fields && k != "modified" && k != "hash" ==> d[k] == fields[k]
  {
    fields + map["modified" := BDate(now), "hash" := BStr(hash)]
  }

  function CouldNotFind(idKey: string): string
  {
    "Could not find " + idKey + "."
  }

  /** One iteration of the loop of `upsert_documents`, up to the push. */
  function Prepare<T>(record: T, idKey: string, toDocument: T -> Result<Doc, string>,
                      digest: T -> Numerals.U64, now: int): (r: Result<Update, string>)
    ensures toDocument(record).Err? ==> r == Err(toDocument(record).error)
    ensures toDocument(record).Ok? ==>
      (r.Err? <==> idKey !in toDocument(record).value && idKey != "modified" && idKey != "hash")
    ensures r.Err? && toDocument(record).Ok? ==> r.error == CouldNotFind(idKey)
    ensures r.Ok? ==> idKey in r.value.1 && r.value.1[idKey] == r.value.0
    ensures r.Ok? ==> r.value.1 == Stamped(toDocument(record).value, now, HashDocument(record, digest))
  {
    match toDocument(record)
    case Err(e) => Err(e)
    case Ok(fields) =>
      var document := Stamped(fields, now, HashDocument(record, digest));
      if idKey in document then Ok((document[idKey], document)) else Err(CouldNotFind(idKey))
  }

  /**
   * The shape of a loop whose `?` returns early: the first failing step's
   * error, or every step's value in order.
   */
  function Sequenced<T, U>(xs: seq<T>, step: T -> Result<U, string>): (r: Result<seq<U>, string>)
    ensures r.Ok? ==> |r.value| == |xs|
    decreases |xs|
  {
    if |xs| == 0 then Ok([])
    else
      var n := |xs| - 1;
      match Sequenced(xs[..n], step)
      case Err(e) => Err(e)
      case Ok(us) =>
        match step(xs[n])
        case Err(e) => Err(e)
        case Ok(u) => Ok(us + [u])
  }

  lemma {:induction false} SequencedSticky<T, U>(a: seq<T>, b: seq<T>, step: T -> Result<U, string>)
    requires a <= b && Sequenced(a, step).Err?
    ensures Sequenced(b, step) == Sequenced(a, step)
    decreases |b|
  {
    if |b| > |a| {
      var n := |b| - 1;
      assert a <= b[..n];
      SequencedSticky(a, b[..n], step);
    } else {
      assert a == b;
    }
  }

  lemma {:induction false} SequencedOk<T, U>(xs: seq<T>, step: T -> Result<U, string>)
    requires Sequenced(xs, step).Ok?
    ensures forall i :: 0 <= i < |xs| ==> step(xs[i]) == Ok(Sequenced(xs, step).value[i])
    decreases |xs|
  {
    if |xs| > 0 {
      var n := |xs| - 1;
      var p := xs[..n];
      var whole := Sequenced(xs, step).value;
      var head := Sequenced(p, step);
      assert head.Ok? && step(xs[n]).Ok?;
      assert whole == head.value + [step(xs[n]).value];
      SequencedOk(p, step);
      forall i | 0 <= i < |xs| ensures step(xs[i]) == Ok(whole[i]) {
        if i < n {
          assert xs[i] == p[i] && whole[i] == head.value[i];
        }
      }
    }
  }

  lemma {:induction false} SequencedFirstError<T, U>(xs: seq<T>, step: T -> Result<U, string>) returns (first: nat)
    requires Sequenced(xs, step).Err?
    ensures first < |xs|
    ensures step(xs[first]) == Err(Sequenced(xs, step).error)
    ensures forall i :: 0 <= i < first ==> step(xs[i]).Ok?
    decreases |xs|
  {
    var n := |xs| - 1;
    var p := xs[..n];
    if Sequenced(p, step).Err? {
      first := SequencedFirstError(p, step);
      assert xs[first] == p[first];
    } else {
      first := n;
      SequencedOk(p, step);
    }
    forall i | 0 <= i < first ensures step(xs[i]).Ok? {
      assert xs[i] == p[i];
    }
  }

  lemma SequencedOne<T, U>(x: T, step: T -> Result<U, string>)
    requires step(x).Ok?
    ensures Sequenced([x], step) == Ok([step(x).value])
  {
    assert [x][..0] == [];
    assert Sequenced([x][..0], step) == Ok([]);
    assert [] + [step(x).value] == [step(x).value];
  }

  /** The whole loop: the first failing record's error, or every update in order. */
  function PrepareAll<T>(records: seq<T>, idKey: string, toDocument: T -> Result<Doc, string>,
                         digest: T -> Numerals.U64, now: int): (r: Result<seq<Update>, string>)
    ensures r.Ok? ==> |r.value| == |records|
  {
    Sequenced(records, record => Prepare(record, idKey, toDocument, digest, now))
  }

  /** A failed prefix fails the whole loop with the same error. */
  lemma PrepareAllSticky<T>(a: seq<T>, b: seq<T>, idKey: string, toDocument: T -> Result<Doc, string>,
                            digest: T -> Numerals.U64, now: int)
    requires a <= b && PrepareAll(a, idKey, toDocument, digest, now).Err?
    ensures PrepareAll(b, idKey, toDocument, digest, now) == PrepareAll(a, idKey, toDocument, digest, now)
  {
    SequencedSticky(a, b, record => Prepare(record, idKey, toDocument, digest, now));
  }

  /** A successful loop's updates are the records' own, in order. */
  lemma PrepareAllOk<T>(records: seq<T>, idKey: string, toDocument: T -> Result<Doc, string>,
                        digest: T -> Numerals.U64, now: int)
    requires PrepareAll(records, idKey, toDocument, digest, now).Ok?
    ensures forall i :: 0 <= i < |records| ==>
      Prepare(records[i], idKey, toDocument, digest, now) == Ok(PrepareAll(records, idKey, toDocument, digest, now).value[i])
  {
    SequencedOk(records, record => Prepare(record, idKey, toDocument, digest, now));
  }

  /**
   * A failed loop reports the error of the first record that fails to
   * prepare; its index is returned.
   */
  lemma PrepareAllFirstError<T>(records: seq<T>, idKey: string, toDocument: T -> Result<Doc, string>,
                                digest: T -> Numerals.U64, now: int)
    returns (first: nat)
    requires PrepareAll(records, idKey, toDocument, digest, now).Err?
    ensures first < |records|
    ensures Prepare(records[first], idKey, toDocument, digest, now) == Err(PrepareAll(records, idKey, toDocument, digest, now).error)
    ensures forall i :: 0 <= i < first ==> Prepare(records[i], idKey, toDocument, digest, now).Ok?
  {
    first := SequencedFirstError(records, record => Prepare(record, idKey, toDocument, digest, now));
  }

  /** A successful loop yields updates whose id is their document's id-key field. */
  lemma PreparedAreKeyed<T>(records: seq<T>, idKey: string, toDocument: T -> Result<Doc, string>,
                            digest: T -> Numerals.U64, now: int)
    requires PrepareAll(records, idKey, toDocument, digest, now).Ok?
    ensures UpdatesKeyed(PrepareAll(records, idKey, toDocument, digest, now).value, idKey)
  {
    PrepareAllOk(records, idKey, toDocument, digest, now);
    var us := PrepareAll(records, idKey, toDocument, digest, now).value;
    forall i | 0 <= i < |us| ensures idKey in us[i].1 && us[i].1[idKey] == us[i].0 {
      assert Prepare(records[i], idKey, toDocument, digest, now) == Ok(us[i]);
    }
  }

  /** The `for document in documents` loop; a `?` returns before any write. */
  method PrepareUpdates<T>(records: seq<T>, idKey: string, toDocument: T -> Result<Doc, string>,
                           digest: T -> Numerals.U64, now: int)
    returns (r: Result<seq<Update>, string>)
    ensures r == PrepareAll(records, idKey, toDocument, digest, now)
  {
    var futures: seq<Update> := [];
    var i := 0;
    while i < |records|
      invariant 0 <= i <= |records|
      invariant PrepareAll(records[..i], idKey, toDocument, digest, now) == Ok(futures)
    {
      assert records[..i + 1][..i] == records[..i];
      var u := Prepare(records[i], idKey, toDocument, digest, now);
      if u.Err? {
        assert records[..i + 1] <= records;
        PrepareAllSticky(records[..i + 1], records, idKey, toDocument, digest, now);
        return Err(u.error);
      }
      futures := futures + [u.value];
      i := i + 1;
    }
    assert records[..i] == records;
    return Ok(futures);
  }

  /** `find_one_and_update` with `$set` and `upsert(true)` on a store keyed by id. */
  function Upsert(docs: map<Bson, Doc>, u: Update): (store: map<Bson, Doc>)
  {
    docs[u.0 := if u.0 in docs then docs[u.0] + u.1 else u.1]
  }

  /** Every update, in order, all of them accepted. */
  function ApplyAll(docs: map<Bson, Doc>, us: seq<Update>): map<Bson, Doc>
    decreases |us|
  {
    if |us| == 0 then docs else Upsert(ApplyAll(docs, us[..|us| - 1]), us[|us| - 1])
  }

  /**
   * The writes in order, each first put to the database, which may refuse it
   * (a unique index, the network); the first refusal ends the run with its
   * error and the writes before it stay.
   */
  function WriteAll(docs: map<Bson, Doc>, us: seq<Update>,
                    driver: (map<Bson, Doc>, Update) -> Result<(), string>): (Result<(), string>, map<Bson, Doc>)
    decreases |us|
  {
    if |us| == 0 then (Ok(()), docs)
    else
      var (r, store) := WriteAll(docs, us[..|us| - 1], driver);
      if r.Err? then (r, store)
      else match driver(store, us[|us| - 1])
        case Err(e) => (Err(e), store)
        case Ok(_) => (Ok(()), Upsert(store, us[|us| - 1]))
  }

  /** Every update's id is its document's id-key field. */
  ghost predicate UpdatesKeyed(us: seq<Update>, idKey: string)
  {
    forall i :: 0 <= i < |us| ==> idKey in us[i].1 && us[i].1[idKey] == us[i].0
  }

  /** Every stored document's id-key field is the id it is stored under. */
  ghost predicate Keyed(docs: map<Bson, Doc>, idKey: string)
  {
    forall id :: id in docs ==> idKey in docs[id] && docs[id][idKey] == id
  }

  /** Right-biased union of documents, in order. */
  function Union(ds: seq<Doc>): Doc
    decreases |ds|
  {
    if |ds| == 0 then map[] else Union(ds[..|ds| - 1]) + ds[|ds| - 1]
  }

  /** The `$set` documents of the updates addressed to `id`, in order. */
  function ForId(us: seq<Update>, id: Bson): seq<Doc>
    decreases |us|
  {
    if |us| == 0 then []
    else ForId(us[..|us| - 1], id) + (if us[|us| - 1].0 == id then [us[|us| - 1].1] else [])
  }

  function Base(docs: map<Bson, Doc>, id: Bson): Doc
  {
    if id in docs then docs[id] else map[]
  }

  lemma UnionAssoc(a: Doc, b: Doc, c: Doc)
    ensures (a + b) + c == a + (b + c)
  {
  }

  lemma UnionAbsorbs(a: Doc, b: Doc)
    ensures (a + b) + b == a + b
  {
  }

  /**
   * After the updates, an id is stored exactly when it was before or some
   * update names it, and its document is the old one overlaid with every
   * `$set` addressed to it, in order.
   */
  lemma {:induction false} ApplyAllAt(docs: map<Bson, Doc>, us: seq<Update>, id: Bson)
    ensures id in ApplyAll(docs, us) <==> id in docs || ForId(us, id) != []
    ensures id in ApplyAll(docs, us) ==> ApplyAll(docs, us)[id] == Base(docs, id) + Union(ForId(us, id))
    decreases |us|
  {
    if |us| == 0 {
      if id in docs {
        assert docs[id] + map[] == docs[id];
      }
    } else {
      var n := |us| - 1;
      ApplyAllAt(docs, us[..n], id);
      UpsertAt(docs, ApplyAll(docs, us[..n]), us[n], id, ForId(us[..n], id));
    }
  }

  /** One upsert keeps the overlay description of `id`'s document. */
  lemma UpsertAt(docs: map<Bson, Doc>, before: map<Bson, Doc>, u: Update, id: Bson, sets: seq<Doc>)
    requires id in before <==> id in docs || sets != []
    requires id in before ==> before[id] == Base(docs, id) + Union(sets)
    ensures var after := sets + (if u.0 == id then [u.1] else []);
      && (id in Upsert(before, u) <==> id in docs || after != [])
      && (id in Upsert(before, u) ==> Upsert(before, u)[id] == Base(docs, id) + Union(after))
  {
    if u.0 == id {
      var after := sets + [u.1];
      assert after[..|after| - 1] == sets;
      assert Union(after) == Union(sets) + u.1;
      if id in before {
        UnionAssoc(Base(docs, id), Union(sets), u.1);
      } else {
        assert Base(docs, id) == map[] && sets == [];
        assert map[] + (map[] + u.1) == u.1;
      }
    } else {
      assert sets + [] == sets;
    }
  }

  /** The stored ids after the updates: the old ones and every updated one. */
  lemma ApplyAllKeys(docs: map<Bson, Doc>, us: seq<Update>)
    ensures ApplyAll(docs, us).Keys == docs.Keys + set i | 0 <= i < |us| :: us[i].0
  {
    var ids := set i | 0 <= i < |us| :: us[i].0;
    forall id ensures id in ApplyAll(docs, us) <==> id in docs || id in ids {
      ApplyAllAt(docs, us, id);
      ForIdNames(us, id);
    }
  }

  /** Some update names `id` exactly when `ForId` is not empty. */
  lemma {:induction false} ForIdNames(us: seq<Update>, id: Bson)
    ensures ForId(us, id) != [] <==> exists i :: 0 <= i < |us| && us[i].0 == id
    decreases |us|
  {
    if |us| > 0 {
      var n := |us| - 1;
      ForIdNames(us[..n], id);
      if exists i :: 0 <= i < n && us[..n][i].0 == id {
        var i :| 0 <= i < n && us[..n][i].0 == id;
        assert us[i].0 == id;
      }
      if exists i :: 0 <= i < |us| && us[i].0 == id {
        var i :| 0 <= i < |us| && us[i].0 == id;
        if i < n {
          assert us[..n][i].0 == id;
        }
      }
    }
  }

  /** Upserting the same documents a second time changes nothing. */
  lemma UpsertIdempotent(docs: map<Bson, Doc>, us: seq<Update>)
    ensures ApplyAll(ApplyAll(docs, us), us) == ApplyAll(docs, us)
  {
    var once := ApplyAll(docs, us);
    var twice := ApplyAll(once, us);
    forall id ensures id in twice <==> id in once {
      ApplyAllAt(once, us, id);
      ApplyAllAt(docs, us, id);
    }
    forall id | id in once ensures twice[id] == once[id] {
      ApplyAllAt(once, us, id);
      ApplyAllAt(docs, us, id);
      UnionAbsorbs(Base(docs, id), Union(ForId(us, id)));
    }
  }

  /** The updates stamped again with another clock reading. */
  function Restamp(us: seq<Update>, now: int): (rs: seq<Update>)
    ensures |rs| == |us|
    ensures forall i :: 0 <= i < |us| ==> rs[i] == (us[i].0, us[i].1["modified" := BDate(now)])
  {
    seq(|us|, i requires 0 <= i < |us| => (us[i].0, us[i].1["modified" := BDate(now)]))
  }

  /** Stamping at another time differs only in `modified`. */
  lemma StampedAtAnotherTime(fields: Doc, now1: int, now2: int, hash: string)
    ensures Stamped(fields, now2, hash) == Stamped(fields, now1, hash)["modified" := BDate(now2)]
  {
    var a := Stamped(fields, now2, hash);
    var b := Stamped(fields, now1, hash)["modified" := BDate(now2)];
    assert a.Keys == b.Keys;
    forall k | k in a ensures a[k] == b[k] { }
  }

  /**
   * Preparing one record at another time differs only in `modified`, and in
   * the filter id when the id key is `modified` itself.
   */
  lemma PrepareAtAnotherTime<T>(record: T, idKey: string, toDocument: T -> Result<Doc, string>,
                                digest: T -> Numerals.U64, now1: int, now2: int)
    ensures Prepare(record, idKey, toDocument, digest, now2).Ok? == Prepare(record, idKey, toDocument, digest, now1).Ok?
    ensures Prepare(record, idKey, toDocument, digest, now1).Ok? ==>
      var u := Prepare(record, idKey, toDocument, digest, now1).value;
      Prepare(record, idKey, toDocument, digest, now2).value ==
        (if idKey == "modified" then BDate(now2) else u.0, u.1["modified" := BDate(now2)])
  {
    if toDocument(record).Ok? {
      StampedAtAnotherTime(toDocument(record).value, now1, now2, HashDocument(record, digest));
    }
  }

  /** Preparing the same records at another time differs only in `modified`. */
  lemma PrepareAllAtAnotherTime<T>(records: seq<T>, idKey: string, toDocument: T -> Result<Doc, string>,
                                   digest: T -> Numerals.U64, now1: int, now2: int)
    requires idKey != "modified"
    requires PrepareAll(records, idKey, toDocument, digest, now1).Ok?
    ensures PrepareAll(records, idKey, toDocument, digest, now2) ==
            Ok(Restamp(PrepareAll(records, idKey, toDocument, digest, now1).value, now2))
  {
    var first := PrepareAll(records, idKey, toDocument, digest, now1).value;
    PrepareAllOk(records, idKey, toDocument, digest, now1);
    if PrepareAll(records, idKey, toDocument, digest, now2).Err? {
      var k := PrepareAllFirstError(records, idKey, toDocument, digest, now2);
      PrepareAtAnotherTime(records[k], idKey, toDocument, digest, now1, now2);
      assert false;
    }
    var second := PrepareAll(records, idKey, toDocument, digest, now2).value;
    PrepareAllOk(records, idKey, toDocument, digest, now2);
    forall i | 0 <= i < |records| ensures second[i] == Restamp(first, now2)[i] {
      PrepareAtAnotherTime(records[i], idKey, toDocument, digest, now1, now2);
    }
    assert second == Restamp(first, now2);
  }

  /**
   * The `$set` documents for `id` of the restamped updates: there are some
   * exactly when there were, and their overlay is the old one with the new
   * `modified`.
   */
  lemma {:induction false} ForIdRestamp(us: seq<Update>, id: Bson, now: int)
    ensures ForId(Restamp(us, now), id) == [] <==> ForId(us, id) == []
    ensures ForId(us, id) != [] ==>
      Union(ForId(Restamp(us, now), id)) == Union(ForId(us, id))["modified" := BDate(now)]
    decreases |us|
  {
    if |us| > 0 {
      var n := |us| - 1;
      assert Restamp(us, now)[..n] == Restamp(us[..n], now);
      ForIdRestamp(us[..n], id, now);
      var a := ForId(us[..n], id);
      var b := ForId(Restamp(us[..n], now), id);
      if us[n].0 == id {
        var d := us[n].1;
        assert ForId(us, id) == a + [d];
        assert ForId(Restamp(us, now), id) == b + [d["modified" := BDate(now)]];
        UnionSnoc(a, d);
        UnionSnoc(b, d["modified" := BDate(now)]);
        if a != [] {
          OverlayBothRestamped(Union(a), d, now);
        }
      } else {
        assert ForId(us, id) == a + [] == a;
        assert ForId(Restamp(us, now), id) == b + [] == b;
      }
    }
  }

  lemma UnionSnoc(ds: seq<Doc>, d: Doc)
    ensures Union(ds + [d]) == Union(ds) + d
    ensures ds == [] ==> Union(ds + [d]) == d
  {
    assert (ds + [d])[..|ds|] == ds;
  }

  lemma OverlayBothRestamped(u: Doc, d: Doc, now: int)
    ensures u["modified" := BDate(now)] + d["modified" := BDate(now)] == (u + d)["modified" := BDate(now)]
  {
  }

  /** Overlaying a document with a restamped copy of its last `$set` only moves `modified`. */
  lemma OverlayRestamped(base: Doc, sets: Doc, now: int)
    ensures (base + sets) + sets["modified" := BDate(now)] == (base + sets)["modified" := BDate(now)]
  {
  }

  /**
   * Upserting the same records a second time, at a later clock reading:
   * the same ids are stored, every document keeps its fields and their
   * values (its `hash` among them), and only `modified` of the documents
   * the records address becomes the second reading. (With the id key
   * `modified` itself, the filter id is the clock reading, so each call
   * files fresh documents instead.)
   */
  lemma UpsertAgainOnlyRestamps<T>(docs: map<Bson, Doc>, records: seq<T>, idKey: string,
                                   toDocument: T -> Result<Doc, string>, digest: T -> Numerals.U64,
                                   now1: int, now2: int)
    requires idKey != "modified"
    requires PrepareAll(records, idKey, toDocument, digest, now1).Ok?
    ensures PrepareAll(records, idKey, toDocument, digest, now2).Ok?
    ensures var first := PrepareAll(records, idKey, toDocument, digest, now1).value;
      var once := ApplyAll(docs, first);
      var twice := ApplyAll(once, PrepareAll(records, idKey, toDocument, digest, now2).value);
      && twice.Keys == once.Keys
      && (forall i :: 0 <= i < |first| ==> first[i].0 in once && twice[first[i].0] == once[first[i].0]["modified" := BDate(now2)])
      && (forall id :: id in once && (forall i :: 0 <= i < |first| ==> first[i].0 != id) ==> twice[id] == once[id])
  {
    var first := PrepareAll(records, idKey, toDocument, digest, now1).value;
    PrepareAllAtAnotherTime(records, idKey, toDocument, digest, now1, now2);
    var second := Restamp(first, now2);
    var once := ApplyAll(docs, first);
    var twice := ApplyAll(once, second);
    forall id ensures (id in twice <==> id in once)
      && (id in once && ForId(first, id) != [] ==> twice[id] == once[id]["modified" := BDate(now2)])
      && (id in once && ForId(first, id) == [] ==> twice[id] == once[id])
    {
      ApplyAllAt(docs, first, id);
      ApplyAllAt(once, second, id);
      ForIdRestamp(first, id, now2);
      if id in once && ForId(first, id) != [] {
        OverlayRestamped(Base(docs, id), Union(ForId(first, id)), now2);
      }
      if id in once && ForId(first, id) == [] {
        assert once[id] + map[] == once[id];
      }
    }
    forall i | 0 <= i < |first| ensures first[i].0 in once && twice[first[i].0] == once[first[i].0]["modified" := BDate(now2)] {
      ForIdNames(first, first[i].0);
      ApplyAllAt(docs, first, first[i].0);
    }
    forall id | id in once && (forall i :: 0 <= i < |first| ==> first[i].0 != id) ensures twice[id] == once[id] {
      ForIdNames(first, id);
    }
  }

  /** Updates keyed on their id keep every stored document keyed on its id. */
  lemma {:induction false} ApplyAllKeyed(docs: map<Bson, Doc>, us: seq<Update>, idKey: string)
    requires Keyed(docs, idKey) && UpdatesKeyed(us, idKey)
    ensures Keyed(ApplyAll(docs, us), idKey)
    decreases |us|
  {
    if |us| > 0 {
      var n := |us| - 1;
      assert UpdatesKeyed(us[..n], idKey) by {
        forall i | 0 <= i < n ensures idKey in us[..n][i].1 && us[..n][i].1[idKey] == us[..n][i].0 {
          assert us[..n][i] == us[i];
        }
      }
      ApplyAllKeyed(docs, us[..n], idKey);
    }
  }

  /** What a run of writes leaves behind is the updates of some prefix, all of them on success. */
  lemma {:induction false} WriteAllPrefix(docs: map<Bson, Doc>, us: seq<Update>,
                                          driver: (map<Bson, Doc>, Update) -> Result<(), string>)
    returns (k: nat)
    ensures k <= |us|
    ensures WriteAll(docs, us, driver).1 == ApplyAll(docs, us[..k])
    ensures WriteAll(docs, us, driver).0.Ok? ==> k == |us|
    decreases |us|
  {
    if |us| == 0 {
      k := 0;
      assert us[..0] == us;
    } else {
      var n := |us| - 1;
      k := WriteAllPrefix(docs, us[..n], driver);
      assert us[..n][..k] == us[..k];
      var (r, store) := WriteAll(docs, us[..n], driver);
      if r.Ok? && driver(store, us[n]).Ok? {
        k := |us|;
        assert us[..k][..n] == us[..n];
      }
    }
  }

  /** A database that refuses nothing. */
  ghost predicate AcceptsAll(driver: (map<Bson, Doc>, Update) -> Result<(), string>)
  {
    forall store, u :: driver(store, u).Ok?
  }

  /** When no write is refused, the run applies every update and succeeds. */
  lemma {:induction false} WriteAllAccepted(docs: map<Bson, Doc>, us: seq<Update>,
                                            driver: (map<Bson, Doc>, Update) -> Result<(), string>)
    requires AcceptsAll(driver)
    ensures WriteAll(docs, us, driver) == (Ok(()), ApplyAll(docs, us))
    decreases |us|
  {
    if |us| > 0 {
      WriteAllAccepted(docs, us[..|us| - 1], driver);
    }
  }

  /** One collection whose documents are addressed by `idKey`. */
  class Collection {
    const name: string
    const idKey: string
    var docs: map<Bson, Doc>

    ghost predicate Valid()
      reads this
    {
      Keyed(docs, idKey)
    }

    constructor (name: string, idKey: string)
      ensures this.name == name && this.idKey == idKey && docs == map[]
      ensures Valid()
    {
      this.name := name;
      this.idKey := idKey;
      docs := map[];
    }

    /**
     * `upsert_documents(collection, documents, id_key)`: a record that does
     * not serialise or has no id key fails the call before any write; then
     * the writes run in order and any refused write fails the call.
     */
    method UpsertDocuments<T>(records: seq<T>, toDocument: T -> Result<Doc, string>,
                              digest: T -> Numerals.U64, now: int,
                              driver: (map<Bson, Doc>, Update) -> Result<(), string>)
      returns (r: Result<(), string>)
      requires Valid()
      modifies this
      ensures Valid()
      ensures PrepareAll(records, idKey, toDocument, digest, now).Err? ==>
        r == Err(PrepareAll(records, idKey, toDocument, digest, now).error) && docs == old(docs)
      ensures PrepareAll(records, idKey, toDocument, digest, now).Ok? ==>
        (r, docs) == WriteAll(old(docs), PrepareAll(records, idKey, toDocument, digest, now).value, driver)
    {
      var prepared := PrepareUpdates(records, idKey, toDocument, digest, now);
      if prepared.Err? {
        return Err(prepared.error);
      }
      var futures := prepared.value;
      PreparedAreKeyed(records, idKey, toDocument, digest, now);
      var i := 0;
      while i < |futures|
        invariant 0 <= i <= |futures|
        invariant WriteAll(old(docs), futures[..i], driver) == (Ok(()), docs)
      {
        assert futures[..i + 1][..i] == futures[..i];
        var outcome := driver(docs, futures[i]);
        if outcome.Err? {
          r := Err(outcome.error);
          WriteAllFrom(old(docs), futures, i + 1, driver);
          assert (r, docs) == WriteAll(old(docs), futures, driver);
          KeyedAfterWrites(old(docs), futures, idKey, driver);
          return;
        }
        docs := Upsert(docs, futures[i]);
        i := i + 1;
      }
      assert futures[..i] == futures;
      r := Ok(());
      KeyedAfterWrites(old(docs), futures, idKey, driver);
    }
  }

  /** A refused prefix is the outcome of the whole run. */
  lemma {:induction false} WriteAllFrom(docs: map<Bson, Doc>, us: seq<Update>, i: nat,
                                        driver: (map<Bson, Doc>, Update) -> Result<(), string>)
    requires i <= |us|
    requires WriteAll(docs, us[..i], driver).0.Err?
    ensures WriteAll(docs, us, driver) == WriteAll(docs, us[..i], driver)
    decreases |us|
  {
    if i < |us| {
      var n := |us| - 1;
      assert us[..n][..i] == us[..i];
      WriteAllFrom(docs, us[..n], i, driver);
    } else {
      assert us[..i] == us;
    }
  }

  /** Whatever part of a keyed run was written, the store stays keyed. */
  lemma KeyedAfterWrites(docs: map<Bson, Doc>, us: seq<Update>, idKey: string,
                         driver: (map<Bson, Doc>, Update) -> Result<(), string>)
    requires Keyed(docs, idKey) && UpdatesKeyed(us, idKey)
    ensures Keyed(WriteAll(docs, us, driver).1, idKey)
  {
    var k := WriteAllPrefix(docs, us, driver);
    assert UpdatesKeyed(us[..k], idKey) by {
      forall i | 0 <= i < k ensures idKey in us[..k][i].1 && us[..k][i].1[idKey] == us[..k][i].0 {
        assert us[..k][i] == us[i];
      }
    }
    ApplyAllKeyed(docs, us[..k], idKey);
  }

  /** The record of the upsert test: the id `test` and one other field. */
  datatype TestRecord = TestRecord(test: string, extra: int)

  function TestDocument(t: TestRecord): Result<Doc, string>
  {
    Ok(map["test" := BStr(t.test), "extra" := BInt(t.extra)])
  }

  /** Upserting one test record into a store holding at most its own id. */
  lemma UpsertOneTest(stored: map<Bson, Doc>, rec: TestRecord, digest: TestRecord -> Numerals.U64, now: int,
                      driver: (map<Bson, Doc>, Update) -> Result<(), string>)
    requires AcceptsAll(driver)
    requires stored.Keys <= {BStr(rec.test)}
    ensures PrepareAll([rec], "test", TestDocument, digest, now).Ok?
    ensures WriteAll(stored, PrepareAll([rec], "test", TestDocument, digest, now).value, driver).0 == Ok(())
    ensures WriteAll(stored, PrepareAll([rec], "test", TestDocument, digest, now).value, driver).1.Keys == {BStr(rec.test)}
    ensures WriteAll(stored, PrepareAll([rec], "test", TestDocument, digest, now).value, driver).1[BStr(rec.test)]["extra"] == BInt(rec.extra)
  {
    var u := Prepare(rec, "test", TestDocument, digest, now);
    assert "test" in TestDocument(rec).value;
    assert u.Ok? && u.value.0 == BStr(rec.test);
    SequencedOne(rec, record => Prepare(record, "test", TestDocument, digest, now));
    WriteAllAccepted(stored, [u.value], driver);
    assert [u.value][..0] == [];
    assert ApplyAll(stored, [u.value]) == Upsert(stored, u.value);
  }

  /**
   * The upsert test: into an empty collection keyed on `test`, upsert one
   * record with `extra` 21, then one with the same id and `extra` 42. Each
   * call succeeds and one document is stored, carrying the latest `extra`.
   */
  method UpsertTwiceExample(digest: TestRecord -> Numerals.U64, now1: int, now2: int,
                            driver: (map<Bson, Doc>, Update) -> Result<(), string>)
    returns (result1: Result<(), string>, count1: nat, extra1: Bson,
             result2: Result<(), string>, count2: nat, extra2: Bson)
    requires AcceptsAll(driver)
    ensures result1 == Ok(()) && count1 == 1 && extra1 == BInt(21)
    ensures result2 == Ok(()) && count2 == 1 && extra2 == BInt(42)
  {
    var collection := new Collection("test", "test");
    var id := BStr("test");
    UpsertOneTest(map[], TestRecord("test", 21), digest, now1, driver);
    result1 := collection.UpsertDocuments([TestRecord("test", 21)], TestDocument, digest, now1, driver);
    count1 := |collection.docs|;
    extra1 := collection.docs[id]["extra"];
    UpsertOneTest(collection.docs, TestRecord("test", 42), digest, now2, driver);
    result2 := collection.UpsertDocuments([TestRecord("test", 42)], TestDocument, digest, now2, driver);
    count2 := |collection.docs|;
    extra2 := collection.docs[id]["extra"];
  }
}
