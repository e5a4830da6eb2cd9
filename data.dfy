/** The key-value persistence layer (lib/data) that the handlers and the
    workers call. Its source is not part of this model; it is modelled as one
    JSON document per (collection, id) with create, read, update and delete,
    each write able to fail for reasons outside the model (`fails`). */
module Data {
  import opened Js

  /** The documents of one collection, by id. */
  type Collection = map<string, JsValue>

  type Database = map<string, Collection>

  function Docs(db: Database, dir: string): Collection {
    if dir in db then db[dir] else map[]
  }

  function Lookup(db: Database, dir: string, id: string): Option<JsValue> {
    if id in Docs(db, dir) then Some(Docs(db, dir)[id]) else None
  }

  /** `create` fails when the document exists already. */
  predicate CreateFails(db: Database, dir: string, id: string, fails: bool) {
    fails || id in Docs(db, dir)
  }

  /** `update` and `delete` fail when the document does not exist. */
  predicate ChangeFails(db: Database, dir: string, id: string, fails: bool) {
    fails || id !in Docs(db, dir)
  }

  function Put(db: Database, dir: string, id: string, value: JsValue): (r: Database)
    ensures forall d :: d != dir ==> Docs(r, d) == Docs(db, d)
    ensures Docs(r, dir) == Docs(db, dir)[id := value]
  {
    db[dir := Docs(db, dir)[id := value]]
  }

  function Remove(db: Database, dir: string, id: string): (r: Database)
    ensures forall d :: d != dir ==> Docs(r, d) == Docs(db, d)
    ensures Docs(r, dir) == Docs(db, dir) - {id}
  {
    db[dir := Docs(db, dir) - {id}]
  }

  /** The database after `create`. */
  function Created(db: Database, dir: string, id: string, value: JsValue, fails: bool): Database {
    if CreateFails(db, dir, id, fails) then db else Put(db, dir, id, value)
  }

  /** The database after `update`. */
  function Updated(db: Database, dir: string, id: string, value: JsValue, fails: bool): Database {
    if ChangeFails(db, dir, id, fails) then db else Put(db, dir, id, value)
  }

  /** The database after `delete`. */
  function Deleted(db: Database, dir: string, id: string, fails: bool): Database {
    if ChangeFails(db, dir, id, fails) then db else Remove(db, dir, id)
  }

  /** An update never adds or removes a document: the ids of every
      collection stay as they were. */
  lemma UpdateKeepsIds(db: Database, dir: string, id: string, value: JsValue, fails: bool)
    ensures forall d :: Docs(Updated(db, dir, id, value, fails), d).Keys == Docs(db, d).Keys
  {
  }

  /** `ids` names every document of the collection, each once. */
  ghost predicate IsIdListing(ids: seq<string>, c: Collection) {
    && (forall id :: id in ids <==> id in c)
    && (forall i, j :: 0 <= i < j < |ids| ==> ids[i] != ids[j])
  }

  class Store {
    var db: Database

    constructor (initial: Database)
      ensures db == initial
    {
      db := initial;
    }

    method Read(dir: string, id: string) returns (doc: Option<JsValue>)
      ensures doc == Lookup(db, dir, id)
    {
      doc := Lookup(db, dir, id);
    }

    /** `list`: the ids of a collection's documents, each once, in no
        particular order. */
    method List(dir: string, fails: bool) returns (failed: bool, ids: seq<string>)
      ensures failed == fails
      ensures !failed ==> forall id :: id in ids <==> id in Docs(db, dir)
      ensures forall i, j :: 0 <= i < j < |ids| ==> ids[i] != ids[j]
    {
      failed := fails;
      ids := [];
      if fails {
        return;
      }
      var rest := Docs(db, dir).Keys;
      while rest != {}
        invariant forall id :: id in Docs(db, dir) <==> id in ids || id in rest
        invariant forall id :: id in ids ==> id !in rest
        invariant forall i, j :: 0 <= i < j < |ids| ==> ids[i] != ids[j]
        decreases |rest|
      {
        var id :| id in rest;
        ids := ids + [id];
        rest := rest - {id};
      }
    }

    method Create(dir: string, id: string, value: JsValue, fails: bool) returns (failed: bool)
      modifies this
      ensures failed == CreateFails(old(db), dir, id, fails)
      ensures db == Created(old(db), dir, id, value, fails)
    {
      failed := CreateFails(db, dir, id, fails);
      if !failed {
        db := Put(db, dir, id, value);
      }
    }

    method Update(dir: string, id: string, value: JsValue, fails: bool) returns (failed: bool)
      modifies this
      ensures failed == ChangeFails(old(db), dir, id, fails)
      ensures db == Updated(old(db), dir, id, value, fails)
    {
      failed := ChangeFails(db, dir, id, fails);
      if !failed {
        db := Put(db, dir, id, value);
      }
    }

    method Delete(dir: string, id: string, fails: bool) returns (failed: bool)
      modifies this
      ensures failed == ChangeFails(old(db), dir, id, fails)
      ensures db == Deleted(old(db), dir, id, fails)
    {
      failed := ChangeFails(db, dir, id, fails);
      if !failed {
        db := Remove(db, dir, id);
      }
    }
  }
}
