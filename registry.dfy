/** The JSON registry of saved applications (dbGet, dbSave and dbDestroy in
    lib/ndtutil.js): one document holding the saved apps by name and two timestamps.
    The file is a field that holds the document or nothing; the clock is a parameter. */
module Registry {
  import opened Js
  import opened NdtUtil

  /** The registry document. Timestamps are instants of an abstract clock. */
  datatype Db = Db(apps: Dict<AppValue>, createdAt: int, updatedAt: int)

  /** The document dbGet writes when there is no registry yet: no apps, both
      timestamps the current instant. */
  function Fresh(now: int): (db: Db)
    ensures db.apps.keys == [] && db.apps.vals == map[]
    ensures db.createdAt == now && db.updatedAt == now
  {
    Db(EmptyDict(), now, now)
  }

  /** What dbSave writes: the document with its updatedAt stamped, nothing else changed. */
  function Stamped(db: Db, now: int): (s: Db)
    ensures s.apps == db.apps && s.createdAt == db.createdAt && s.updatedAt == now
  {
    db.(updatedAt := now)
  }

  const NoSuchFile := "ENOENT: no such file or directory"

  /** The registry file. */
  class Store {
    var file: Option<Db>

    constructor (file: Option<Db>)
      ensures this.file == file
    {
      this.file := file;
    }

    /** dbGet: creates the file only when it is absent, then reads the document back;
        an existing registry is returned untouched. */
    method Get(now: int) returns (db: Db)
      modifies this
      ensures old(file).Some? ==> file == old(file) && db == old(file).value
      ensures old(file).None? ==> file == Some(Fresh(now)) && db == Fresh(now)
    {
      if file.None? {
        file := Some(Fresh(now));
      }
      db := file.value;
    }

    /** dbSave: stamps updatedAt in the caller's document (which is why the stamped
        document is handed back) and overwrites the whole file with it. */
    method Save(db: Db, now: int) returns (saved: Db)
      modifies this
      ensures saved == Stamped(db, now)
      ensures file == Some(saved)
    {
      saved := Stamped(db, now);
      file := Some(saved);
    }

    /** dbDestroy: unlinks the file, which fails when there is none. */
    method Destroy() returns (r: Result<()>)
      modifies this
      ensures old(file).None? ==> r == Err(NoSuchFile)
      ensures old(file).Some? ==> r == Ok(())
      ensures file == None
    {
      if file.None? {
        return Err(NoSuchFile);
      }
      file := None;
      r := Ok(());
    }
  }

  /** Reading the registry twice gives the same document, and the second read writes
      nothing: a registry is created at most once. */
  method GetTwice(store: Store, first: int, second: int) returns (a: Db, b: Db)
    modifies store
    ensures a == b
    ensures store.file == Some(a)
    ensures old(store.file).Some? ==> store.file == old(store.file)
  {
    a := store.Get(first);
    b := store.Get(second);
  }

  /** After a flush the next read starts from an empty registry stamped with that read's time. */
  method FlushThenGet(store: Store, now: int) returns (flushed: Result<()>, db: Db)
    modifies store
    ensures flushed.Ok? <==> old(store.file).Some?
    ensures db == Fresh(now) && db.apps.keys == []
  {
    flushed := store.Destroy();
    db := store.Get(now);
  }
}
