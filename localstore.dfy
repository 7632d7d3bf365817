/** The local-directory file store (`local.FileStore`). The directory on
    disk is a map from full path to contents; entries are addressed by
    `filepath.Join(BasePath, key)`, which is kept uninterpreted as the
    store's `join` function, so two keys that join to the same path share
    one entry exactly as they share one file. */
module LocalStore {
  import opened Values
  import opened Store

  /** The contents of the file system below the base path: path -> bytes. */
  type Directory = map<string, Bytes>

  /** `os.Stat` then `os.ReadFile`: the contents, or not-found. */
  function Lookup(dir: Directory, path: string): Result<Bytes, StoreError>
  {
    if path in dir then Ok(dir[path]) else Err(FileNotFound)
  }

  /** `os.Stat` then `os.Remove`: the directory afterwards and the error. */
  function Unlink(dir: Directory, path: string): (Directory, Result<(), StoreError>)
  {
    if path in dir then (dir - {path}, Ok(())) else (dir, Err(FileNotFound))
  }

  /** The answers a local store over `dir` gives through the interface. */
  function ViewOf(dir: Directory, basePath: string, join: (string, string) -> string): StoreView
  {
    StoreView(
      key => Lookup(dir, join(basePath, key)),
      key => Unlink(dir, join(basePath, key)).1)
  }

  class FileStore {
    /** `cfg.BasePath`. */
    const basePath: string
    /** `filepath.Join`, left uninterpreted. */
    const join: (string, string) -> string
    /** The files below the base path. */
    var dir: Directory

    /** `local.New` once the base directory exists; `existing` is whatever
        the directory already held. */
    constructor (basePath: string, join: (string, string) -> string, existing: Directory)
      ensures this.basePath == basePath && this.join == join
      ensures dir == existing
    {
      this.basePath := basePath;
      this.join := join;
      dir := existing;
    }

    /** The path a key is stored under. */
    function PathOf(key: string): string
    {
      join(basePath, key)
    }

    /** `PutObject`: writes (or overwrites) the file for `key`. */
    method PutObject(contents: Bytes, key: string)
      modifies this
      ensures dir == old(dir)[PathOf(key) := contents]
    {
      dir := dir[PathOf(key) := contents];
    }

    /** `GetObject`: the stored bytes, or `ErrorFileNotFound`. */
    method GetObject(key: string) returns (r: Result<Bytes, StoreError>)
      ensures r.Ok? <==> PathOf(key) in dir
      ensures r.Ok? ==> r.value == dir[PathOf(key)]
      ensures r.Err? ==> r.error == FileNotFound
    {
      var path := PathOf(key);
      if path !in dir {
        return Err(FileNotFound);
      }
      r := Ok(dir[path]);
    }

    /** `DeleteObject`: removes the file for `key`, or `ErrorFileNotFound`. */
    method DeleteObject(key: string) returns (r: Result<(), StoreError>)
      modifies this
      ensures (dir, r) == Unlink(old(dir), PathOf(key))
      ensures r.Ok? <==> PathOf(key) in old(dir)
      ensures r.Err? ==> r.error == FileNotFound && dir == old(dir)
      ensures r.Ok? ==> dir == old(dir) - {PathOf(key)}
    {
      var path := PathOf(key);
      if path !in dir {
        return Err(FileNotFound);
      }
      dir := dir - {path};
      r := Ok(());
    }

    /** `BasePath`: the configured base path, unchanged. */
    function BasePath(): (p: string)
      ensures p == basePath
    {
      basePath
    }
  }

  /** After `PutObject(b, k)`, `GetObject(k)` returns `b` byte for byte. */
  lemma PutThenGet(dir: Directory, path: string, b: Bytes)
    ensures Lookup(dir[path := b], path) == Ok(b)
  {
  }

  /** `PutObject` leaves every other path as it was. */
  lemma PutKeepsOthers(dir: Directory, path: string, other: string, b: Bytes)
    requires other != path
    ensures Lookup(dir[path := b], other) == Lookup(dir, other)
  {
  }

  /** After a successful delete the path is gone, other paths are kept, and a
      lookup reports not-found. */
  lemma DeleteThenGet(dir: Directory, path: string, other: string)
    requires Unlink(dir, path).1.Ok?
    requires other != path
    ensures path !in Unlink(dir, path).0
    ensures Lookup(Unlink(dir, path).0, path) == Err(FileNotFound)
    ensures Lookup(Unlink(dir, path).0, other) == Lookup(dir, other)
  {
  }

  /** Deleting the same path twice: the second delete always fails with
      not-found, whether or not the first succeeded. */
  lemma DeleteTwice(dir: Directory, path: string)
    ensures Unlink(Unlink(dir, path).0, path).1 == Err(FileNotFound)
  {
  }

  /** The scenario of the local store's own test: put, get, delete through
      the class, then a second delete. */
  method PutGetDelete(store: FileStore, b: Bytes, key: string)
    returns (got: Result<Bytes, StoreError>, first: Result<(), StoreError>, second: Result<(), StoreError>)
    modifies store
    ensures got == Ok(b)
    ensures first == Ok(())
    ensures second == Err(FileNotFound)
    ensures store.dir == old(store.dir) - {store.PathOf(key)}
  {
    store.PutObject(b, key);
    got := store.GetObject(key);
    first := store.DeleteObject(key);
    second := store.DeleteObject(key);
  }
}
