/** The configuration files the bootstrap code reads and writes, as loaded documents. */
module Files {
  import opened JsonTree

  /**
   * The file system under the Traefik directories: each existing file with
   * its loaded document, and the files whose mode was set to 0600.
   */
  class FileStore {
    var files: map<string, Json>
    var restricted: set<string>

    constructor (initial: map<string, Json>)
      ensures files == initial && restricted == {}
    {
      files := initial;
      restricted := {};
    }

    /** `existsSync(path)`. */
    predicate Exists(path: string)
      reads this
    {
      path in files
    }

    /** `writeFileSync(path, dump(doc))`: a whole-file rewrite. */
    method Write(path: string, doc: Json)
      modifies this
      ensures files == old(files)[path := doc]
      ensures restricted == old(restricted)
    {
      files := files[path := doc];
    }

    /** `chmodSync(path, "600")` on an existing file. */
    method Chmod600(path: string)
      requires path in files
      modifies this
      ensures files == old(files)
      ensures restricted == old(restricted) + {path}
    {
      restricted := restricted + {path};
    }
  }

  /** The file map after a guarded write: an existing file is never overwritten. */
  function WriteOnce(files: map<string, Json>, path: string, doc: Json): (r: map<string, Json>)
    ensures path in r
    ensures path in files ==> r == files
    ensures path !in files ==> r[path] == doc && r.Keys == files.Keys + {path}
    ensures forall p :: p in files ==> p in r && r[p] == files[p]
  {
    if path in files then files else files[path := doc]
  }

  /** A second guarded write to the same path changes nothing, whatever it would write. */
  lemma WriteOnceIdempotent(files: map<string, Json>, path: string, doc: Json, doc': Json)
    ensures WriteOnce(WriteOnce(files, path, doc), path, doc') == WriteOnce(files, path, doc)
  {
  }
}
