/**
 * The handlers' external collaborators, each reduced to the state it keeps
 * and the outcome of each call: the video table (`cfg.db`), the object store
 * (`cfg.s3Client`) and the local filesystem used for the temporary upload file.
 * Faults that cannot be derived from that state are given as `fault` inputs.
 */
module Store {
  import opened Outcomes
  import opened Base64

  type UUID = string
  type UserID = string

  /** A video record; `ThumbnailURL` and `VideoURL` are Go pointers that may be nil. */
  datatype Video = Video(
    id: UUID,
    userID: UserID,
    title: string,
    description: string,
    thumbnailURL: Option<string>,
    videoURL: Option<string>)

  /** Every row is filed under its own id, as in a table keyed by `id`. */
  predicate Keyed(rows: map<UUID, Video>)
  {
    forall k | k in rows :: rows[k].id == k
  }

  /** The video table, keyed by video id. */
  class Database {
    var rows: map<UUID, Video>

    constructor (initial: map<UUID, Video>)
      ensures rows == initial
    {
      rows := initial;
    }

    /** `GetVideo`: fails on a database fault or when no row has the id. */
    method GetVideo(id: UUID, fault: bool) returns (r: Result<Video>)
      ensures r.Ok? <==> !fault && id in rows
      ensures r.Ok? ==> r.value == rows[id]
    {
      if fault || id !in rows {
        r := Err("couldn't get video");
      } else {
        r := Ok(rows[id]);
      }
    }

    /** `UpdateVideo`: writes the whole record under its id unless the database faults. */
    method UpdateVideo(v: Video, fault: bool) returns (ok: bool)
      modifies this
      ensures ok == !fault
      ensures rows == if ok then old(rows)[v.id := v] else old(rows)
    {
      ok := !fault;
      if ok {
        rows := rows[v.id := v];
      }
    }
  }

  /** Where an object is stored: a bucket and a key. */
  datatype ObjectRef = ObjectRef(bucket: string, key: string)

  /** What `PutObject` stores: the `ContentType` metadata and the bytes read from `Body`. */
  datatype StoredObject = StoredObject(contentType: string, body: seq<Byte>)

  /** The object store; a put under an existing key overwrites it. */
  class ObjectStore {
    var objects: map<ObjectRef, StoredObject>

    constructor (initial: map<ObjectRef, StoredObject>)
      ensures objects == initial
    {
      objects := initial;
    }

    method PutObject(obj: ObjectRef, contentType: string, body: seq<Byte>, fault: bool) returns (ok: bool)
      modifies this
      ensures ok == !fault
      ensures objects == if ok then old(objects)[obj := StoredObject(contentType, body)] else old(objects)
    {
      ok := !fault;
      if ok {
        objects := objects[obj := StoredObject(contentType, body)];
      }
    }
  }

  /** The path `os.CreateTemp` builds from a directory, the pattern around '*', and its random part. */
  function TempPath(dir: string, prefix: string, nonce: string, suffix: string): (path: string)
    ensures |path| == |dir| + 1 + |prefix| + |nonce| + |suffix|
    ensures path[..|dir| + 1] == dir + "/"
    ensures path[|dir| + 1..|dir| + 1 + |prefix|] == prefix
    ensures path[|dir| + 1 + |prefix|..|path| - |suffix|] == nonce
    ensures path[|path| - |suffix|..] == suffix
  {
    dir + "/" + prefix + nonce + suffix
  }

  /** An open file: its path and the current read/write offset. */
  class OpenFile {
    const name: string
    var offset: nat

    constructor (name: string)
      ensures this.name == name && offset == 0
    {
      this.name := name;
      offset := 0;
    }
  }

  /** The local filesystem: file contents by path. */
  class FileSystem {
    var files: map<string, seq<Byte>>

    constructor (initial: map<string, seq<Byte>>)
      ensures files == initial
    {
      files := initial;
    }

    /**
     * `os.CreateTemp`: creates an empty file exclusively. `nonce` is the random part
     * of the name it settles on, or None when creation fails; a name already taken
     * stands for `os.CreateTemp` giving up after its retries, and also fails.
     */
    method CreateTemp(dir: string, prefix: string, suffix: string, nonce: Option<string>)
      returns (f: OpenFile?)
      modifies this
      ensures f != null <==> nonce.Some? && TempPath(dir, prefix, nonce.value, suffix) !in old(files)
      ensures f != null ==> fresh(f) && f.name == TempPath(dir, prefix, nonce.value, suffix) && f.offset == 0
      ensures files == if f != null then old(files)[f.name := []] else old(files)
    {
      if nonce.None? || TempPath(dir, prefix, nonce.value, suffix) in files {
        f := null;
      } else {
        f := new OpenFile(TempPath(dir, prefix, nonce.value, suffix));
        files := files[f.name := []];
      }
    }

    /**
     * `io.Copy` into `f` at its end; `data` is the uploaded stream, or None when
     * reading it fails (the partial write is then not modelled).
     */
    method Copy(f: OpenFile, data: Option<seq<Byte>>) returns (ok: bool)
      requires f.name in files && f.offset == |files[f.name]|
      modifies this, f
      ensures ok == data.Some?
      ensures ok ==> files == old(files)[f.name := old(files[f.name]) + data.value]
                     && f.offset == |files[f.name]|
      ensures !ok ==> files == old(files) && f.offset == old(f.offset)
    {
      ok := data.Some?;
      if ok {
        files := files[f.name := files[f.name] + data.value];
        f.offset := |files[f.name]|;
      }
    }

    /** `f.Seek(0, io.SeekStart)`, whose outcome is given. */
    method SeekStart(f: OpenFile, succeeds: bool) returns (ok: bool)
      modifies f
      ensures ok == succeeds
      ensures f.offset == if ok then 0 else old(f.offset)
    {
      ok := succeeds;
      if ok {
        f.offset := 0;
      }
    }

    /** What a reader of `f` receives: the contents from the current offset on. */
    method ReadRest(f: OpenFile) returns (body: seq<Byte>)
      requires f.name in files && f.offset <= |files[f.name]|
      ensures body == files[f.name][f.offset..]
    {
      body := files[f.name][f.offset..];
    }

    /** `os.Remove`. */
    method Remove(name: string)
      modifies this
      ensures files == old(files) - {name}
    {
      files := files - {name};
    }
  }
}
