/**
  The versioned workspace of a session in an S3 bucket: a commit uploads every file and a
  manifest of their versions; a checkout downloads what one manifest version lists.
 */
module Workspace {
  import opened Text
  import opened Utf8

  // ---------------------------------------------------------------- names

  datatype S3Config = S3Config(bucket: string, prefix: string)

  const SCHEME := "s3://"

  /** `split_once('/')`. */
  function SplitOnce(s: string): (string, Option<string>) {
    if s == "" then ("", None)
    else if s[0] == '/' then ("", Some(s[1..]))
    else var (a, b) := SplitOnce(s[1..]); ([s[0]] + a, b)
  }

  function FromResourceId(uri: string): Option<S3Config> {
    if !(SCHEME <= uri) then None
    else
      var (b, p) := SplitOnce(uri[|SCHEME|..]);
      Some(S3Config(b, if p.Some? then p.value else ""))
  }

  lemma {:induction false} SplitOnceAt(b: string, p: string)
    requires '/' !in b
    ensures SplitOnce(b + "/" + p) == (b, Some(p)) && SplitOnce(b) == (b, None)
  {
    if b == "" {
      assert (b + "/" + p)[1..] == p;
    } else {
      assert (b + "/" + p)[1..] == b[1..] + "/" + p;
      SplitOnceAt(b[1..], p);
      assert [b[0]] + b[1..] == b;
    }
  }

  /** Every configuration with a slash-free bucket is read back from its URI; the prefix is free. */
  lemma ResourceIdRoundTrip(c: S3Config)
    requires '/' !in c.bucket
    ensures FromResourceId(SCHEME + c.bucket + "/" + c.prefix) == Some(c)
    ensures c.prefix == "" ==> FromResourceId(SCHEME + c.bucket) == Some(c)
  {
    SplitOnceAt(c.bucket, c.prefix);
    var uri := SCHEME + c.bucket + "/" + c.prefix;
    assert uri[|SCHEME|..] == c.bucket + "/" + c.prefix && SCHEME <= uri;
    var short := SCHEME + c.bucket;
    assert short[|SCHEME|..] == c.bucket && SCHEME <= short;
  }

  function Root(c: S3Config): string { if c.prefix == "" then "agents/" else c.prefix + "/agents/" }

  function ManifestKey(c: S3Config, session: string): string { Root(c) + (session + "/" + "manifest.json") }

  function FileKey(c: S3Config, session: string, path: string): string { Root(c) + (session + "/" + ("files/" + path)) }

  /** What every key starts with; without a prefix that is `agents`. */
  lemma RootOfKeys(bucket: string)
    ensures Root(S3Config(bucket, "acme")) == "acme/agents/" && Root(S3Config(bucket, "")) == "agents/"
  {}

  /** And what follows: the session, and the manifest or the file below it. */
  lemma RestOfKeys(c: S3Config, session: string, path: string)
    ensures ManifestKey(c, session)[..|Root(c)|] == Root(c) == FileKey(c, session, path)[..|Root(c)|]
    ensures ManifestKey(c, session)[|Root(c)|..] == session + "/" + "manifest.json"
    ensures FileKey(c, session, path)[|Root(c)|..] == session + "/" + ("files/" + path)
  {}

  lemma {:induction false} FirstSegment(s: string, t: string, a: string, b: string)
    requires '/' !in s && '/' !in t && s + "/" + a == t + "/" + b
    ensures s == t && a == b
  {
    SplitOnceAt(s, a);
    SplitOnceAt(t, b);
  }

  lemma SameRoot(r: string, a: string, b: string)
    requires r + a == r + b
    ensures a == b
  {
    assert (r + a)[|r|..] == a && (r + b)[|r|..] == b;
  }

  /** Keys of different sessions, or of a manifest and a file, are different. */
  lemma KeysNeverCollide(c: S3Config, s: string, t: string, p: string, q: string)
    requires '/' !in s && '/' !in t
    ensures FileKey(c, s, p) == FileKey(c, t, q) <==> s == t && p == q
    ensures ManifestKey(c, s) == ManifestKey(c, t) <==> s == t
    ensures FileKey(c, s, p) != ManifestKey(c, t)
  {
    if FileKey(c, s, p) == FileKey(c, t, q) {
      SameRoot(Root(c), s + "/" + ("files/" + p), t + "/" + ("files/" + q));
      FirstSegment(s, t, "files/" + p, "files/" + q);
      SameRoot("files/", p, q);
    }
    if ManifestKey(c, s) == ManifestKey(c, t) {
      SameRoot(Root(c), s + "/" + "manifest.json", t + "/" + "manifest.json");
      FirstSegment(s, t, "manifest.json", "manifest.json");
    }
    assert ("files/" + p)[0] == 'f' && "manifest.json"[0] == 'm';
    if FileKey(c, s, p) == ManifestKey(c, t) {
      SameRoot(Root(c), s + "/" + ("files/" + p), t + "/" + "manifest.json");
      FirstSegment(s, t, "files/" + p, "manifest.json");
    }
  }

  // ---------------------------------------------------------------- the bucket

  datatype FileEntry = FileEntry(storageKey: string, versionId: string)

  datatype Object = File(bytes: string) | Manifest(files: map<string, FileEntry>)

  /** Objects by key and version. Nothing is ever removed or replaced. */
  type Bucket = map<(string, string), Object>

  /**
    What a put may come to: an error and nothing stored, an error although the object was
    stored, no version id, or a version id.
   */
  datatype Reply = PutFailed | Unheard(version: string) | Unversioned | Stored(version: string)

  /** The version that came to be, whether or not the client was told. */
  function Made(r: Reply): Option<string> { if r.Stored? || r.Unheard? then Some(r.version) else None }

  /** S3's promise: a version id is not empty and is new for its key. */
  predicate Honest(b: Bucket, key: string, r: Reply) { Made(r).Some? ==> r.version != "" && (key, r.version) !in b }

  function Put(b: Bucket, key: string, o: Object, r: Reply): Bucket {
    if Made(r).Some? then b[(key, r.version) := o] else b
  }

  /** A file found by the walk: its path below the workspace, as bytes, and its bytes. */
  datatype LocalFile = LocalFile(path: string, bytes: string)

  /** `to_string_lossy().replace('\\', "/")`. */
  function Normal(path: string): string { Slashed(Lossy(path)) }

  datatype Upload = Upload(bucket: Bucket, ok: bool, entries: map<string, FileEntry>)

  /** The upload loop over the first files; it stops at the first put that fails. */
  function Uploaded(b: Bucket, c: S3Config, session: string, files: seq<LocalFile>, replies: seq<Reply>): Upload
    requires |replies| >= |files|
  {
    if files == [] then Upload(b, true, map[])
    else
      var k := |files| - 1;
      var u := Uploaded(b, c, session, files[..k], replies);
      if !u.ok then u
      else
        var rel := Normal(files[k].path);
        Upload(Put(u.bucket, FileKey(c, session, rel), File(files[k].bytes), replies[k]), replies[k].Stored?,
               if replies[k].Stored? then u.entries[rel := FileEntry(rel, replies[k].version)] else u.entries)
  }

  /** The bucket after a commit, and the manifest version it returns. */
  function Committed(
      b: Bucket, c: S3Config, session: string, files: seq<LocalFile>, replies: seq<Reply>): (Bucket, Option<string>)
    requires |replies| > |files|
  {
    var u := Uploaded(b, c, session, files, replies);
    var last := replies[|files|];
    if !u.ok then (u.bucket, None)
    else
      var told := if last.Stored? then Some(last.version) else None;
      (Put(u.bucket, ManifestKey(c, session), Manifest(u.entries), last), told)
  }

  predicate HonestUploads(b: Bucket, c: S3Config, session: string, files: seq<LocalFile>, replies: seq<Reply>)
    requires |replies| >= |files|
  {
    files == [] ||
    var k := |files| - 1;
    HonestUploads(b, c, session, files[..k], replies)
    && Honest(Uploaded(b, c, session, files[..k], replies).bucket, FileKey(c, session, Normal(files[k].path)),
         replies[k])
  }

  predicate HonestCommit(b: Bucket, c: S3Config, session: string, files: seq<LocalFile>, replies: seq<Reply>)
    requires |replies| > |files|
  {
    HonestUploads(b, c, session, files, replies)
    && Honest(Uploaded(b, c, session, files, replies).bucket, ManifestKey(c, session), replies[|files|])
  }

  /** The first `n` puts were answered with a version id. */
  predicate AllStored(replies: seq<Reply>, n: nat)
    requires n <= |replies|
  {
    forall i :: 0 <= i < n ==> replies[i].Stored?
  }

  lemma {:induction false} UploadsSucceedExactly(
      b: Bucket, c: S3Config, session: string, files: seq<LocalFile>, replies: seq<Reply>)
    requires |replies| >= |files|
    ensures Uploaded(b, c, session, files, replies).ok <==> AllStored(replies, |files|)
  {
    if files != [] { UploadsSucceedExactly(b, c, session, files[..|files| - 1], replies); }
  }

  /** The puts up to the first that is not answered with a version id, `i` of them before it. */
  predicate StopsAt(files: seq<LocalFile>, replies: seq<Reply>, i: nat)
    requires |replies| >= |files|
  {
    i <= |files| && AllStored(replies, i) && (i < |files| ==> !replies[i].Stored?)
  }

  /** `k` is what put number `j` stored. */
  predicate StoredBy(
      c: S3Config, session: string, files: seq<LocalFile>, replies: seq<Reply>, j: nat, k: (string, string))
    requires |replies| >= |files|
  {
    j < |files| && k.0 == FileKey(c, session, Normal(files[j].path)) && Made(replies[j]) == Some(k.1)
  }

  /** The first `m` puts, whatever their answers. */
  function Puts(b: Bucket, c: S3Config, session: string, files: seq<LocalFile>, replies: seq<Reply>, m: nat): Bucket
    requires m <= |files| <= |replies|
  {
    if m == 0 then b
    else
      var f := files[m - 1];
      Put(Puts(b, c, session, files, replies, m - 1), FileKey(c, session, Normal(f.path)), File(f.bytes),
          replies[m - 1])
  }

  lemma {:induction false} PutsOfFirst(
      b: Bucket, c: S3Config, session: string, files: seq<LocalFile>, replies: seq<Reply>, n: nat, m: nat)
    requires m <= n <= |files| <= |replies|
    ensures Puts(b, c, session, files[..n], replies, m) == Puts(b, c, session, files, replies, m)
  {
    if m > 0 { PutsOfFirst(b, c, session, files, replies, n, m - 1); }
  }

  lemma UploadsNext(b: Bucket, c: S3Config, session: string, files: seq<LocalFile>, replies: seq<Reply>, u: Upload)
    requires files != [] && |replies| >= |files| && u == Uploaded(b, c, session, files[..|files| - 1], replies)
    ensures var f, r := files[|files| - 1], replies[|files| - 1];
      Uploaded(b, c, session, files, replies).bucket ==
        if u.ok then Put(u.bucket, FileKey(c, session, Normal(f.path)), File(f.bytes), r) else u.bucket
  {}

  /** An upload is the puts up to the first that is not answered with a version id, and no further put. */
  lemma {:induction false} UploadsStopThere(
      b: Bucket, c: S3Config, session: string, files: seq<LocalFile>, replies: seq<Reply>, i: nat)
    requires |replies| >= |files| && StopsAt(files, replies, i)
    ensures Uploaded(b, c, session, files, replies).bucket ==
      Puts(b, c, session, files, replies, if i < |files| then i + 1 else i)
  {
    if files != [] {
      var n := |files| - 1;
      UploadsSucceedExactly(b, c, session, files[..n], replies);
      UploadsNext(b, c, session, files, replies, Uploaded(b, c, session, files[..n], replies));
      if i < n {
        UploadsStopThere(b, c, session, files[..n], replies, i);
        PutsOfFirst(b, c, session, files, replies, n, i + 1);
      } else {
        UploadsStopThere(b, c, session, files[..n], replies, n);
        PutsOfFirst(b, c, session, files, replies, n, n);
      }
    }
  }

  /** What puts leave in the bucket: a version for each that was stored, heard of or not, and nothing else. */
  lemma {:induction false} PutsAreExact(
      b: Bucket, c: S3Config, session: string, files: seq<LocalFile>, replies: seq<Reply>, m: nat, k: (string, string))
    requires m <= |files| <= |replies|
    ensures var after := Puts(b, c, session, files, replies, m);
      && (k in after <==> k in b || exists j: nat :: j < m && StoredBy(c, session, files, replies, j, k))
      && (k in after && (k !in b || after[k] != b[k]) ==> PutLast(c, session, files, replies, m, k, after[k]))
  {
    if m > 0 {
      PutsAreExact(b, c, session, files, replies, m - 1, k);
      var before := Puts(b, c, session, files, replies, m - 1);
      assert StoredBy(c, session, files, replies, m - 1, k) ==> k in Puts(b, c, session, files, replies, m);
      if k in Puts(b, c, session, files, replies, m) && k !in before {
        assert StoredBy(c, session, files, replies, m - 1, k);
      }
    }
  }

  predicate PutLast(
      c: S3Config, session: string, files: seq<LocalFile>, replies: seq<Reply>, m: nat, k: (string, string), o: Object)
    requires m <= |files| <= |replies|
  {
    exists j: nat :: j < m && StoredBy(c, session, files, replies, j, k) && o == File(files[j].bytes)
  }

  /**
    When a commit succeeds, and what it leaves if it does not, by the answers alone: it is told
    `v` exactly if every put was answered with a version, the manifest's with `v`; the manifest
    is there as `v` exactly if every file's put was answered and the manifest's was stored.
   */
  lemma CommitsAreExact(
      b: Bucket, c: S3Config, session: string, files: seq<LocalFile>, replies: seq<Reply>, v: string,
      after: Bucket, told: Option<string>)
    requires |replies| > |files| && '/' !in session && (ManifestKey(c, session), v) !in b
    requires (after, told) == Committed(b, c, session, files, replies)
    ensures told == Some(v) <==> AllStored(replies, |files|) && replies[|files|] == Stored(v)
    ensures (ManifestKey(c, session), v) in after <==>
        AllStored(replies, |files|) && (replies[|files|] == Stored(v) || replies[|files|] == Unheard(v))
    ensures !AllStored(replies, |files|) ==> told == None && after == Uploaded(b, c, session, files, replies).bucket
  {
    UploadsSucceedExactly(b, c, session, files, replies);
    UploadsAddNoManifest(b, c, session, files, replies, session, v);
  }

  // ---------------------------------------------------------------- checkout

  type Files = map<string, string>

  /** A path with a parent or root component is skipped. */
  predicate Skipped(path: string) { (path != "" && path[0] == '/') || ".." in Split(path, '/') }

  /** One path is a directory of the other: both cannot be files. */
  predicate Clash(p: string, q: string) { p + "/" <= q || q + "/" <= p }

  predicate Present(b: Bucket, c: S3Config, session: string, e: FileEntry) {
    var k := (FileKey(c, session, e.storageKey), e.versionId);
    k in b && b[k].File?
  }

  function Wanted(m: map<string, FileEntry>): set<string> { set p | p in m && !Skipped(p) }

  predicate CanRestore(b: Bucket, c: S3Config, session: string, m: map<string, FileEntry>) {
    && (forall p :: p in Wanted(m) ==> Present(b, c, session, m[p]))
    && (forall p, q {:trigger Clash(p, q)} :: p in Wanted(m) && q in Wanted(m) ==> !Clash(p, q))
  }

  function ObjectOf(b: Bucket, c: S3Config, session: string, e: FileEntry): Object
    requires Present(b, c, session, e)
  {
    b[(FileKey(c, session, e.storageKey), e.versionId)]
  }

  /** The entries but those of `todo` are downloaded and do not stand in each other's way. */
  predicate Partial(
      b: Bucket, c: S3Config, session: string, m: map<string, FileEntry>, todo: set<string>, done: Files) {
    && done.Keys == Wanted(m) - todo
    && (forall p :: p in done ==> Present(b, c, session, m[p]) && done[p] == ObjectOf(b, c, session, m[p]).bytes)
    && (forall p, q {:trigger Clash(p, q)} :: p in done && q in done ==> !Clash(p, q))
  }

  function Restored(b: Bucket, c: S3Config, session: string, m: map<string, FileEntry>): Files
    requires CanRestore(b, c, session, m)
  {
    map p | p in Wanted(m) :: ObjectOf(b, c, session, m[p]).bytes
  }

  /**
    A checkout writes every listed file and nothing outside the workspace: a path that is
    absolute or climbs to a parent directory is passed over, any other is restored.
   */
  lemma NothingEscapes(b: Bucket, c: S3Config, session: string, m: map<string, FileEntry>, p: string)
    requires CanRestore(b, c, session, m)
    ensures p in Restored(b, c, session, m) <==>
        p in m && (p != "" ==> p[0] != '/') && ".." !in Split(p, '/')
  {}

  /** A file and a directory cannot have one name. */
  lemma FilesAreNoDirectories(p: string, q: string)
    ensures Clash(p, p + "/" + q) && Clash(p + "/" + q, p)
  {
    assert p + "/" + q == (p + "/") + q;
  }

  /** `None` is an error. No parent state, or an empty one, is an empty workspace. */
  function Checkout(b: Bucket, c: S3Config, session: string, parent: Option<string>): Option<Files> {
    if parent.None? || parent.value == "" then Some(map[])
    else
      var k := (ManifestKey(c, session), parent.value);
      if k !in b || !b[k].Manifest? || !CanRestore(b, c, session, b[k].files) then None
      else Some(Restored(b, c, session, b[k].files))
  }

  /** The client's side of one bucket and one local directory. */
  class S3Workspace {
    const config: S3Config
    var objects: Bucket
    var local: Files

    constructor (c: S3Config)
      ensures config == c && objects == map[] && local == map[]
    {
      config := c;
      objects := map[];
      local := map[];
    }

    method Commit(session: string, files: seq<LocalFile>, replies: seq<Reply>) returns (version: Option<string>)
      requires |replies| > |files|
      modifies this`objects
      ensures (objects, version) == Committed(old(objects), config, session, files, replies)
      ensures version.Some? <==> AllStored(replies, |files| + 1)
      ensures version.Some? ==> version.value == replies[|files|].version
    {
      UploadsSucceedExactly(objects, config, session, files, replies);
      var entries: map<string, FileEntry> := map[];
      for i := 0 to |files|
        invariant Uploaded(old(objects), config, session, files[..i], replies) == Upload(objects, true, entries)
      {
        assert files[..i + 1][..i] == files[..i];
        var rel := Normal(files[i].path);
        objects := Put(objects, FileKey(config, session, rel), File(files[i].bytes), replies[i]);
        if !replies[i].Stored? {
          UploadStopped(old(objects), config, session, files, replies, i + 1);
          return None;
        }
        entries := entries[rel := FileEntry(rel, replies[i].version)];
      }
      assert files[..|files|] == files;
      objects := Put(objects, ManifestKey(config, session), Manifest(entries), replies[|files|]);
      version := if replies[|files|].Stored? then Some(replies[|files|].version) else None;
    }

    /** `fault` says that the download or a local write failed; the directory may then hold anything. */
    method DownloadVersion(session: string, path: string, e: FileEntry) returns (ok: bool, fault: bool)
      modifies this`local
      ensures ok <==> Present(objects, config, session, e) && !fault
      ensures ok ==> local == old(local)[path := ObjectOf(objects, config, session, e).bytes]
    {
      if !Present(objects, config, session, e) { return false, false; }
      fault := *;
      if fault { local := *; return false, true; }
      local := local[path := ObjectOf(objects, config, session, e).bytes];
      ok := true;
    }

    /** Downloads what a manifest lists, in whatever order its hash map gives. */
    method Download(session: string, m: map<string, FileEntry>) returns (ok: bool, fault: bool)
      modifies this`local
      ensures ok <==> CanRestore(objects, config, session, m) && !fault
      ensures ok ==> local == old(local) + Restored(objects, config, session, m)
    {
      var done: Files := map[];
      var todo := m.Keys;
      while todo != {}
        invariant todo <= m.Keys && Partial(objects, config, session, m, todo, done) && local == old(local) + done
        decreases todo
      {
        var p :| p in todo;
        if !Skipped(p) {
          if exists q :: q in done && Clash(p, q) { return false, false; }
          ok, fault := DownloadVersion(session, p, m[p]);
          if !ok { return; }
          var bytes := ObjectOf(objects, config, session, m[p]).bytes;
          OverlayPut(old(local), done, p, bytes);
          PartialGrows(objects, config, session, m, todo, done, p);
          done := done[p := bytes];
        } else {
          PartialSkips(objects, config, session, m, todo, done, p);
        }
        todo := todo - {p};
      }
      PartialIsWhole(objects, config, session, m, done);
      return true, false;
    }

    /**
      `cleared` says that the directory could be removed first. A failure of that is ignored,
      and what was left then stays beside the restored files.
     */
    method Restore(session: string, parent: Option<string>) returns (ok: bool, fault: bool, cleared: bool)
      modifies this`local
      ensures ok <==> Checkout(objects, config, session, parent).Some? && !fault
      ensures ok && cleared ==> Checkout(objects, config, session, parent) == Some(local)
      ensures parent == None || parent == Some("") ==> ok && (cleared ==> local == map[])
      ensures ok ==> Overlaid(old(local), Checkout(objects, config, session, parent).value, local)
    {
      cleared := *;
      var left: set<string> := *;
      local := if cleared then map[] else map p | p in local && p in left :: local[p];
      if parent.None? || parent.value == "" { return true, false, cleared; }
      var k := (ManifestKey(config, session), parent.value);
      if k !in objects || !objects[k].Manifest? { return false, false, cleared; }
      fault := *;
      if fault { return false, true, cleared; }
      ok, fault := Download(session, objects[k].files);
      assert ok && cleared ==> local == Restored(objects, config, session, objects[k].files);
    }
  }

  /** `after` holds the files `w`, and beside them at most some of those `before`. */
  predicate Overlaid(before: Files, w: Files, after: Files) {
    && (forall p :: p in w ==> p in after && after[p] == w[p])
    && (forall p :: p in after && p !in w ==> p in before && after[p] == before[p])
  }

  lemma OverlayPut(x: Files, y: Files, p: string, bytes: string)
    ensures (x + y)[p := bytes] == x + y[p := bytes]
  {}

  lemma PartialGrows(
      b: Bucket, c: S3Config, session: string, m: map<string, FileEntry>, todo: set<string>, done: Files, p: string)
    requires Partial(b, c, session, m, todo, done) && p in m && !Skipped(p) && Present(b, c, session, m[p])
    requires forall q :: q in done ==> !Clash(p, q)
    ensures Partial(b, c, session, m, todo - {p}, done[p := ObjectOf(b, c, session, m[p]).bytes])
  {
    assert forall q :: Clash(p, q) <==> Clash(q, p);
  }

  lemma PartialSkips(
      b: Bucket, c: S3Config, session: string, m: map<string, FileEntry>, todo: set<string>, done: Files, p: string)
    requires Partial(b, c, session, m, todo, done) && Skipped(p)
    ensures Partial(b, c, session, m, todo - {p}, done)
  {}

  lemma PartialIsWhole(b: Bucket, c: S3Config, session: string, m: map<string, FileEntry>, done: Files)
    requires Partial(b, c, session, m, {}, done)
    ensures CanRestore(b, c, session, m) && done == Restored(b, c, session, m)
  {}

  lemma {:induction false} UploadStopped(
      b: Bucket, c: S3Config, session: string, files: seq<LocalFile>, replies: seq<Reply>, i: nat)
    requires i <= |files| <= |replies| && !Uploaded(b, c, session, files[..i], replies).ok
    ensures Uploaded(b, c, session, files, replies) == Uploaded(b, c, session, files[..i], replies)
  {
    if i == |files| {
      assert files[..i] == files;
    } else {
      var k := |files| - 1;
      assert files[..k][..i] == files[..i];
      UploadStopped(b, c, session, files[..k], replies, i);
    }
  }

  // ---------------------------------------------------------------- runs of commits

  datatype Attempt = Attempt(session: string, files: seq<LocalFile>, replies: seq<Reply>)

  predicate Answered(a: Attempt) { |a.replies| > |a.files| }

  predicate AllAnswered(run: seq<Attempt>) { forall i :: 0 <= i < |run| ==> Answered(run[i]) }

  function BucketAfter(c: S3Config, run: seq<Attempt>): Bucket
    requires AllAnswered(run)
  {
    if run == [] then map[]
    else
      var a := run[|run| - 1];
      Committed(BucketAfter(c, run[..|run| - 1]), c, a.session, a.files, a.replies).0
  }

  predicate HonestRun(c: S3Config, run: seq<Attempt>)
    requires AllAnswered(run)
  {
    run == [] ||
    var a := run[|run| - 1];
    HonestRun(c, run[..|run| - 1]) && HonestCommit(BucketAfter(c, run[..|run| - 1]), c, a.session, a.files, a.replies)
  }

  predicate Grows(b: Bucket, d: Bucket) { forall k :: k in b ==> k in d && d[k] == b[k] }

  lemma {:induction false} UploadsGrow(
      b: Bucket, c: S3Config, session: string, files: seq<LocalFile>, replies: seq<Reply>)
    requires |replies| >= |files| && HonestUploads(b, c, session, files, replies)
    ensures Grows(b, Uploaded(b, c, session, files, replies).bucket)
  {
    if files != [] { UploadsGrow(b, c, session, files[..|files| - 1], replies); }
  }

  lemma CommitGrows(b: Bucket, c: S3Config, a: Attempt)
    requires Answered(a) && HonestCommit(b, c, a.session, a.files, a.replies)
    ensures Grows(b, Committed(b, c, a.session, a.files, a.replies).0)
  {
    UploadsGrow(b, c, a.session, a.files, a.replies);
  }

  lemma {:induction false} RunGrows(c: S3Config, run: seq<Attempt>, k: nat)
    requires k <= |run| && AllAnswered(run) && HonestRun(c, run)
    ensures AllAnswered(run[..k])
    ensures Grows(BucketAfter(c, run[..k]), BucketAfter(c, run)) && HonestRun(c, run[..k])
  {
    if k == |run| {
      assert run[..k] == run;
    } else {
      var n := |run| - 1;
      assert run[..n][..k] == run[..k];
      RunGrows(c, run[..n], k);
      CommitGrows(BucketAfter(c, run[..n]), c, run[n]);
    }
  }

  // ---------------------------------------------------------------- what an upload records

  predicate DistinctPaths(files: seq<LocalFile>) {
    forall i, j :: 0 <= i < j < |files| ==> files[i].path != files[j].path
  }

  /** What the walk can find: names are any bytes without a slash. */
  predicate IsWorkspace(files: seq<LocalFile>) {
    && DistinctPaths(files)
    && (forall f :: f in files ==> WalkedPath(f.path))
    && (forall f, g :: f in files && g in files ==> !Clash(f.path, g.path))
  }

  predicate WalkedPath(p: string) { forall part :: part in Split(p, '/') ==> part != "" && part != "." && part != ".." }

  /** Every name is well-formed text without a backslash. */
  predicate Storable(files: seq<LocalFile>) { forall f :: f in files ==> Valid(f.path) && '\\' !in f.path }

  function Contents(files: seq<LocalFile>): Files {
    if files == [] then map[] else Contents(files[..|files| - 1])[files[|files| - 1].path := files[|files| - 1].bytes]
  }

  lemma NormalIsSame(p: string)
    ensures Normal(p) == p <==> Valid(p) && '\\' !in p
    ensures Valid(Normal(p)) && '\\' !in Normal(p)
  {
    LossyIsSame(p);
    LossyIsValid(p);
    SlashedIsValid(Lossy(p));
    SlashedIsSame(Lossy(p));
    if '\\' !in p { LossyAddsNoBackslash(p); }
  }

  /** The entry's object is in the bucket and holds the file's bytes. */
  predicate EntryHolds(b: Bucket, c: S3Config, session: string, e: FileEntry, bytes: string) {
    var k := (FileKey(c, session, e.storageKey), e.versionId);
    k in b && b[k] == File(bytes)
  }

  predicate EntriesHold(b: Bucket, c: S3Config, session: string, entries: map<string, FileEntry>, w: Files) {
    entries.Keys == w.Keys && forall p :: p in w ==> EntryHolds(b, c, session, entries[p], w[p])
  }

  lemma EntriesSurvive(b: Bucket, d: Bucket, c: S3Config, session: string, entries: map<string, FileEntry>, w: Files)
    requires EntriesHold(b, c, session, entries, w) && Grows(b, d)
    ensures EntriesHold(d, c, session, entries, w)
  {
    forall p | p in w ensures EntryHolds(d, c, session, entries[p], w[p]) {
      assert EntryHolds(b, c, session, entries[p], w[p]);
    }
  }

  /** The files as the manifest names them; of two names that become one, the later upload stays. */
  function NormalContents(files: seq<LocalFile>): Files {
    if files == [] then map[]
      else NormalContents(files[..|files| - 1])[Normal(files[|files| - 1].path) := files[|files| - 1].bytes]
  }

  lemma {:induction false} UploadRecords(
      b: Bucket, c: S3Config, session: string, files: seq<LocalFile>, replies: seq<Reply>)
    requires |replies| >= |files| && HonestUploads(b, c, session, files, replies)
    ensures var u := Uploaded(b, c, session, files, replies);
      u.ok ==> EntriesHold(u.bucket, c, session, u.entries, NormalContents(files))
  {
    if files != [] {
      var k := |files| - 1;
      var u, v := Uploaded(b, c, session, files[..k], replies), Uploaded(b, c, session, files, replies);
      UploadRecords(b, c, session, files[..k], replies);
      if v.ok { EntriesSurvive(u.bucket, v.bucket, c, session, u.entries, NormalContents(files[..k])); }
    }
  }

  lemma {:induction false} StorableContents(files: seq<LocalFile>)
    requires Storable(files)
    ensures NormalContents(files) == Contents(files)
  {
    if files != [] {
      var k := |files| - 1;
      assert files[k] in files;
      assert forall f :: f in files[..k] ==> f in files;
      StorableContents(files[..k]);
      NormalIsSame(files[k].path);
    }
  }

  lemma {:induction false} ContentsKeys(files: seq<LocalFile>, p: string)
    ensures p in Contents(files) <==> exists f :: f in files && f.path == p
    ensures p in NormalContents(files) <==> exists f :: f in files && Normal(f.path) == p
  {
    if files != [] {
      var k := |files| - 1;
      ContentsKeys(files[..k], p);
      assert files == files[..k] + [files[k]];
      assert forall f :: f in files <==> f in files[..k] || f == files[k];
    }
  }

  /** `Contents` is the workspace: each file's bytes at its own path, and no other path. */
  lemma {:induction false} ContentsAreTheFiles(files: seq<LocalFile>, i: nat)
    requires DistinctPaths(files) && i < |files|
    ensures files[i].path in Contents(files) && Contents(files)[files[i].path] == files[i].bytes
    ensures forall p :: p in Contents(files) ==> exists f :: f in files && f.path == p
  {
    forall p | p in Contents(files) ensures exists f :: f in files && f.path == p { ContentsKeys(files, p); }
    if i < |files| - 1 { ContentsAreTheFiles(files[..|files| - 1], i); }
  }

  lemma WalkedIsNotSkipped(p: string)
    requires WalkedPath(p)
    ensures !Skipped(p)
  {
    var first := Split(p, '/')[0];
    assert first in Split(p, '/');
  }

  /** Which commits can be restored from their manifest at all. */
  lemma WorkspaceCanBeRestored(
      b: Bucket, c: S3Config, session: string, entries: map<string, FileEntry>, files: seq<LocalFile>)
    requires EntriesHold(b, c, session, entries, Contents(files)) && IsWorkspace(files)
    ensures CanRestore(b, c, session, entries) && Restored(b, c, session, entries) == Contents(files)
  {
    forall p | p in entries ensures !Skipped(p) {
      ContentsKeys(files, p);
      var f :| f in files && f.path == p;
      WalkedIsNotSkipped(p);
    }
    assert Wanted(entries) == entries.Keys;
    forall p | p in entries ensures Present(b, c, session, entries[p]) {
      assert EntryHolds(b, c, session, entries[p], Contents(files)[p]);
    }
    forall p, q | p in entries && q in entries ensures !Clash(p, q) {
      ContentsKeys(files, p);
      ContentsKeys(files, q);
    }
  }

  /** The attempt number i of a run stored its manifest as version `v`. */
  predicate Kept(c: S3Config, run: seq<Attempt>, i: nat, v: string)
    requires AllAnswered(run)
  {
    i < |run| && var a := run[i]; AllStored(a.replies, |a.files|) && Made(a.replies[|a.files|]) == Some(v)
  }

  /** The attempt number i was told version `v`. */
  predicate Returned(c: S3Config, run: seq<Attempt>, i: nat, v: string)
    requires AllAnswered(run)
  {
    i < |run| && Committed(BucketAfter(c, run[..i]), c, run[i].session, run[i].files, run[i].replies).1 == Some(v)
  }

  /** What a commit is told is what it stored, unless the answer to its last put was lost. */
  lemma ToldIsKept(c: S3Config, run: seq<Attempt>, i: nat, v: string)
    requires AllAnswered(run)
    ensures Returned(c, run, i, v) <==> Kept(c, run, i, v) && !run[i].replies[|run[i].files|].Unheard?
  {
    if i < |run| {
      UploadsSucceedExactly(BucketAfter(c, run[..i]), c, run[i].session, run[i].files, run[i].replies);
    }
  }

  lemma ManifestIsKept(c: S3Config, run: seq<Attempt>, i: nat, v: string)
    requires AllAnswered(run) && HonestRun(c, run) && Kept(c, run, i, v)
    ensures v != ""
    ensures var k := (ManifestKey(c, run[i].session), v);
      var b := BucketAfter(c, run);
      k in b && b[k].Manifest? && EntriesHold(b, c, run[i].session, b[k].files, NormalContents(run[i].files))
  {
    var a := run[i];
    RunGrows(c, run, i + 1);
    assert run[..i + 1][..i] == run[..i];
    var before, after := BucketAfter(c, run[..i]), BucketAfter(c, run[..i + 1]);
    var u := Uploaded(before, c, a.session, a.files, a.replies);
    UploadsSucceedExactly(before, c, a.session, a.files, a.replies);
    UploadRecords(before, c, a.session, a.files, a.replies);
    EntriesSurvive(u.bucket, after, c, a.session, u.entries, NormalContents(a.files));
    EntriesSurvive(after, BucketAfter(c, run), c, a.session, u.entries, NormalContents(a.files));
  }

  /**
    The versioned workspace. If a commit of a workspace stored version v, then after any
    later commits, successful or broken off half way, in any session, a checkout at v gives
    exactly that workspace, on the condition, which is exact, that every path is
    well-formed UTF-8 without a backslash.
   */
  lemma CheckoutRestoresTheCommit(c: S3Config, run: seq<Attempt>, i: nat, v: string)
    requires AllAnswered(run) && HonestRun(c, run) && Kept(c, run, i, v)
    requires IsWorkspace(run[i].files)
    ensures Checkout(BucketAfter(c, run), c, run[i].session, Some(v)) == Some(Contents(run[i].files)) <==>
        Storable(run[i].files)
  {
    var files := run[i].files;
    var b, k := BucketAfter(c, run), (ManifestKey(c, run[i].session), v);
    ManifestIsKept(c, run, i, v);
    if Storable(files) {
      StorableContents(files);
      WorkspaceCanBeRestored(b, c, run[i].session, b[k].files, files);
    } else {
      var f :| f in files && !(Valid(f.path) && '\\' !in f.path);
      ContentsKeys(files, f.path);
      if f.path in NormalContents(files) {
        ContentsKeys(files, f.path);
        var g :| g in files && Normal(g.path) == f.path;
        NormalIsSame(g.path);
        assert false;
      }
    }
  }

  // ---------------------------------------------------------------- nothing else can be checked out

  lemma {:induction false} UploadsAddNoManifest(
      b: Bucket, c: S3Config, session: string, files: seq<LocalFile>, replies: seq<Reply>, t: string, v: string)
    requires |replies| >= |files| && '/' !in session && '/' !in t
    ensures (ManifestKey(c, t), v) in Uploaded(b, c, session, files, replies).bucket ==> (ManifestKey(c, t), v) in b
  {
    if files != [] {
      var k := |files| - 1;
      UploadsAddNoManifest(b, c, session, files[..k], replies, t, v);
      KeysNeverCollide(c, session, t, Normal(files[k].path), "");
    }
  }

  predicate SlashFree(run: seq<Attempt>) { forall i :: 0 <= i < |run| ==> '/' !in run[i].session }

  lemma {:induction false} ManifestsAreCommits(c: S3Config, run: seq<Attempt>, session: string, v: string)
    requires AllAnswered(run) && SlashFree(run) && '/' !in session
    requires (ManifestKey(c, session), v) in BucketAfter(c, run)
    ensures exists i: nat :: Kept(c, run, i, v) && run[i].session == session
  {
    var n := |run| - 1;
    var a := run[n];
    var before := BucketAfter(c, run[..n]);
    if (ManifestKey(c, session), v) in before {
      ManifestsAreCommits(c, run[..n], session, v);
      var i: nat :| Kept(c, run[..n], i, v) && run[..n][i].session == session;
      assert run[..n][..i] == run[..i];
      assert Kept(c, run, i, v);
    } else {
      UploadsAddNoManifest(before, c, a.session, a.files, a.replies, session, v);
      KeysNeverCollide(c, a.session, session, "", "");
      UploadsSucceedExactly(before, c, a.session, a.files, a.replies);
      assert Kept(c, run, n, v);
    }
  }

  predicate CleanRun(run: seq<Attempt>) {
    AllAnswered(run) && SlashFree(run) && forall i :: 0 <= i < |run| ==>
        IsWorkspace(run[i].files) && Storable(run[i].files)
  }

  /**
    A version names one workspace of one session: a checkout at v succeeds with w exactly when
    some commit of that session stored v for a workspace w, and was told so unless the answer
    was lost. Another session's version, a file's version, or that of a commit that broke off
    before its manifest, gives an error.
   */
  lemma CheckoutIsExactlyTheCommits(c: S3Config, run: seq<Attempt>, b: Bucket, session: string, v: string, w: Files)
    requires CleanRun(run) && HonestRun(c, run) && b == BucketAfter(c, run) && '/' !in session && v != ""
    ensures Checkout(b, c, session, Some(v)) == Some(w) <==> SomeCommitGave(c, run, session, v, w)
  {
    if SomeCommitGave(c, run, session, v, w) {
      var i: nat :| Kept(c, run, i, v) && run[i].session == session && Contents(run[i].files) == w;
      CheckoutRestoresTheCommit(c, run, i, v);
    }
    if Checkout(b, c, session, Some(v)) == Some(w) {
      ManifestsAreCommits(c, run, session, v);
      var i: nat :| Kept(c, run, i, v) && run[i].session == session;
      CheckoutRestoresTheCommit(c, run, i, v);
    }
  }

  /** Some commit of the session stored version `v` for the workspace `w`. */
  ghost predicate SomeCommitGave(c: S3Config, run: seq<Attempt>, session: string, v: string, w: Files)
    requires AllAnswered(run)
  {
    exists i: nat :: Kept(c, run, i, v) && run[i].session == session && Contents(run[i].files) == w
  }
}
