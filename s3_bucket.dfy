/** The object-storage uploader (pure_adaptor/s3/s3_bucket.py): the object keys it builds with
    POSIX `os.path.join` and `os.path.basename`, the bucket handle it creates lazily and only
    once, and the two uploads, which use the same key. */
module S3Bucket {
  import opened Wrappers
  import opened Json
  import opened Strings

  // ---------------------------------------------------------------- POSIX path functions

  /** The index of the last `/` in `p`, if there is one. */
  function LastSlash(p: string): (r: Option<nat>)
    ensures r.None? <==> '/' !in p
    ensures r.Some? ==> r.value < |p| && p[r.value] == '/' && '/' !in p[r.value + 1..]
    decreases |p|
  {
    if p == [] then None
    else if p[|p| - 1] == '/' then Some(|p| - 1)
    else
      var r := LastSlash(p[..|p| - 1]);
      assert p == p[..|p| - 1] + [p[|p| - 1]];
      assert r.Some? ==> p[r.value + 1..] == p[..|p| - 1][r.value + 1..] + [p[|p| - 1]];
      r
  }

  /** A slash-free tail after a slash: the slash is the last one. */
  lemma {:induction false} LastSlashAfter(dir: string, name: string)
    requires '/' !in name
    ensures LastSlash(dir + "/" + name) == Some(|dir|)
    decreases |name|
  {
    var p := dir + "/" + name;
    if name != [] {
      assert name[|name| - 1] in name;
      assert p[..|p| - 1] == dir + "/" + name[..|name| - 1];
      LastSlashAfter(dir, name[..|name| - 1]);
    }
  }

  /** `os.path.basename`: everything after the last `/` (all of `p` when it has none). */
  function Basename(p: string): (r: string)
    ensures '/' !in r
    ensures '/' !in p ==> r == p
    ensures '/' in p ==> |r| < |p| && p[|p| - |r| - 1] == '/' && p[|p| - |r|..] == r
  {
    match LastSlash(p)
    case None => p
    case Some(i) => p[i + 1..]
  }

  /** One step of `os.path.join`: an absolute component replaces the path built so far; a
      component after an empty path or one ending in `/` is appended as it is; otherwise a `/`
      goes between. */
  function JoinStep(path: string, b: string): string
  {
    if b != "" && b[0] == '/' then b
    else if path == "" || path[|path| - 1] == '/' then path + b
    else path + "/" + b
  }

  /** `os.path.join(path, *rest)`: the components folded in from left to right. */
  function JoinFrom(path: string, rest: seq<string>): string
    decreases |rest|
  {
    if rest == [] then path else JoinFrom(JoinStep(path, rest[0]), rest[1..])
  }

  /** A relative component: not empty, and no `/` at either end. */
  predicate Relative(c: string)
  {
    c != "" && c[0] != '/' && c[|c| - 1] != '/'
  }

  /** Relative components are joined by single slashes. */
  lemma {:induction false} JoinFromRelative(path: string, rest: seq<string>)
    requires Relative(path)
    requires forall i :: 0 <= i < |rest| ==> Relative(rest[i])
    ensures JoinFrom(path, rest) == Join([path] + rest, "/")
    decreases |rest|
  {
    if rest != [] {
      var next := path + "/" + rest[0];
      assert JoinStep(path, rest[0]) == next;
      assert next[|next| - 1] == rest[0][|rest[0]| - 1];
      JoinFromRelative(next, rest[1..]);
      var tail := rest[1..];
      if tail == [] {
        assert [path] + rest == [path, rest[0]];
        assert Join([path, rest[0]], "/") == path + "/" + Join([rest[0]], "/");
      } else {
        assert ([next] + tail)[1..] == tail;
        assert ([path] + rest)[1..] == rest && rest[1..] == tail;
        assert Join(rest, "/") == rest[0] + "/" + Join(tail, "/");
      }
    }
  }

  /** An absolute component discards every component before it. */
  lemma {:induction false} JoinFromAbsolute(path: string, rest: seq<string>, k: nat)
    requires k < |rest| && rest[k] != "" && rest[k][0] == '/'
    ensures JoinFrom(path, rest) == JoinFrom(rest[k], rest[k + 1..])
    decreases k
  {
    if k > 0 {
      JoinFromAbsolute(JoinStep(path, rest[0]), rest[1..], k - 1);
      assert rest[1..][k - 1] == rest[k] && rest[1..][k..] == rest[k + 1..];
    } else {
      assert rest[1..] == rest[k + 1..];
    }
  }

  /** The last piece of a split. */
  function LastPiece(s: string, sep: char): string
  {
    var pieces := Split(s, sep);
    pieces[|pieces| - 1]
  }

  /** Whatever comes before a separator, the last piece is what follows the last one. */
  lemma {:induction false} SplitLastAfter(h: string, sep: char, b: string)
    requires sep !in b
    ensures |Split(h + [sep] + b, sep)| >= 2
    ensures LastPiece(h + [sep] + b, sep) == b
    decreases |h|
  {
    var s := h + [sep] + b;
    if h == [] {
      assert s == [sep] + b && s[1..] == b;
      SplitWithout(b, sep);
    } else {
      assert s[1..] == h[1..] + [sep] + b;
      SplitLastAfter(h[1..], sep, b);
    }
  }

  /** A step that appends a slash-free component leaves it as the last piece. */
  lemma JoinStepLastPiece(path: string, b: string)
    requires '/' !in b
    ensures LastPiece(JoinStep(path, b), '/') == b
  {
    if b != "" {
      assert b[0] in b;
    }
    if path == "" {
      assert JoinStep(path, b) == b;
      SplitWithout(b, '/');
    } else if path[|path| - 1] == '/' {
      var h := path[..|path| - 1];
      assert path == h + ['/'];
      assert JoinStep(path, b) == h + ['/'] + b;
      SplitLastAfter(h, '/', b);
    } else {
      assert JoinStep(path, b) == path + ['/'] + b;
      SplitLastAfter(path, '/', b);
    }
  }

  /** The basename of a path with directories is its file name. */
  lemma BasenameDropsDirectories(dir: string, name: string)
    requires '/' !in name
    ensures Basename(dir + "/" + name) == name
  {
    LastSlashAfter(dir, name);
    assert (dir + "/" + name)[|dir| + 1..] == name;
  }

  // ---------------------------------------------------------------- keys

  /** Python truthiness of the optional top-level prefix: set and not empty. */
  predicate HasTopLevel(top: Option<string>)
  {
    top.Some? && top.value != ""
  }

  /** `_build_key`: the top-level prefix (when truthy), the given prefix and the basename of the
      file, joined as `os.path.join` joins them. Only the basename of the file enters the key: it
      is the key's last `/`-separated piece. */
  function BuildKey(top: Option<string>, prefix: string, fileName: string): (r: string)
    ensures LastPiece(r, '/') == Basename(fileName)
  {
    var b := Basename(fileName);
    assert [prefix, b][1..] == [b] && [b][1..] == [];
    if HasTopLevel(top) then
      var t := JoinStep(top.value, prefix);
      assert JoinFrom(top.value, [prefix, b]) == JoinFrom(t, [b]) == JoinStep(t, b);
      JoinStepLastPiece(t, b);
      JoinFrom(top.value, [prefix, b])
    else
      assert JoinFrom(prefix, [b]) == JoinStep(prefix, b);
      JoinStepLastPiece(prefix, b);
      JoinFrom(prefix, [b])
  }

  /** The key is one or two join steps, the basename of the file joined last. */
  lemma BuildKeySteps(top: Option<string>, prefix: string, fileName: string)
    ensures HasTopLevel(top) ==>
      BuildKey(top, prefix, fileName) == JoinStep(JoinStep(top.value, prefix), Basename(fileName))
    ensures !HasTopLevel(top) ==> BuildKey(top, prefix, fileName) == JoinStep(prefix, Basename(fileName))
  {
    var b := Basename(fileName);
    assert [prefix, b][1..] == [b] && [b][1..] == [];
    if HasTopLevel(top) {
      var t := JoinStep(top.value, prefix);
      assert JoinFrom(top.value, [prefix, b]) == JoinFrom(t, [b]);
      assert JoinFrom(t, [b]) == JoinFrom(JoinStep(t, b), []);
    } else {
      assert JoinFrom(prefix, [b]) == JoinFrom(JoinStep(prefix, b), []);
    }
  }

  /** A file in some directory gets the key of the bare file name. */
  lemma BuildKeyIgnoresDirectories(top: Option<string>, prefix: string, dir: string, name: string)
    requires '/' !in name
    ensures BuildKey(top, prefix, dir + "/" + name) == BuildKey(top, prefix, name)
  {
    BasenameDropsDirectories(dir, name);
  }

  /** A step between relative components puts exactly one `/` between them. */
  lemma JoinStepRelative(path: string, b: string)
    requires Relative(path) && Relative(b)
    ensures JoinStep(path, b) == path + "/" + b
    ensures Relative(JoinStep(path, b))
  {
    var r := path + "/" + b;
    assert r[0] == path[0] && r[|r| - 1] == b[|b| - 1];
  }

  /** With a truthy top-level prefix and relative parts, the key is `top/prefix/name`. */
  lemma BuildKeyWithTopLevel(top: string, prefix: string, fileName: string)
    requires Relative(top) && Relative(prefix) && Basename(fileName) != ""
    ensures BuildKey(Some(top), prefix, fileName) == top + "/" + prefix + "/" + Basename(fileName)
  {
    var b := Basename(fileName);
    assert b[0] in b && b[|b| - 1] in b;
    BuildKeySteps(Some(top), prefix, fileName);
    JoinStepRelative(top, prefix);
    JoinStepRelative(top + "/" + prefix, b);
  }

  /** Without a top-level prefix (`None` or empty) and with a relative prefix, the key is
      `prefix/name`. */
  lemma BuildKeyWithoutTopLevel(top: Option<string>, prefix: string, fileName: string)
    requires !HasTopLevel(top) && Relative(prefix) && Basename(fileName) != ""
    ensures BuildKey(top, prefix, fileName) == prefix + "/" + Basename(fileName)
  {
    var b := Basename(fileName);
    assert b[0] in b && b[|b| - 1] in b;
    BuildKeySteps(top, prefix, fileName);
    JoinStepRelative(prefix, b);
  }

  /** An absolute prefix discards the top-level prefix, as `os.path.join` does. */
  lemma BuildKeyAbsolutePrefix(top: Option<string>, prefix: string, fileName: string)
    requires prefix != "" && prefix[0] == '/'
    ensures BuildKey(top, prefix, fileName) == JoinStep(prefix, Basename(fileName))
  {
    BuildKeySteps(top, prefix, fileName);
  }

  // ---------------------------------------------------------------- the uploader

  /** What is stored under a key: the bytes of a local file, or a JSON document (serialised by
      `json.dumps`, which is not part of this model). */
  datatype Body = LocalFile(path: string) | JsonDocument(doc: Json)

  /** The bucket handle boto3 returns, with the uploads made through it. */
  class Bucket {
    const name: string
    const profile: Option<string>
    var uploads: seq<(string, Body)>

    constructor(name: string, profile: Option<string>)
      ensures this.name == name && this.profile == profile && uploads == []
    {
      this.name := name;
      this.profile := profile;
      uploads := [];
    }

    /** `upload_fileobj`: store the body under the key. */
    method UploadFileObj(body: Body, key: string)
      modifies this
      ensures uploads == old(uploads) + [(key, body)]
    {
      uploads := uploads + [(key, body)];
    }
  }

  /** `BucketUploader`: the bucket name, the optional top-level prefix and profile, and the bucket
      handle once it has been made. `sessions` counts the boto3 sessions opened. */
  class BucketUploader {
    const bucketName: string
    const topLevelPrefix: Option<string>
    const profile: Option<string>
    var bucket: Option<Bucket>
    ghost var sessions: nat

    /** A handle exists exactly when one session has been opened, and it is for this bucket. */
    ghost predicate Valid()
      reads this, if bucket.Some? then {bucket.value} else {}
    {
      && sessions == (if bucket.Some? then 1 else 0)
      && (bucket.Some? ==> bucket.value.name == bucketName && bucket.value.profile == profile)
    }

    /** `profile or None`: an empty profile name counts as none. */
    constructor(bucketName: string, topLevelPrefix: Option<string>, profile: Option<string>)
      ensures Valid()
      ensures this.bucketName == bucketName && this.topLevelPrefix == topLevelPrefix
      ensures this.profile == (if profile == Some("") then None else profile)
      ensures bucket == None && sessions == 0
    {
      this.bucketName := bucketName;
      this.topLevelPrefix := topLevelPrefix;
      this.profile := if profile == Some("") then None else profile;
      bucket := None;
      sessions := 0;
    }

    /** `_build_key` on this uploader's top-level prefix. */
    function Key(prefix: string, fileName: string): string
    {
      BuildKey(topLevelPrefix, prefix, fileName)
    }

    /** The `bucket` property: open a session and make the handle on first use; afterwards
        return that same handle without opening another session. */
    method GetBucket() returns (b: Bucket)
      requires Valid()
      modifies this
      ensures Valid() && bucket == Some(b) && sessions <= 1
      ensures old(bucket).Some? ==> b == old(bucket).value && sessions == old(sessions)
      ensures old(bucket).None? ==> fresh(b) && b.uploads == [] && sessions == old(sessions) + 1
    {
      if bucket.None? {
        b := new Bucket(bucketName, profile);
        bucket := Some(b);
        sessions := sessions + 1;
      } else {
        b := bucket.value;
      }
    }

    /** `upload_file`: the local file goes under the key of its basename. */
    method UploadFile(prefix: string, sourceFile: string)
      requires Valid()
      modifies this, if bucket.Some? then {bucket.value} else {}
      ensures Valid() && bucket.Some? && sessions <= 1
      ensures old(bucket).Some? ==> bucket == old(bucket)
      ensures bucket.value.uploads ==
        (if old(bucket).Some? then old(bucket.value.uploads) else []) + [(Key(prefix, sourceFile), LocalFile(sourceFile))]
    {
      var key := Key(prefix, sourceFile);
      var b := GetBucket();
      b.UploadFileObj(LocalFile(sourceFile), key);
    }

    /** `upload_json_obj`: the document goes under the key of the given file name. */
    method UploadJsonObj(prefix: string, fileName: string, jsonObj: Json)
      requires Valid()
      modifies this, if bucket.Some? then {bucket.value} else {}
      ensures Valid() && bucket.Some? && sessions <= 1
      ensures old(bucket).Some? ==> bucket == old(bucket)
      ensures bucket.value.uploads ==
        (if old(bucket).Some? then old(bucket.value.uploads) else []) + [(Key(prefix, fileName), JsonDocument(jsonObj))]
    {
      var key := Key(prefix, fileName);
      var b := GetBucket();
      b.UploadFileObj(JsonDocument(jsonObj), key);
    }
  }

  /** A file and the JSON document named after it, uploaded under the same prefix, land next to
      each other under one key, wherever the local file lives. */
  lemma UploadsShareKey(top: Option<string>, prefix: string, dir: string, name: string)
    requires '/' !in name
    ensures BuildKey(top, prefix, dir + "/" + name) == BuildKey(top, prefix, name)
    ensures LastPiece(BuildKey(top, prefix, name), '/') == name
  {
    BuildKeyIgnoresDirectories(top, prefix, dir, name);
  }
}
