/**
 * The backup writer: where each file goes, the artifact manifest
 * (account -> "endpoint:artifact" -> hash), and the skip-or-write decision
 * for binary artifacts.
 *
 * The disk is a map from path to content, a path being its list of
 * components below nothing in particular (the output directory is itself a
 * path).  Each write replaces one entry of the map in one step.
 */
module Writer {
  import opened Wrappers
  import opened Strings
  import opened Json

  type byte = bv8
  type Path = seq<string>
  /** account id (as text) -> manifest key -> hash */
  type Manifest = map<string, map<string, string>>

  datatype FileContent =
    | JsonFile(doc: Json)
    | BinaryFile(bytes: seq<byte>)
    | ManifestFile(manifest: Manifest)

  const ManifestFileName: string := ".artifacts_manifest.json"
  const AccountsFileName: string := "accounts.json"
  const ArtifactsDirName: string := "artifacts"
  const AccountDirPrefix: string := "harvest_account_"

  function AccountDir(accountId: int): string
  {
    AccountDirPrefix + IntToString(accountId)
  }

  /** `<output>/harvest_account_<id>/<endpoint>/<filename>` */
  function JsonPath(root: Path, accountId: int, endpoint: string, filename: string): Path
  {
    root + [AccountDir(accountId), endpoint, filename]
  }

  /** `<output>/harvest_account_<id>/<endpoint>/artifacts/<filename>` */
  function ArtifactPath(root: Path, accountId: int, endpoint: string, filename: string): Path
  {
    root + [AccountDir(accountId), endpoint, ArtifactsDirName, filename]
  }

  function AccountsPath(root: Path): Path { root + [AccountsFileName] }

  function ManifestPath(root: Path): Path { root + [ManifestFileName] }

  /** Account directories of different accounts differ. */
  lemma AccountDirInjective(a: int, b: int)
    requires AccountDir(a) == AccountDir(b)
    ensures a == b
  {
    assert IntToString(a) == AccountDir(a)[|AccountDirPrefix|..];
    assert IntToString(b) == AccountDir(b)[|AccountDirPrefix|..];
    IntToStringInjective(a, b);
  }

  /** Distinct (account, endpoint, filename) triples get distinct JSON paths. */
  lemma JsonPathInjective(root: Path, a1: int, e1: string, f1: string, a2: int, e2: string, f2: string)
    requires JsonPath(root, a1, e1, f1) == JsonPath(root, a2, e2, f2)
    ensures a1 == a2 && e1 == e2 && f1 == f2
  {
    var p := JsonPath(root, a1, e1, f1);
    assert p[|root|] == AccountDir(a1) && p[|root| + 1] == e1 && p[|root| + 2] == f1;
    assert JsonPath(root, a2, e2, f2)[|root|] == AccountDir(a2);
    AccountDirInjective(a1, a2);
  }

  /** JSON files, artifacts, the accounts list and the manifest never share a path. */
  lemma PathKindsDisjoint(root: Path, a1: int, e1: string, f1: string, a2: int, e2: string, f2: string)
    ensures JsonPath(root, a1, e1, f1) != ArtifactPath(root, a2, e2, f2)
    ensures JsonPath(root, a1, e1, f1) != AccountsPath(root) && JsonPath(root, a1, e1, f1) != ManifestPath(root)
    ensures ArtifactPath(root, a2, e2, f2) != AccountsPath(root) && ArtifactPath(root, a2, e2, f2) != ManifestPath(root)
    ensures AccountsPath(root) != ManifestPath(root)
  {
    assert |JsonPath(root, a1, e1, f1)| == |root| + 3;
    assert |ArtifactPath(root, a2, e2, f2)| == |root| + 4;
    assert AccountsPath(root)[|root|] != ManifestPath(root)[|root|];
  }

  /** `_get_manifest_key`: `"<endpoint>:<artifact>"`. */
  function ManifestKey(endpoint: string, artifactId: string): string
  {
    endpoint + ":" + artifactId
  }

  /** Keys of endpoints whose names hold no colon identify the endpoint and
      the artifact. */
  lemma ManifestKeyInjective(e1: string, a1: string, e2: string, a2: string)
    requires ':' !in e1 && ':' !in e2
    requires ManifestKey(e1, a1) == ManifestKey(e2, a2)
    ensures e1 == e2 && a1 == a2
  {
    var k := ManifestKey(e1, a1);
    assert forall i :: 0 <= i < |e1| ==> k[i] == e1[i];
    assert forall i :: 0 <= i < |e2| ==> k[i] == e2[i];
    assert k[|e1|] == ':' && k[|e2|] == ':';
    assert |e1| == |e2|;
    assert e1 == k[..|e1|] == e2;
    assert a1 == k[|e1| + 1..] == a2;
  }

  /** `_get_manifest_hash`: the hash recorded for an artifact, with a missing
      account or key reading as None. */
  function ManifestHash(manifest: Manifest, accountId: int, endpoint: string, artifactId: string): (r: Option<string>)
    ensures r.None? <==> (IntToString(accountId) !in manifest
      || ManifestKey(endpoint, artifactId) !in manifest[IntToString(accountId)])
    ensures r.Some? ==> r.value == manifest[IntToString(accountId)][ManifestKey(endpoint, artifactId)]
  {
    var acct := IntToString(accountId);
    var entries := if acct in manifest then manifest[acct] else map[];
    var key := ManifestKey(endpoint, artifactId);
    if key in entries then Some(entries[key]) else None
  }

  /** The manifest the writer starts with: the one on disk, or an empty one
      when the file is missing or unreadable. */
  function LoadManifest(disk: map<Path, FileContent>, root: Path): Manifest
  {
    var p := ManifestPath(root);
    if p in disk && disk[p].ManifestFile? then disk[p].manifest else map[]
  }

  /** The hash `write_binary` records: the one supplied, else the digest of the bytes. */
  function ResolveHash(sha256: seq<byte> -> string, content: seq<byte>, contentHash: Option<string>): string
  {
    if contentHash.None? then sha256(content) else contentHash.value
  }

  /** `should_download_binary`: the artifact is missing on disk, or its
      manifest hash is missing or differs from `contentHash`. */
  predicate NeedsDownload(files: map<Path, FileContent>, manifest: Manifest, root: Path,
    accountId: int, endpoint: string, artifactId: string, filename: string, contentHash: string)
  {
    if ArtifactPath(root, accountId, endpoint, filename) !in files then true
    else ManifestHash(manifest, accountId, endpoint, artifactId) != Some(contentHash)
  }

  /** The manifest with one entry set, creating the account's table if needed. */
  function RecordHash(manifest: Manifest, accountId: int, endpoint: string, artifactId: string, hash: string): Manifest
  {
    var acct := IntToString(accountId);
    var entries := if acct in manifest then manifest[acct] else map[];
    manifest[acct := entries[ManifestKey(endpoint, artifactId) := hash]]
  }

  /** The effect of a binary write: the path written (None when skipped), the
      files and the manifest afterwards. */
  datatype BinaryWrite = BinaryWrite(written: Option<Path>, files: map<Path, FileContent>, manifest: Manifest)

  /** `write_binary` with the hash already resolved: skip when the file exists
      and its recorded hash is `hash`, else write the bytes, record the hash
      and save the manifest. */
  function WriteBinaryEffect(files: map<Path, FileContent>, manifest: Manifest, root: Path,
    accountId: int, endpoint: string, artifactId: string, filename: string, content: seq<byte>, hash: string): BinaryWrite
  {
    var p := ArtifactPath(root, accountId, endpoint, filename);
    if p in files && ManifestHash(manifest, accountId, endpoint, artifactId) == Some(hash) then
      BinaryWrite(None, files, manifest)
    else
      var m := RecordHash(manifest, accountId, endpoint, artifactId, hash);
      BinaryWrite(Some(p), files[p := BinaryFile(content)][ManifestPath(root) := ManifestFile(m)], m)
  }

  /** A binary write is skipped exactly when the pre-check says no download is needed. */
  lemma SkipIffNoDownload(files: map<Path, FileContent>, manifest: Manifest, root: Path,
    accountId: int, endpoint: string, artifactId: string, filename: string, content: seq<byte>, hash: string)
    ensures WriteBinaryEffect(files, manifest, root, accountId, endpoint, artifactId, filename, content, hash).written.None?
      <==> !NeedsDownload(files, manifest, root, accountId, endpoint, artifactId, filename, hash)
  {
  }

  /** A skipped write changes neither the files nor the manifest. */
  lemma SkipChangesNothing(files: map<Path, FileContent>, manifest: Manifest, root: Path,
    accountId: int, endpoint: string, artifactId: string, filename: string, content: seq<byte>, hash: string)
    requires !NeedsDownload(files, manifest, root, accountId, endpoint, artifactId, filename, hash)
    ensures WriteBinaryEffect(files, manifest, root, accountId, endpoint, artifactId, filename, content, hash)
      == BinaryWrite(None, files, manifest)
  {
  }

  /**
   * A write that is not skipped stores the bytes at the artifact path,
   * records the hash under the account and "endpoint:artifact", saves the
   * manifest, and leaves every other file and every other manifest entry as
   * it was.
   */
  lemma WriteRecordsHash(files: map<Path, FileContent>, manifest: Manifest, root: Path,
    accountId: int, endpoint: string, artifactId: string, filename: string, content: seq<byte>, hash: string)
    requires NeedsDownload(files, manifest, root, accountId, endpoint, artifactId, filename, hash)
    ensures var w := WriteBinaryEffect(files, manifest, root, accountId, endpoint, artifactId, filename, content, hash);
      var p := ArtifactPath(root, accountId, endpoint, filename);
      && w.written == Some(p)
      && p in w.files && w.files[p] == BinaryFile(content)
      && ManifestPath(root) in w.files && w.files[ManifestPath(root)] == ManifestFile(w.manifest)
      && ManifestHash(w.manifest, accountId, endpoint, artifactId) == Some(hash)
      && (forall q :: q != p && q != ManifestPath(root) ==> ((q in w.files <==> q in files)
            && (q in files ==> w.files[q] == files[q])))
      && (forall a, e, x :: (IntToString(a) != IntToString(accountId) || ManifestKey(e, x) != ManifestKey(endpoint, artifactId))
            ==> ManifestHash(w.manifest, a, e, x) == ManifestHash(manifest, a, e, x))
  {
    var w := WriteBinaryEffect(files, manifest, root, accountId, endpoint, artifactId, filename, content, hash);
    PathKindsDisjoint(root, 0, "", "", accountId, endpoint, filename);
  }

  /** After a write, the same artifact with the same hash needs no download. */
  lemma WrittenNeedsNoDownload(files: map<Path, FileContent>, manifest: Manifest, root: Path,
    accountId: int, endpoint: string, artifactId: string, filename: string, content: seq<byte>, hash: string)
    ensures var w := WriteBinaryEffect(files, manifest, root, accountId, endpoint, artifactId, filename, content, hash);
      !NeedsDownload(w.files, w.manifest, root, accountId, endpoint, artifactId, filename, hash)
  {
    if NeedsDownload(files, manifest, root, accountId, endpoint, artifactId, filename, hash) {
      WriteRecordsHash(files, manifest, root, accountId, endpoint, artifactId, filename, content, hash);
    }
  }

  /** Writing the same artifact twice with the same hash skips the second write. */
  lemma SecondWriteSkipped(files: map<Path, FileContent>, manifest: Manifest, root: Path,
    accountId: int, endpoint: string, artifactId: string, filename: string, content: seq<byte>, content2: seq<byte>, hash: string)
    ensures var w := WriteBinaryEffect(files, manifest, root, accountId, endpoint, artifactId, filename, content, hash);
      WriteBinaryEffect(w.files, w.manifest, root, accountId, endpoint, artifactId, filename, content2, hash)
        == BinaryWrite(None, w.files, w.manifest)
  {
    WrittenNeedsNoDownload(files, manifest, root, accountId, endpoint, artifactId, filename, content, hash);
  }

  /** A missing file needs a download whatever the manifest says; an existing
      file needs one when the manifest has no entry for it. */
  lemma DownloadWhenMissing(files: map<Path, FileContent>, manifest: Manifest, root: Path,
    accountId: int, endpoint: string, artifactId: string, filename: string, hash: string)
    ensures ArtifactPath(root, accountId, endpoint, filename) !in files ==>
      NeedsDownload(files, manifest, root, accountId, endpoint, artifactId, filename, hash)
    ensures ManifestHash(manifest, accountId, endpoint, artifactId).None? ==>
      NeedsDownload(files, manifest, root, accountId, endpoint, artifactId, filename, hash)
  {
  }

  /** The writer object: the output directory, the digest it uses, the disk
      below it and the manifest it keeps in memory. */
  class BackupWriter {
    const root: Path
    const sha256: seq<byte> -> string
    var files: map<Path, FileContent>
    var manifest: Manifest

    /** Opens the output directory, loading the manifest found there. */
    constructor(root: Path, sha256: seq<byte> -> string, disk: map<Path, FileContent>)
      ensures this.root == root && this.sha256 == sha256
      ensures files == disk && manifest == LoadManifest(disk, root)
    {
      this.root := root;
      this.sha256 := sha256;
      files := disk;
      manifest := LoadManifest(disk, root);
    }

    /** `write_json`: stores the document at its JSON path; nothing else changes. */
    method WriteJson(accountId: int, endpoint: string, filename: string, data: Json) returns (p: Path)
      modifies this
      ensures p == JsonPath(root, accountId, endpoint, filename)
      ensures files == old(files)[p := JsonFile(data)] && manifest == old(manifest)
    {
      p := JsonPath(root, accountId, endpoint, filename);
      files := files[p := JsonFile(data)];
    }

    /** `write_binary`: skip or write, then record the hash. */
    method WriteBinary(accountId: int, endpoint: string, artifactId: string, filename: string,
      content: seq<byte>, contentHash: Option<string>) returns (written: Option<Path>)
      modifies this
      ensures BinaryWrite(written, files, manifest) == WriteBinaryEffect(old(files), old(manifest), root,
        accountId, endpoint, artifactId, filename, content, ResolveHash(sha256, content, contentHash))
    {
      var p := ArtifactPath(root, accountId, endpoint, filename);
      var hash := if contentHash.None? then sha256(content) else contentHash.value;
      if p in files {
        var existing := ManifestHash(manifest, accountId, endpoint, artifactId);
        if existing == Some(hash) {
          return None;
        }
      }
      files := files[p := BinaryFile(content)];
      var acct := IntToString(accountId);
      if acct !in manifest {
        manifest := manifest[acct := map[]];
      }
      manifest := manifest[acct := manifest[acct][ManifestKey(endpoint, artifactId) := hash]];
      assert manifest == RecordHash(old(manifest), accountId, endpoint, artifactId, hash);
      files := files[ManifestPath(root) := ManifestFile(manifest)];
      written := Some(p);
    }

    /** `write_accounts_list`: `{"accounts": [...]}` at the top of the output. */
    method WriteAccountsList(accounts: seq<Json>) returns (p: Path)
      modifies this
      ensures p == AccountsPath(root)
      ensures files == old(files)[p := JsonFile(JObj([("accounts", JArr(accounts))]))] && manifest == old(manifest)
    {
      p := AccountsPath(root);
      files := files[p := JsonFile(JObj([("accounts", JArr(accounts))]))];
    }
  }
}
