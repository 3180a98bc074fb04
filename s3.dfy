/** The string side of `S3Helper` (common/integration/aws/S3Helper.java):
    object keys, public URLs and the key recovered from a URL.  The S3 calls
    themselves are left out; a random UUID and the upload's original file
    name are parameters. */
module S3Storage {
  import opened Wrappers
  import opened Text

  /** The bucket and region read from configuration. */
  datatype S3Config = S3Config(bucketName: string, region: string)

  /** `StringUtils.getFilenameExtension`: the text after the last '.',
      unless there is no '.' or a '/' comes after it. */
  function FilenameExtension(path: Option<string>): (r: Option<string>)
    ensures path.None? ==> r.None?
    ensures r.Some? ==> exists i :: (0 <= i < |path.value| && path.value[i] == '.'
      && r.value == path.value[i + 1..])
    ensures r.Some? ==> forall k :: 0 <= k < |r.value| ==> r.value[k] != '.' && r.value[k] != '/'
    ensures path.Some? && r.None? ==> (LastIndexOfChar(path.value, '.') == -1
      || LastIndexOfChar(path.value, '/') > LastIndexOfChar(path.value, '.'))
  {
    if path.None? then None
    else
      var p := path.value;
      var dot := LastIndexOfChar(p, '.');
      if dot == -1 then None
      else if LastIndexOfChar(p, '/') > dot then None
      else
        Some(p[dot + 1..])
  }

  /** Java's `"" + x` on a possibly null string. */
  function ShowNullable(s: Option<string>): string
  {
    if s.None? then "null" else s.value
  }

  /** `generateKey`: the UUID, a dot and the extension ("null" when the name
      has none). */
  function GenerateKey(uuid: string, originalFilename: Option<string>): (r: string)
    ensures r == uuid + "." + ShowNullable(FilenameExtension(originalFilename))
  {
    uuid + "." + ShowNullable(FilenameExtension(originalFilename))
  }

  /** `generateKeyWithDirectory`: a directory with text is joined to the key
      by exactly one '/' of its own or an added one. */
  function GenerateKeyWithDirectory(directory: Option<string>, filename: Option<string>, uuid: string)
    : (r: string)
    ensures var key := GenerateKey(uuid, filename);
      if NullOrBlank(directory) then r == key
      else ((r == directory.value + key && EndsWith(directory.value, "/"))
            || (r == directory.value + "/" + key && !EndsWith(directory.value, "/")))
  {
    if !NullOrBlank(directory) then
      if EndsWith(directory.value, "/") then directory.value + GenerateKey(uuid, filename)
      else directory.value + "/" + GenerateKey(uuid, filename)
    else GenerateKey(uuid, filename)
  }

  /** With text in the directory, the key is preceded by a single '/' that
      ends the (possibly extended) directory. */
  lemma DirectoryJoinedBySlash(directory: string, filename: Option<string>, uuid: string)
    requires !IsBlank(directory)
    ensures var r := GenerateKeyWithDirectory(Some(directory), filename, uuid);
      var key := GenerateKey(uuid, filename);
      |r| > |key| && r[|r| - |key| - 1] == '/' && r[|r| - |key|..] == key
      && (r[..|r| - |key|] == directory || r[..|r| - |key|] == directory + "/")
  {
    var r := GenerateKeyWithDirectory(Some(directory), filename, uuid);
    var key := GenerateKey(uuid, filename);
    assert directory != [];
    if EndsWith(directory, "/") {
      assert r == directory + key;
      assert r[..|r| - |key|] == directory;
    } else {
      assert r == (directory + "/") + key;
      assert r[..|r| - |key|] == directory + "/";
    }
  }

  /** The host-and-path prefix up to the '/' before the key. */
  function UrlHost(config: S3Config): string
  {
    config.bucketName + ".s3." + config.region + ".amazonaws.com"
  }

  /** `generateFileUrl`: "https://{bucket}.s3.{region}.amazonaws.com/{key}". */
  function GenerateFileUrl(config: S3Config, key: string): (r: string)
    ensures r == "https://" + config.bucketName + ".s3." + config.region + ".amazonaws.com/" + key
  {
    "https://" + UrlHost(config) + "/" + key
  }

  /** `extractKeyFromUrl`: the text after the first ".com/"; without one,
      `indexOf` gives -1 and the first four characters are dropped, or the
      call throws when the URL is shorter than that. */
  function ExtractKeyFromUrl(url: Option<string>): (r: Result<string>)
    ensures url.None? ==> r == Fail(NullPointer)
    ensures url.Some? && IndexOf(url.value, ".com/") >= 0
      ==> r == Ok(url.value[IndexOf(url.value, ".com/") + 5..])
    ensures url.Some? && IndexOf(url.value, ".com/") == -1
      ==> r == (if |url.value| >= 4 then Ok(url.value[4..]) else Fail(StringIndexOutOfBounds))
  {
    if url.None? then Fail(NullPointer)
    else
      var start := IndexOf(url.value, ".com/") + 5;
      if start > |url.value| then Fail(StringIndexOutOfBounds) else Ok(url.value[start..])
  }

  /** No '/' in the text. */
  predicate NoSlash(s: string)
  {
    forall i :: 0 <= i < |s| ==> s[i] != '/'
  }

  /** The key is recovered from its URL whenever the bucket and the region
      hold no '/'. */
  lemma ExtractGeneratedKey(config: S3Config, key: string)
    requires NoSlash(config.bucketName) && NoSlash(config.region)
    ensures ExtractKeyFromUrl(Some(GenerateFileUrl(config, key))) == Ok(key)
  {
    var host := UrlHost(config);
    HostHasNoSlash(config);
    FirstComAfterHost(host, key);
    assert GenerateFileUrl(config, key) == "https://" + host + "/" + key;
  }

  /** The host holds no '/' when the bucket and the region hold none. */
  lemma HostHasNoSlash(config: S3Config)
    requires NoSlash(config.bucketName) && NoSlash(config.region)
    ensures NoSlash(UrlHost(config))
  {
    var a := config.bucketName + ".s3.";
    var b := a + config.region;
    var host := UrlHost(config);
    assert NoSlash(a) by {
      assert forall i :: 0 <= i < |a| ==> a[i] == if i < |config.bucketName| then config.bucketName[i] else ".s3."[i - |config.bucketName|];
    }
    assert NoSlash(b) by {
      assert forall i :: 0 <= i < |b| ==> b[i] == if i < |a| then a[i] else config.region[i - |a|];
    }
    assert host == b + ".amazonaws.com";
    assert forall i :: 0 <= i < |host| ==> host[i] == if i < |b| then b[i] else ".amazonaws.com"[i - |b|];
  }

  /** In "https://{host}/{key}" with a host ending in ".com" and holding no
      '/', the first ".com/" is the one that ends the host. */
  lemma FirstComAfterHost(host: string, key: string)
    requires NoSlash(host) && |host| >= 4 && host[|host| - 4..] == ".com"
    ensures var url := "https://" + host + "/" + key;
      IndexOf(url, ".com/") == 4 + |host| && url[9 + |host|..] == key
  {
    var url := "https://" + host + "/" + key;
    var m := 4 + |host|;
    assert url[m..m + 5] == ".com/";
    assert StartsWith(url[m..], ".com/");
    forall k | 0 <= k < m
      ensures !StartsWith(url[k..], ".com/")
    {
      if k + 4 < 8 {
        assert url[k] == "https://"[k];
      } else {
        assert url[k + 4] == host[k - 4];
      }
    }
    assert url[m + 5..] == key;
  }

  /** A '/' in the region can break the round trip: a region starting with
      "com/" puts a ".com/" in the host, and the extracted text is longer
      than the key. */
  lemma SlashInRegionBreaksExtract(bucket: string, rest: string, key: string)
    ensures ExtractKeyFromUrl(Some(GenerateFileUrl(S3Config(bucket, "com/" + rest), key))) != Ok(key)
  {
    var url := GenerateFileUrl(S3Config(bucket, "com/" + rest), key);
    var p := 8 + |bucket| + 3;
    assert url[p..p + 5] == ".com/";
    assert StartsWith(url[p..], ".com/");
    var idx := IndexOf(url, ".com/");
    assert 0 <= idx <= p;
  }

  /** Without ".com/" the first four characters are dropped. */
  lemma ExtractWithoutCom()
    ensures ExtractKeyFromUrl(Some("abcdef")) == Ok("ef")
    ensures ExtractKeyFromUrl(Some("abc")) == Fail(StringIndexOutOfBounds)
  {
    IndexOfAbsent("abcdef", ".com/");
    IndexOfAbsent("abc", ".com/");
  }

  /** `putObject(file, key)`: the key used is the given one, or a fresh one
      from the original file name; the result is that key's URL. */
  function PutObject(config: S3Config, key: Option<string>, originalFilename: Option<string>, uuid: string)
    : (url: string)
    ensures key.Some? ==> url == GenerateFileUrl(config, key.value)
    ensures key.None? ==> url == GenerateFileUrl(config, GenerateKey(uuid, originalFilename))
  {
    var fileKey := if key.Some? then key.value else GenerateKey(uuid, originalFilename);
    GenerateFileUrl(config, fileKey)
  }

  /** `putObject(file, directory, filename)`: the key is built under the
      directory from the given name, or else the original name. */
  function PutObjectInDirectory(config: S3Config, directory: Option<string>, filename: Option<string>,
                                originalFilename: Option<string>, uuid: string): (url: string)
    ensures url == GenerateFileUrl(config, GenerateKeyWithDirectory(directory,
                                   if filename.Some? then filename else originalFilename, uuid))
  {
    PutObject(config, Some(GenerateKeyWithDirectory(directory, if filename.Some? then filename else originalFilename, uuid)),
              originalFilename, uuid)
  }

  /** `deleteObject`: true exactly when the key could be taken from the URL
      and the storage call did not throw. */
  function DeleteObject(config: S3Config, fileUrl: Option<string>, storageSucceeds: bool): (deleted: bool)
    ensures deleted <==> ExtractKeyFromUrl(fileUrl).Ok? && storageSucceeds
  {
    match ExtractKeyFromUrl(fileUrl)
    case Fail(_) => false
    case Ok(_) => storageSucceeds
  }

  /** An object stored under a key can be deleted by the URL returned for
      it, when the storage call succeeds and the configuration holds no '/'. */
  lemma StoredObjectDeletable(config: S3Config, key: string)
    requires NoSlash(config.bucketName) && NoSlash(config.region)
    ensures DeleteObject(config, Some(PutObject(config, Some(key), None, "")), true)
  {
    ExtractGeneratedKey(config, key);
  }
}
