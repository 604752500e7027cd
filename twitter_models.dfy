/**
  Twitter media descriptors: the three media kinds, how the API's type names map onto
  them, which kinds the settings let through, the storage directory of each kind and the
  file extension a descriptor suggests.
*/
module TwitterModels {
  import opened Wrappers
  import opened Text
  import Url
  import Paths

  /** `MediaTypes`. */
  datatype MediaType = Image | Video | Other

  /** The part of the Twitter settings the models and the downloader read. */
  datatype Settings = Settings(storageDirectory: string, username: string, onlyImage: bool, onlyVideo: bool)

  /** `MediaInfo`: `url` is absent for the API's "image" entries (see `TwitterApi.Convert`). */
  datatype MediaInfo = MediaInfo(
    id: string, url: Option<string>, kind: MediaType, originalType: string,
    bitrate: Option<int>, duration: Option<int>, mimetype: Option<string>)

  /** `MediaTypes.from_string`: only the API's "photo" and "video" name a downloadable kind. */
  function FromString(typo: string): (r: MediaType)
    ensures r == Image <==> typo == "photo"
    ensures r == Video <==> typo == "video"
  {
    if typo == "photo" then Image
    else if typo == "video" then Video
    else Other
  }

  /** `MediaTypes.allow_download`. */
  function AllowDownload(s: Settings, m: MediaInfo): (r: bool)
    ensures r ==> m.kind != Other
    ensures !s.onlyImage && !s.onlyVideo ==> (r <==> m.kind != Other)
    ensures s.onlyImage && !s.onlyVideo ==> (r <==> m.kind == Image)
    ensures !s.onlyImage && s.onlyVideo ==> (r <==> m.kind == Video)
    ensures s.onlyImage && s.onlyVideo ==> !r
  {
    if m.kind == Image && !s.onlyVideo then true
    else if m.kind == Video && !s.onlyImage then true
    else
      assert m.kind == Image ==> s.onlyVideo;
      false
  }

  function Subdir(t: MediaType): string {
    match t
    case Image => "images"
    case Video => "videos"
    case Other => "others"
  }

  /** `Path(storage_directory) / username`. */
  function UserDir(s: Settings): string {
    Paths.PathJoin(s.storageDirectory, s.username)
  }

  /**
    `MediaTypes.storage_dir`: the kind's own directory under the user's directory; the
    three kinds never share one.
  */
  function StorageDir(s: Settings, t: MediaType): (r: string)
    ensures var base := UserDir(s);
      r == base + Subdir(t) || r == base + "/" + Subdir(t)
  {
    Paths.PathJoin(UserDir(s), Subdir(t))
  }

  /**
    An empty username adds no path component: the kind's directory sits directly in the
    storage directory, with no doubled slash.
  */
  lemma EmptyUsernameDir(s: Settings, t: MediaType)
    requires s.username == ""
    ensures StorageDir(s, t) == Paths.Join(s.storageDirectory, Subdir(t))
  {
  }

  lemma StorageDirsDistinct(s: Settings, t: MediaType, u: MediaType)
    requires t != u
    ensures StorageDir(s, t) != StorageDir(s, u)
  {
    var a := StorageDir(s, t);
    var b := StorageDir(s, u);
    StorageDirEnd(s, t);
    StorageDirEnd(s, u);
    assert a[|a| - 6] != b[|b| - 6];
  }

  /** A kind's directory ends in the kind's six-letter name. */
  lemma StorageDirEnd(s: Settings, t: MediaType)
    ensures var r := StorageDir(s, t); |r| >= 6 && r[|r| - 6..] == Subdir(t)
  {
  }

  /** The parts of a POSIX path from the end, skipping empty and `.` parts: `PurePosixPath.name`. */
  function LastName(parts: seq<string>): (r: string)
    ensures r != "."
    ensures r == [] || r in parts
  {
    if parts == [] then ""
    else
      var last := parts[|parts| - 1];
      if last == [] || last == "." then LastName(parts[..|parts| - 1]) else last
  }

  function Name(path: string): (r: string)
    ensures '/' !in r
  {
    var r := LastName(Split(path, '/'));
    assert r == [] || r in Split(path, '/');
    r
  }

  /**
    `PurePosixPath(...).suffix` of a final component: from its last dot, provided that dot
    is neither the first nor the last character.
  */
  function Suffix(name: string): (r: string)
    ensures r == [] || (2 <= |r| < |name| && r[0] == '.' && r == name[|name| - |r|..])
    ensures forall j :: 1 <= j < |r| ==> r[j] != '.'
  {
    var i := Paths.RFind(name, '.');
    if 0 < i < |name| - 1 then name[i..] else ""
  }

  /**
    `MediaInfo.extension`: the extension a known mimetype guesses wins; otherwise the URL
    path decides, and the result is "" when the path has no suffix and None when it has
    one. A URL that `urlparse` rejects raises. An absent URL reads as an empty path.
  */
  function Extension(m: MediaInfo, guess: string -> Option<string>): (r: Result<Option<string>, string>)
    ensures m.mimetype.Some? && guess(m.mimetype.value).Some? ==> r == Success(guess(m.mimetype.value))
    ensures r.Success? && r.value.Some? && r.value.value != "" ==>
      m.mimetype.Some? && r.value == guess(m.mimetype.value)
  {
    if m.mimetype.Some? && guess(m.mimetype.value).Some? then Success(guess(m.mimetype.value))
    else
      match Url.UrlParse(m.url.GetOr(""))
      case Failure(e) => Failure(e)
      case Success(p) =>
        var suffix := Suffix(Name(p.path));
        Success(if suffix == [] then Some("") else None)
  }

  /** Without a mimetype guess, a URL path with a suffix gives None, one without gives "". */
  lemma ExtensionFallback(m: MediaInfo, guess: string -> Option<string>, p: Url.ParsedUrl)
    requires m.mimetype.None? || guess(m.mimetype.value).None?
    requires Url.UrlParse(m.url.GetOr("")) == Success(p)
    ensures Suffix(Name(p.path)) != [] ==> Extension(m, guess) == Success(None)
    ensures Suffix(Name(p.path)) == [] ==> Extension(m, guess) == Success(Some(""))
  {
  }

  /** The name of `/dir/file` is `file`. */
  lemma NameOfFile(dir: string, file: string)
    requires '/' !in dir && '/' !in file && file != [] && file != "."
    ensures Name("/" + (dir + "/" + file)) == file
  {
    var path := "/" + (dir + "/" + file);
    assert path == "" + ['/'] + (dir + ['/'] + file);
    SplitAt("", '/', dir + ['/'] + file);
    SplitAt(dir, '/', file);
    SplitNone(file, '/');
    assert Split(path, '/') == ["", dir, file];
  }

  /** The suffix of `F1.jpg` is `.jpg`. */
  lemma PhotoNameSuffix()
    ensures Suffix("F1.jpg") == ".jpg"
  {
    var name := "F1.jpg";
    assert name[..5] == "F1.jp" && "F1.jp"[..4] == "F1.j" && "F1.j"[..3] == "F1.";
    assert Paths.RFind("F1.", '.') == 2;
    assert Paths.RFind("F1.j", '.') == 2;
    assert Paths.RFind("F1.jp", '.') == 2;
    assert Paths.RFind(name, '.') == 2;
    assert name[2..] == ".jpg";
  }

  /** `https://host/dir/file?query` parses to the path `/dir/file` and the query. */
  lemma FileUrlParse(url: string, host: string, dir: string, file: string, query: string)
    requires url == "https://" + host + "/" + (dir + "/" + file) + "?" + query
    requires forall j :: 0 <= j < |host| ==> host[j] != '/' && host[j] != '?' && host[j] != '#'
    requires forall j :: 0 <= j < |host| ==> !Url.IsUnsafe(host[j]) && host[j] != '[' && host[j] != ']'
    requires forall j :: 0 <= j < |dir + "/" + file| ==>
      var c := (dir + "/" + file)[j]; !Url.IsUnsafe(c) && c != '?' && c != '#' && c != ';'
    requires forall j :: 0 <= j < |query| ==> !Url.IsUnsafe(query[j]) && query[j] != '#'
    ensures Url.UrlParse(url) == Success(Url.ParsedUrl("https", host, "/" + (dir + "/" + file), "", query, ""))
  {
    var path := dir + "/" + file;
    assert url == "https://" + host + "/" + path + ("?" + query);
    Url.HttpsParts(url, host, path, Some(query));
  }

  /**
    Without a mimetype, a URL `https://host/dir/file?query` whose file name has a suffix
    gives no extension at all.
  */
  lemma SuffixedUrlHasNoExtension(
    m: MediaInfo, guess: string -> Option<string>, host: string, dir: string, file: string, query: string)
    requires m.mimetype.None?
    requires m.url == Some("https://" + host + "/" + (dir + "/" + file) + "?" + query)
    requires forall j :: 0 <= j < |host| ==> host[j] != '/' && host[j] != '?' && host[j] != '#'
    requires forall j :: 0 <= j < |host| ==> !Url.IsUnsafe(host[j]) && host[j] != '[' && host[j] != ']'
    requires forall j :: 0 <= j < |dir + "/" + file| ==>
      var c := (dir + "/" + file)[j]; !Url.IsUnsafe(c) && c != '?' && c != '#' && c != ';'
    requires forall j :: 0 <= j < |query| ==> !Url.IsUnsafe(query[j]) && query[j] != '#'
    requires '/' !in dir && '/' !in file && file != [] && file != "."
    requires Suffix(file) != []
    ensures Extension(m, guess) == Success(None)
  {
    FileUrlParse(m.url.value, host, dir, file, query);
    NameOfFile(dir, file);
    ExtensionFallback(m, guess, Url.ParsedUrl("https", host, "/" + (dir + "/" + file), "", query, ""));
  }

  /**
    A photo as the API delivers it, `https://pbs.twimg.com/media/F1.jpg?name=orig` with no
    mimetype: its extension is None although the path ends in `.jpg`.
  */
  lemma PhotoExtensionIsNone(guess: string -> Option<string>)
    ensures var url := "https://" + "pbs.twimg.com" + "/" + ("media" + "/" + "F1.jpg") + "?" + "name=orig";
      Extension(MediaInfo("F1", Some(url), Image, "photo", None, None, None), guess) == Success(None)
  {
    var url := "https://" + "pbs.twimg.com" + "/" + ("media" + "/" + "F1.jpg") + "?" + "name=orig";
    var m := MediaInfo("F1", Some(url), Image, "photo", None, None, None);
    PhotoNameSuffix();
    SuffixedUrlHasNoExtension(m, guess, "pbs.twimg.com", "media", "F1.jpg", "name=orig");
  }
}
