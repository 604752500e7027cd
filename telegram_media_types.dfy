/** Telegram media classification: the type of a message's media and where it is stored. */
module TelegramMediaTypes {
  import opened Wrappers
  import Paths

  datatype MediaType = Photo | Video | Animation | VideoNote | Audio | Voice | Document | Unknown

  /** `is_supported`: every type except UNKNOWN can be downloaded. */
  predicate IsSupported(t: MediaType) {
    t != Unknown
  }

  /** The storage subdirectory of each media type. */
  function Subdir(t: MediaType): (r: string)
    ensures r == "images" <==> t == Photo
    ensures r == "videos" <==> t == Video
    ensures r == "gifs" <==> t == Animation
    ensures r == "audios" <==> t == Audio || t == Voice
    ensures r == "unknown" <==> t == Unknown
    ensures r == "documents" <==> t == VideoNote || t == Document
  {
    match t
    case Photo => "images"
    case Video => "videos"
    case Animation => "gifs"
    case Audio | Voice => "audios"
    case Unknown => "unknown"
    case _ => "documents"
  }

  /** The separator `Path(base) / "telegram"` puts after the base: none after a root or an empty base. */
  function BaseSep(base: string): string {
    if base == [] || base[|base| - 1] == '/' then "" else "/"
  }

  /**
    `storage_dir`: `Path(storage_directory) / "telegram" / subdir`. The base directory is
    the one from the Twitter settings, so both downloaders share one storage root.
  */
  function StorageDir(t: MediaType, twitterStorageDirectory: string): (r: string)
    ensures |r| > |twitterStorageDirectory| + 9 && r[|r| - 1] != '/'
  {
    Paths.PathJoin(Paths.PathJoin(twitterStorageDirectory, "telegram"), Subdir(t))
  }

  /**
    The storage directory reads: the base, one slash unless the base already ends in
    one, then `telegram/`, then the type's subdirectory.
  */
  lemma StorageDirParts(t: MediaType, base: string)
    ensures var r := StorageDir(t, base); var n := |base| + |BaseSep(base)|;
      && r[..|base|] == base
      && r[|base|..n] == BaseSep(base)
      && r[n..n + 9] == "telegram/"
      && r[n + 9..] == Subdir(t)
  {
    var sep := BaseSep(base);
    var sub := Subdir(t);
    var mid := Paths.PathJoin(base, "telegram");
    assert mid == base + sep + "telegram";
    var r := base + sep + "telegram/" + sub;
    assert StorageDir(t, base) == mid + "/" + sub == r;
    var n := |base| + |sep|;
    assert r[..|base|] == base;
    assert r[|base|..n] == sep;
    assert r[n..n + 9] == "telegram/";
    assert r[n + 9..] == sub;
  }

  /** Two types share a storage directory exactly when they share a subdirectory. */
  lemma StorageDirShared(a: MediaType, b: MediaType, base: string)
    ensures StorageDir(a, base) == StorageDir(b, base) <==> Subdir(a) == Subdir(b)
  {
    var n := |base| + |BaseSep(base)| + 9;
    StorageDirParts(a, base);
    StorageDirParts(b, base);
    if StorageDir(a, base) == StorageDir(b, base) {
      assert StorageDir(a, base)[n..] == StorageDir(b, base)[n..];
    }
  }

  /** The media shortcuts of a message that `from_message` tests, as presence flags. */
  datatype MessageFlags = MessageFlags(
    photo: bool, video: bool, gif: bool, videoNote: bool, audio: bool, voice: bool, document: bool)

  /** `from_message`: the first flag set in priority order, or UNKNOWN. */
  function FromMessage(m: MessageFlags): MediaType {
    if m.photo then Photo
    else if m.video then Video
    else if m.gif then Animation
    else if m.videoNote then VideoNote
    else if m.audio then Audio
    else if m.voice then Voice
    else if m.document then Document
    else Unknown
  }

  /** The flags of a message paired with the type each one selects, in priority order. */
  function Priority(m: MessageFlags): seq<(bool, MediaType)> {
    [(m.photo, Photo), (m.video, Video), (m.gif, Animation), (m.videoNote, VideoNote),
     (m.audio, Audio), (m.voice, Voice), (m.document, Document)]
  }

  /** The type of the first set flag in a priority list. */
  function FirstSet(p: seq<(bool, MediaType)>): MediaType {
    if p == [] then Unknown else if p[0].0 then p[0].1 else FirstSet(p[1..])
  }

  /**
    `from_message` picks the highest-priority flag set, and is UNKNOWN (so not supported)
    exactly when no flag is set.
  */
  lemma FromMessagePriority(m: MessageFlags)
    ensures FromMessage(m) == FirstSet(Priority(m))
    ensures FromMessage(m) == Unknown <==> forall i :: 0 <= i < 7 ==> !Priority(m)[i].0
    ensures IsSupported(FromMessage(m)) <==> m.photo || m.video || m.gif || m.videoNote || m.audio || m.voice || m.document
  {
    var p := Priority(m);
    assert p[0..] == p;
    FirstSetStep(p, 0); FirstSetStep(p, 1); FirstSetStep(p, 2); FirstSetStep(p, 3);
    FirstSetStep(p, 4); FirstSetStep(p, 5); FirstSetStep(p, 6);
    assert p[7..] == [];
  }

  lemma FirstSetStep(p: seq<(bool, MediaType)>, k: nat)
    requires k < |p|
    ensures FirstSet(p[k..]) == if p[k].0 then p[k].1 else FirstSet(p[k + 1..])
  {
    assert p[k..][1..] == p[k + 1..];
  }

  /**
    The parts of a Telegram message that the downloader and the bot read: its id, its
    album id, its media object (absent when the message has none), the media shortcuts,
    the view-once timer of the media and `str(message)`.
  */
  datatype Message = Message(
    id: int, groupedId: Option<int>, media: Option<Media>, flags: MessageFlags,
    ttlSeconds: Option<int>, printed: string)

  /** One attribute lookup on the media object: absent, present without an id, or an id. */
  datatype Attr = Absent | NoId | HasId(id: int)

  /** The media object of a message, as its attributes in the order `get_media_if` tries them. */
  datatype Media = Media(
    photo: Attr, document: Attr, video: Attr, audio: Attr, voice: Attr, gif: Attr, videoNote: Attr)

  /** The outcome of reading `.id` from a present attribute. */
  function IdOf(a: Attr): Result<Option<int>, string>
    requires !a.Absent?
  {
    if a.HasId? then Success(Some(a.id)) else Failure("AttributeError")
  }

  /**
    `get_media_if`: None without media; otherwise the id of the first attribute present.
    Reading the id of an attribute that has none raises.
  */
  function GetMediaIf(media: Option<Media>): Result<Option<int>, string> {
    match media
    case None => Success(None)
    case Some(m) =>
      if !m.photo.Absent? then IdOf(m.photo)
      else if !m.document.Absent? then IdOf(m.document)
      else if !m.video.Absent? then IdOf(m.video)
      else if !m.audio.Absent? then IdOf(m.audio)
      else if !m.voice.Absent? then IdOf(m.voice)
      else if !m.gif.Absent? then IdOf(m.gif)
      else if !m.videoNote.Absent? then IdOf(m.videoNote)
      else Success(None)
  }

  function AttrOrder(m: Media): seq<Attr> {
    [m.photo, m.document, m.video, m.audio, m.voice, m.gif, m.videoNote]
  }

  /** The first attribute in a list that is present. */
  function FirstPresent(attrs: seq<Attr>): (r: Option<Attr>)
    ensures r.Some? ==> !r.value.Absent? && r.value in attrs
    ensures r.None? ==> forall j :: 0 <= j < |attrs| ==> attrs[j].Absent?
  {
    if attrs == [] then None
    else if !attrs[0].Absent? then Some(attrs[0])
    else FirstPresent(attrs[1..])
  }

  lemma FirstPresentStep(attrs: seq<Attr>, k: nat)
    requires k < |attrs|
    ensures FirstPresent(attrs[k..]) == if !attrs[k].Absent? then Some(attrs[k]) else FirstPresent(attrs[k + 1..])
  {
    assert attrs[k..][1..] == attrs[k + 1..];
  }

  /** `get_media_if` answers with the id of the first present attribute in its fixed order. */
  lemma GetMediaIfFirstPresent(m: Media)
    ensures FirstPresent(AttrOrder(m)).None? ==> GetMediaIf(Some(m)) == Success(None)
    ensures FirstPresent(AttrOrder(m)).Some? ==> GetMediaIf(Some(m)) == IdOf(FirstPresent(AttrOrder(m)).value)
  {
    var a := AttrOrder(m);
    assert a[0..] == a;
    FirstPresentStep(a, 0); FirstPresentStep(a, 1); FirstPresentStep(a, 2); FirstPresentStep(a, 3);
    FirstPresentStep(a, 4); FirstPresentStep(a, 5); FirstPresentStep(a, 6);
    assert a[7..] == [];
  }
}
