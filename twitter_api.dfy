/**
  Turning the tweets of a likes timeline page into media descriptors: the media list of a
  tweet, the key of each entry, the photo URL at original size, the best MP4 variant of a
  video, and the accumulation of a whole page in tweet order.
*/
module TwitterApi {
  import opened Wrappers
  import opened Text
  import opened TwitterModels

  /** One entry of `video_info.variants`. */
  datatype Variant = Variant(contentType: string, bitrate: Option<int>, url: string)

  /**
    One entry of a tweet's media list, each field as `pydash.get` finds it (None when the
    path is absent); absent `video_info.variants` reads as no variants.
  */
  datatype RawMedia = RawMedia(
    mtype: Option<string>, mediaKey: Option<string>, idStr: Option<string>, id: Option<int>,
    mediaUrlHttps: Option<string>, mediaUrl: Option<string>,
    variants: seq<Variant>, durationMillis: Option<int>)

  /** A tweet's `legacy.extended_entities.media` and `legacy.entities.media`. */
  datatype Tweet = Tweet(extendedMedia: Option<seq<RawMedia>>, entitiesMedia: Option<seq<RawMedia>>)

  /** The data of one likes timeline response: its tweets and its bottom cursor. */
  datatype LikesPage = LikesPage(tweets: seq<Tweet>, bottom: Option<string>)

  /** Python truth of an optional string: present and non-empty. */
  predicate Truthy(s: Option<string>) {
    s.Some? && s.value != []
  }

  /** `extended_entities.media or entities.media or []`: an empty list falls through too. */
  function MediaSource(t: Tweet): (r: seq<RawMedia>)
    ensures t.extendedMedia.Some? && t.extendedMedia.value != [] ==> r == t.extendedMedia.value
    ensures r != [] ==> Some(r) == t.extendedMedia || Some(r) == t.entitiesMedia
    ensures r == [] ==> (t.extendedMedia.None? || t.extendedMedia.value == [])
                        && (t.entitiesMedia.None? || t.entitiesMedia.value == [])
  {
    if t.extendedMedia.Some? && t.extendedMedia.value != [] then t.extendedMedia.value
    else if t.entitiesMedia.Some? && t.entitiesMedia.value != [] then t.entitiesMedia.value
    else []
  }

  /** `media_key or id_str or str(id)`; an absent id renders as "None". The key is never empty. */
  function MediaKey(m: RawMedia): (r: string)
    ensures r != []
    ensures Truthy(m.mediaKey) ==> r == m.mediaKey.value
    ensures !Truthy(m.mediaKey) && Truthy(m.idStr) ==> r == m.idStr.value
  {
    if Truthy(m.mediaKey) then m.mediaKey.value
    else if Truthy(m.idStr) then m.idStr.value
    else match m.id
      case None => "None"
      case Some(i) => IntToString(i)
  }

  predicate IsMp4(v: Variant) {
    v.contentType == "video/mp4"
  }

  /** `v.bitrate or -1`: a missing or zero bitrate ranks below every real one. */
  function Rank(v: Variant): int {
    if v.bitrate.Some? && v.bitrate.value != 0 then v.bitrate.value else -1
  }

  /**
    `max(mp4s, key=rank, default=None)`: the index of the first MP4 variant of highest
    rank, or None when there is no MP4 variant.
  */
  function BestIndex(vs: seq<Variant>): (r: Option<nat>)
    ensures r.None? <==> forall i :: 0 <= i < |vs| ==> !IsMp4(vs[i])
    ensures r.Some? ==> r.value < |vs| && IsMp4(vs[r.value])
    ensures r.Some? ==> forall i :: 0 <= i < |vs| && IsMp4(vs[i]) ==> Rank(vs[i]) <= Rank(vs[r.value])
    ensures r.Some? ==> forall i :: 0 <= i < r.value && IsMp4(vs[i]) ==> Rank(vs[i]) < Rank(vs[r.value])
  {
    if vs == [] then None
    else
      var init := vs[..|vs| - 1];
      var last := |vs| - 1;
      var b := BestIndex(init);
      assert forall i :: 0 <= i < last ==> vs[i] == init[i];
      if !IsMp4(vs[last]) then b
      else if b.None? || Rank(vs[last]) > Rank(vs[b.value]) then Some(last)
      else b
  }

  /** Python truth of an optional number: present and non-zero (`x or None`). */
  function NonZero(x: Option<int>): (r: Option<int>)
    ensures r.Some? ==> r == x && r.value != 0
    ensures x.Some? && x.value != 0 ==> r == x
  {
    if x.Some? && x.value != 0 then x else None
  }

  /**
    One pass of the body of the loop in `extract_media`: None where the entry is skipped.
    Only "image", "video" and "photo" entries get through; a photo needs a URL and gets
    it at original size; a video needs an MP4 variant and takes the best one; an "image"
    entry fills neither branch and comes out without a URL, as kind `other`.
  */
  function Convert(m: RawMedia): (r: Option<MediaInfo>)
    ensures r.Some? ==> m.mtype.Some? && m.mtype.value in ["image", "video", "photo"]
    ensures r.Some? ==> r.value.id == MediaKey(m) && r.value.originalType == m.mtype.value
                        && r.value.kind == FromString(m.mtype.value)
    ensures m.mtype == Some("photo") ==> (r.Some? <==> Truthy(m.mediaUrlHttps) || Truthy(m.mediaUrl))
    ensures m.mtype == Some("photo") && Truthy(m.mediaUrlHttps) ==>
      r.Some? && r.value.url == Some(m.mediaUrlHttps.value + "?name=orig")
    ensures m.mtype == Some("photo") && !Truthy(m.mediaUrlHttps) && Truthy(m.mediaUrl) ==>
      r.Some? && r.value.url == Some(m.mediaUrl.value + "?name=orig")
    ensures m.mtype == Some("video") ==> (r.Some? <==> exists i :: 0 <= i < |m.variants| && IsMp4(m.variants[i]))
    ensures m.mtype == Some("video") && r.Some? ==>
      && BestIndex(m.variants).Some?
      && r.value.url == Some(m.variants[BestIndex(m.variants).value].url)
      && r.value.mimetype == Some("video/mp4")
    ensures m.mtype == Some("image") ==> r.Some? && r.value.url.None? && r.value.kind == Other
  {
    if m.mtype.None? || m.mtype.value !in ["image", "video", "photo"] then None
    else
      var t := m.mtype.value;
      var key := MediaKey(m);
      if t == "photo" then
        var url := if Truthy(m.mediaUrlHttps) then m.mediaUrlHttps else m.mediaUrl;
        if !Truthy(url) then None
        else Some(MediaInfo(key, Some(url.value + "?name=orig"), Image, t, None, None, None))
      else if t == "video" then
        match BestIndex(m.variants)
        case None => None
        case Some(k) =>
          var best := m.variants[k];
          Some(MediaInfo(key, Some(best.url), Video, t, NonZero(best.bitrate), NonZero(m.durationMillis),
                         Some(best.contentType)))
      else
        Some(MediaInfo(key, None, Other, t, None, None, None))
  }

  /** The descriptors a list of media entries gives, in entry order. */
  function Collected(ms: seq<RawMedia>): (r: seq<MediaInfo>)
    ensures |r| <= |ms|
  {
    if ms == [] then []
    else
      var tail := match Convert(ms[|ms| - 1]) case None => [] case Some(x) => [x];
      Collected(ms[..|ms| - 1]) + tail
  }

  /** `extract_media(tweet)`, specified. */
  function Extracted(t: Tweet): seq<MediaInfo> {
    Collected(MediaSource(t))
  }

  /** Every descriptor comes from an entry of the list that converts to it. */
  lemma {:induction false} CollectedFrom(ms: seq<RawMedia>, x: MediaInfo)
    requires x in Collected(ms)
    ensures exists i :: 0 <= i < |ms| && Convert(ms[i]) == Some(x)
  {
    var init := ms[..|ms| - 1];
    if x in Collected(init) {
      CollectedFrom(init, x);
      var i :| 0 <= i < |init| && Convert(init[i]) == Some(x);
      assert ms[i] == init[i];
    } else {
      assert Convert(ms[|ms| - 1]) == Some(x);
    }
  }

  /** Collecting keeps entry order: the descriptors of `a + b` are those of `a`, then those of `b`. */
  lemma {:induction false} CollectedAppend(a: seq<RawMedia>, b: seq<RawMedia>)
    ensures Collected(a + b) == Collected(a) + Collected(b)
    decreases |b|
  {
    if b == [] {
      assert a + b == a;
    } else {
      var init := b[..|b| - 1];
      assert (a + b)[..|a + b| - 1] == a + init;
      assert (a + b)[|a + b| - 1] == b[|b| - 1];
      CollectedAppend(a, init);
    }
  }

  /** No "animated_gif" entry ever comes out, although `extract_media` has a branch for it. */
  lemma NoAnimatedGif(ms: seq<RawMedia>, x: MediaInfo)
    requires x in Collected(ms)
    ensures x.originalType in ["image", "video", "photo"]
    ensures x.originalType != "animated_gif"
  {
    CollectedFrom(ms, x);
  }

  /**
    `extract_media(tweet)`: walks the tweet's media entries, skipping the unusable ones
    and appending a descriptor for each of the others.
  */
  method ExtractMedia(tweet: Tweet) returns (result: seq<MediaInfo>)
    ensures result == Extracted(tweet)
  {
    result := [];
    var medias := MediaSource(tweet);
    for i := 0 to |medias|
      invariant result == Collected(medias[..i])
    {
      assert medias[..i + 1][..i] == medias[..i];
      var m := medias[i];
      if m.mtype.None? || m.mtype.value !in ["image", "video", "photo"] {
        continue;
      }
      var mtype := m.mtype.value;
      var key := MediaKey(m);
      var url: Option<string> := None;
      var kind := FromString(mtype);
      var bitrate: Option<int> := None;
      var duration: Option<int> := None;
      var mimetype: Option<string> := None;
      if mtype == "photo" {
        var u := if Truthy(m.mediaUrlHttps) then m.mediaUrlHttps else m.mediaUrl;
        if !Truthy(u) {
          continue;
        }
        url := Some(u.value + "?name=orig");
      } else if mtype == "video" {
        var best := BestIndex(m.variants);
        if best.None? {
          continue;
        }
        var v := m.variants[best.value];
        url := Some(v.url);
        mimetype := Some(v.contentType);
        bitrate := NonZero(v.bitrate);
        duration := NonZero(m.durationMillis);
      }
      result := result + [MediaInfo(key, url, kind, mtype, bitrate, duration, mimetype)];
    }
    assert medias[..|medias|] == medias;
  }

  /** The lists `f` gives for the elements of `xs`, concatenated in order. */
  function FlatMap<T, U>(xs: seq<T>, f: T -> seq<U>): seq<U> {
    if xs == [] then [] else FlatMap(xs[..|xs| - 1], f) + f(xs[|xs| - 1])
  }

  /** Flattening distributes over concatenation. */
  lemma {:induction false} FlatMapAppend<T, U>(a: seq<T>, b: seq<T>, f: T -> seq<U>)
    ensures FlatMap(a + b, f) == FlatMap(a, f) + FlatMap(b, f)
    decreases |b|
  {
    if b == [] {
      assert a + b == a;
    } else {
      var init := b[..|b| - 1];
      assert (a + b)[..|a + b| - 1] == a + init;
      assert (a + b)[|a + b| - 1] == b[|b| - 1];
      FlatMapAppend(a, init, f);
    }
  }

  /** The media of a list of tweets, tweet after tweet. */
  function LikesMedias(ts: seq<Tweet>): seq<MediaInfo> {
    FlatMap(ts, Extracted)
  }

  /** Pages concatenate: the media of `a + b` are those of `a`, then those of `b`. */
  lemma {:induction false} LikesMediasAppend(a: seq<Tweet>, b: seq<Tweet>)
    ensures LikesMedias(a + b) == LikesMedias(a) + LikesMedias(b)
  {
    FlatMapAppend(a, b, Extracted);
  }

  /** Every descriptor of a page belongs to one of its tweets. */
  lemma {:induction false} LikesMediasFrom(ts: seq<Tweet>, x: MediaInfo)
    requires x in LikesMedias(ts)
    ensures exists i :: 0 <= i < |ts| && x in Extracted(ts[i])
  {
    var init := ts[..|ts| - 1];
    if x in LikesMedias(init) {
      LikesMediasFrom(init, x);
      var i :| 0 <= i < |init| && x in Extracted(init[i]);
      assert ts[i] == init[i];
    }
  }

  /**
    The processing part of `get_user_likes_medias`, given the data of the likes response:
    the media of every tweet in tweet order, and the bottom cursor (None when absent).
  */
  method GetUserLikesMedias(page: LikesPage) returns (result: seq<MediaInfo>, nextCursor: Option<string>)
    ensures result == LikesMedias(page.tweets)
    ensures nextCursor == page.bottom
  {
    nextCursor := page.bottom;
    result := [];
    for i := 0 to |page.tweets|
      invariant result == LikesMedias(page.tweets[..i])
    {
      assert page.tweets[..i + 1][..i] == page.tweets[..i];
      var medias := ExtractMedia(page.tweets[i]);
      result := result + medias;
    }
    assert page.tweets[..|page.tweets|] == page.tweets;
  }
}
