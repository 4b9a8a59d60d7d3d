/**
 * The reply of the search backend: a `meta` block with a message and a
 * status, and a `data` block holding up to three result pages.
 */
module MessageResponses {
  import opened Wrappers
  import opened Json
  import opened SpotifyData

  datatype ResponseMetadata = ResponseMetadata(message: string, status: string)

  datatype ResponseData = ResponseData(albums: Option<AlbumMeta>, artists: Option<ArtistMeta>, tracks: Option<TrackMeta>)

  datatype MessageResponse = MessageResponse(meta: ResponseMetadata, data: ResponseData)

  /** `ResponseMetadata`: `message` and `status` are required strings. */
  function DecodeMetadata(j: Json): (r: Decoded<ResponseMetadata>)
    ensures !j.JObject? ==> r == Failure(if j.JNull? then ValueNotFound else TypeMismatch)
    ensures r.Success? ==> j.JObject? && Lookup(j.fields, "message") == Some(JString(r.value.message))
                                      && Lookup(j.fields, "status") == Some(JString(r.value.status))
  {
    match j
    case JObject(o) =>
      var message := Required(o, "message", AsString);
      var status := Required(o, "status", AsString);
      if message.Failure? then Failure(message.error)
      else if status.Failure? then Failure(status.error)
      else Success(ResponseMetadata(message.value, status.value))
    case JNull => Failure(ValueNotFound)
    case _ => Failure(TypeMismatch)
  }

  /** `ResponseData`: each of the three pages may be missing or null. */
  function DecodeResponseData(j: Json): (r: Decoded<ResponseData>)
    ensures !j.JObject? ==> r == Failure(if j.JNull? then ValueNotFound else TypeMismatch)
    ensures j.JObject? && Lookup(j.fields, "albums") in {None, Some(JNull)}
            && Lookup(j.fields, "artists") in {None, Some(JNull)} && Lookup(j.fields, "tracks") in {None, Some(JNull)}
            ==> r == Success(ResponseData(None, None, None))
  {
    match j
    case JObject(o) =>
      var albums := Optional(o, "albums", DecodeAlbumMeta);
      var artists := Optional(o, "artists", DecodeArtistMeta);
      var tracks := Optional(o, "tracks", DecodeTrackMeta);
      if albums.Failure? then Failure(albums.error)
      else if artists.Failure? then Failure(artists.error)
      else if tracks.Failure? then Failure(tracks.error)
      else Success(ResponseData(albums.value, artists.value, tracks.value))
    case JNull => Failure(ValueNotFound)
    case _ => Failure(TypeMismatch)
  }

  /** `MessageResponse`: `meta` and `data` are both required. */
  function DecodeMessageResponse(j: Json): (r: Decoded<MessageResponse>)
    ensures !j.JObject? ==> r == Failure(if j.JNull? then ValueNotFound else TypeMismatch)
    ensures r.Success? ==> j.JObject? && "meta" in j.fields && "data" in j.fields
                           && DecodeMetadata(j.fields["meta"]) == Success(r.value.meta)
                           && DecodeResponseData(j.fields["data"]) == Success(r.value.data)
  {
    match j
    case JObject(o) =>
      var meta := Required(o, "meta", DecodeMetadata);
      var data := Required(o, "data", DecodeResponseData);
      if meta.Failure? then Failure(meta.error)
      else if data.Failure? then Failure(data.error)
      else Success(MessageResponse(meta.value, data.value))
    case JNull => Failure(ValueNotFound)
    case _ => Failure(TypeMismatch)
  }
}

module MessageResponseProperties {
  import opened Wrappers
  import opened Json
  import opened SpotifyData
  import opened MessageResponses
  import SpotifyDataProperties

  /** An envelope without `meta` or without `data` does not decode. */
  lemma EnvelopeRequiresMetaAndData(ms: map<string, Json>)
    requires "meta" !in ms || "data" !in ms
    ensures DecodeMessageResponse(JObject(ms)).Failure?
  {
  }

  /** A decoded `meta` block found both of its strings. */
  lemma MetadataStrings(ms: map<string, Json>)
    requires DecodeMetadata(JObject(ms)).Success?
    ensures Lookup(ms, "message") == Some(JString(DecodeMetadata(JObject(ms)).value.message))
    ensures Lookup(ms, "status") == Some(JString(DecodeMetadata(JObject(ms)).value.status))
  {
  }

  /**
   * What a decoded `data` block holds: a facet is nil exactly when its key is
   * missing or null, and otherwise it is the page decoded from that key.
   */
  lemma ResponseDataFacets(ms: map<string, Json>)
    requires DecodeResponseData(JObject(ms)).Success?
    ensures var d := DecodeResponseData(JObject(ms)).value;
      && (d.albums.None? <==> Lookup(ms, "albums") in {None, Some(JNull)})
      && (d.albums.Some? ==> DecodeAlbumMeta(ms["albums"]) == Success(d.albums.value))
      && (d.artists.None? <==> Lookup(ms, "artists") in {None, Some(JNull)})
      && (d.artists.Some? ==> DecodeArtistMeta(ms["artists"]) == Success(d.artists.value))
      && (d.tracks.None? <==> Lookup(ms, "tracks") in {None, Some(JNull)})
      && (d.tracks.Some? ==> DecodeTrackMeta(ms["tracks"]) == Success(d.tracks.value))
  {
  }

  /** A `data` block holding only an artist page decodes with no albums and no tracks. */
  lemma OnlyArtists(ms: map<string, Json>, page: ArtistMeta)
    requires "albums" !in ms && "tracks" !in ms
    requires "artists" in ms && DecodeArtistMeta(ms["artists"]) == Success(page)
    ensures DecodeResponseData(JObject(ms)) == Success(ResponseData(None, Some(page), None))
  {
  }

  /** A present artist page with an empty item list is an empty list, not nil. */
  lemma EmptyArtistPage(ms: map<string, Json>, page: map<string, Json>,
                        href: string, limit: int, offset: int, total: int)
    requires IntMin <= limit <= IntMax && IntMin <= offset <= IntMax && IntMin <= total <= IntMax
    requires Lookup(page, "href") == Some(JString(href)) && Lookup(page, "items") == Some(JArray([]))
    requires Lookup(page, "limit") == Some(JNumber(limit as real))
    requires Lookup(page, "offset") == Some(JNumber(offset as real))
    requires Lookup(page, "total") == Some(JNumber(total as real))
    requires "next" !in page && "previous" !in page
    requires "albums" !in ms && "tracks" !in ms && Lookup(ms, "artists") == Some(JObject(page))
    ensures DecodeResponseData(JObject(ms)).Success?
    ensures DecodeResponseData(JObject(ms)).value.artists == Some(Page(href, [], limit, None, offset, None, total))
  {
    SpotifyDataProperties.EmptyPage(page, DecodeArtist, false, href, limit, offset, total);
  }

  /** A page with an item that does not decode does not decode. */
  lemma PageFailsOnBadItem<T>(page: map<string, Json>, dec: Json -> Decoded<T>, itemsLast: bool, i: nat)
    requires "items" in page && page["items"].JArray?
    requires i < |page["items"].elems| && dec(page["items"].elems[i]).Failure?
    ensures DecodePage(JObject(page), dec, itemsLast).Failure?
  {
    if DecodePage(JObject(page), dec, itemsLast).Success? {
      SpotifyDataProperties.PageItemsAllDecode(page, dec, itemsLast);
    }
  }

  /** A `data` block with a present page that fails does not decode, whichever of the three pages it is. */
  lemma DataFailsOnBadPage(ms: map<string, Json>)
    requires || ("albums" in ms && ms["albums"] != JNull && DecodeAlbumMeta(ms["albums"]).Failure?)
             || ("artists" in ms && ms["artists"] != JNull && DecodeArtistMeta(ms["artists"]).Failure?)
             || ("tracks" in ms && ms["tracks"] != JNull && DecodeTrackMeta(ms["tracks"]).Failure?)
    ensures DecodeResponseData(JObject(ms)).Failure?
  {
  }

  /** An envelope whose `data` block fails does not decode. */
  lemma EnvelopeFailsOnBadData(ms: map<string, Json>)
    requires "data" in ms && DecodeResponseData(ms["data"]).Failure?
    ensures DecodeMessageResponse(JObject(ms)).Failure?
  {
  }

  /**
   * Decoding is all or nothing: one album in the album page that lacks
   * `release_date` makes the whole envelope fail, whatever the other
   * pages hold.
   */
  lemma AlbumWithoutReleaseDateFailsEnvelope(ms: map<string, Json>, i: nat)
    requires "data" in ms && ms["data"].JObject?
    requires "albums" in ms["data"].fields && ms["data"].fields["albums"].JObject?
    requires "items" in ms["data"].fields["albums"].fields
    requires ms["data"].fields["albums"].fields["items"].JArray?
    requires i < |ms["data"].fields["albums"].fields["items"].elems|
    requires ms["data"].fields["albums"].fields["items"].elems[i].JObject?
    requires "release_date" !in ms["data"].fields["albums"].fields["items"].elems[i].fields
    ensures DecodeMessageResponse(JObject(ms)).Failure?
  {
    var data := ms["data"].fields;
    var page := data["albums"].fields;
    var album := page["items"].elems[i];
    SpotifyDataProperties.AlbumWithoutReleaseDate(album.fields);
    PageFailsOnBadItem(page, DecodeAlbum, true, i);
    DataFailsOnBadPage(data);
    EnvelopeFailsOnBadData(ms);
  }
}
